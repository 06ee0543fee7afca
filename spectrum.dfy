/** The single-sided magnitude spectrum the pipeline plots
    (`compute_spectrum`, dsp.py:83-94). */
module Spectrum {
  import opened Outcomes
  import opened Numerics

  /** The spacing of the bins: `1 / (n * d)` with `d = 1 / fs`. */
  function BinWidth(n: nat, fs: int): real
    requires n > 0
  {
    fs as real / n as real
  }

  /** `np.fft.fftfreq(n, d=1/fs)`: bins 0 .. (n-1)/2 carry the non-negative
      multiples of the bin width, the remaining n/2 bins the negative ones
      in increasing order. */
  function FftFreq(n: nat, fs: int): (f: seq<real>)
    requires n > 0
    ensures |f| == n
  {
    seq(n, k requires 0 <= k < n => (if k <= (n - 1) / 2 then k else k - n) as real * BinWidth(n, fs))
  }

  /** The plotted half: `freqs[:n//2]` and `abs(fft[:n//2]) / n`. */
  datatype HalfSpectrum = HalfSpectrum(freqs: seq<real>, mags: seq<real>)

  /** `compute_spectrum(x, fs)`. numpy refuses a transform of no points.
      Otherwise the first n/2 bins are kept: bin k sits at k * fs / n and
      its magnitude is the transform's magnitude divided by n, hence never
      negative. */
  function ComputeSpectrum(lib: Library, x: seq<real>, fs: int): (r: Result<HalfSpectrum>)
    requires Lawful(lib) && fs != 0
    ensures r.Ok? <==> |x| > 0
    ensures r.Err? ==> r.fault == EmptyTransform
    ensures r.Ok? ==> |r.value.freqs| == |x| / 2 && |r.value.mags| == |x| / 2
    ensures r.Ok? ==> forall k :: 0 <= k < |r.value.freqs| ==>
              r.value.freqs[k] == k as real * BinWidth(|x|, fs)
    ensures r.Ok? ==> forall k :: 0 <= k < |r.value.mags| ==>
              r.value.mags[k] >= 0.0 && r.value.mags[k] * |x| as real == lib.magnitudes(x)[k]
  {
    if |x| == 0 then Err(EmptyTransform)
    else
      var n := |x|;
      var half := n / 2;
      var transform := lib.magnitudes(x);
      assert forall k :: 0 <= k < half ==> transform[k] >= 0.0;
      FftFreqLowerHalf(n, fs);
      var freqs := FftFreq(n, fs)[..half];
      var mags := seq(half, k requires 0 <= k < half => transform[k] / n as real);
      Ok(HalfSpectrum(freqs, mags))
  }

  /** The first n/2 bins carry the frequencies 0, fs/n, 2 fs/n, ... */
  lemma FftFreqLowerHalf(n: nat, fs: int)
    requires n > 0
    ensures forall k :: 0 <= k < n / 2 ==> FftFreq(n, fs)[k] == k as real * BinWidth(n, fs)
  {
  }

  /** Consecutive non-negative bins are one bin width apart. */
  lemma FftFreqEvenlySpaced(n: nat, fs: int, k: nat)
    requires n > 0 && k + 1 <= (n - 1) / 2
    ensures FftFreq(n, fs)[k + 1] - FftFreq(n, fs)[k] == BinWidth(n, fs)
  {
    var w := BinWidth(n, fs);
    assert FftFreq(n, fs)[k + 1] == (k + 1) as real * w;
    assert FftFreq(n, fs)[k] == k as real * w;
  }

  /** For a positive rate the bins that carry a non-negative frequency are
      exactly the first (n-1)/2 + 1, and each of them lies below the
      Nyquist frequency fs / 2. */
  lemma FftFreqSigns(n: nat, fs: int, k: nat)
    requires n > 0 && fs > 0 && k < n
    ensures FftFreq(n, fs)[k] >= 0.0 <==> k <= (n - 1) / 2
    ensures k <= (n - 1) / 2 ==> FftFreq(n, fs)[k] < fs as real / 2.0
  {
    var w := BinWidth(n, fs);
    assert w > 0.0;
    if k <= (n - 1) / 2 {
      assert 2 * k < n;
      assert (2 * k) as real * w < n as real * w;
      assert n as real * w == fs as real;
    } else {
      assert (k - n) as real * w < 0.0;
    }
  }

  /** The kept half is exactly the non-negative frequencies when n is even;
      when n is odd, bin (n-1)/2 is non-negative but falls outside the kept
      half (and n = 1 keeps nothing at all). */
  lemma KeptHalf(lib: Library, x: seq<real>, fs: int)
    requires Lawful(lib) && fs > 0 && |x| > 0
    ensures var n := |x|;
            |x| % 2 == 0 ==>
              forall k :: 0 <= k < n ==> (FftFreq(n, fs)[k] >= 0.0 <==> k < |ComputeSpectrum(lib, x, fs).value.freqs|)
    ensures var n := |x|;
            |x| % 2 == 1 ==>
              FftFreq(n, fs)[n / 2] >= 0.0 && |ComputeSpectrum(lib, x, fs).value.freqs| == n / 2
  {
    var n := |x|;
    forall k | 0 <= k < n
      ensures FftFreq(n, fs)[k] >= 0.0 <==> k <= (n - 1) / 2
    {
      FftFreqSigns(n, fs, k);
    }
  }
}
