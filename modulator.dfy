/** Frequency-division multiplexing (`modulation_process`, dsp.py:96-173):
    every filtered channel is resampled to the working rate, multiplied by
    a cosine carrier of its own, and the products are summed into one
    composite signal that is divided by its peak. */
module Modulator {
  import opened Outcomes
  import opened Peaks
  import opened Numerics
  import Loading

  /** `fs_high` (dsp.py:148). */
  const WorkingRate: int := 192000

  /** The carrier of each slot in hertz (dsp.py:149). */
  const Carriers: seq<int> := [10000, 25000, 45000, 70000]

  /** `np.cos(2 * np.pi * fc * t)` at sample k, with `t = k / rate`. */
  function CarrierAt(lib: Library, fc: int, rate: int, k: nat): real
    requires rate > 0
  {
    lib.cosTurns(fc as real * (k as real / rate as real))
  }

  /** `sig * np.cos(2 * np.pi * fc * t)`: one channel on its carrier. */
  function Mix(lib: Library, s: seq<real>, fc: int, rate: int): (m: seq<real>)
    requires rate > 0
    ensures |m| == |s|
  {
    seq(|s|, k requires 0 <= k < |s| => s[k] * CarrierAt(lib, fc, rate, k))
  }

  /** The sum over channels of sample k. */
  function SumAt(mods: seq<seq<real>>, k: nat): real
    requires forall i :: 0 <= i < |mods| ==> k < |mods[i]|
  {
    if |mods| == 0 then 0.0
    else SumAt(mods[..|mods| - 1], k) + mods[|mods| - 1][k]
  }

  /** `np.sum(modulated_signals, axis=0)` over n-sample channels. */
  function Superpose(mods: seq<seq<real>>, n: nat): (c: seq<real>)
    requires forall i :: 0 <= i < |mods| ==> |mods[i]| == n
    ensures |c| == n
  {
    seq(n, k requires 0 <= k < n => SumAt(mods, k))
  }

  /** Channel i on carrier i, for every upsampled channel. */
  function Modulated(lib: Library, up: seq<seq<real>>): (mods: seq<seq<real>>)
    requires |up| <= |Carriers|
    ensures |mods| == |up|
    ensures forall i :: 0 <= i < |up| ==> mods[i] == Mix(lib, up[i], Carriers[i], WorkingRate)
  {
    seq(|up|, i requires 0 <= i < |up| => Mix(lib, up[i], Carriers[i], WorkingRate))
  }

  /** The composite before normalisation: sample k is the sum over the
      channels of `up_i[k] * cos(2 pi fc_i k / fs_high)`. */
  function Composite(lib: Library, up: seq<seq<real>>, n: nat): (c: seq<real>)
    requires |up| <= |Carriers| && forall i :: 0 <= i < |up| ==> |up[i]| == n
    ensures |c| == n
  {
    Superpose(Modulated(lib, up), n)
  }

  /** The composite is built channel by channel: adding a channel adds, at
      every sample k, that channel's sample times the carrier of its slot. */
  lemma CompositeExtend(lib: Library, up: seq<seq<real>>, x: seq<real>, n: nat, k: nat)
    requires |up| < |Carriers| && (forall i :: 0 <= i < |up| ==> |up[i]| == n) && |x| == n && k < n
    ensures Composite(lib, up + [x], n)[k]
            == Composite(lib, up, n)[k] + x[k] * CarrierAt(lib, Carriers[|up|], WorkingRate, k)
  {
    var longer := up + [x];
    var mods := Modulated(lib, longer);
    assert mods[..|mods| - 1] == Modulated(lib, up);
    assert mods[|mods| - 1] == Mix(lib, x, Carriers[|up|], WorkingRate);
  }

  /** What `modulation_process` returns. */
  datatype Transmission = Transmission(
    composite: Normalized, carriers: seq<int>, rate: int, upsampled: seq<seq<real>>)

  /** `modulation_process(filtered, fs)`. Every channel is resampled to
      `int(len * 192000 / fs)` samples; the normalised composite of those
      channels on their carriers is returned with the carriers, the working
      rate and the upsampled channels. A channel resampled to no samples,
      or the peak of the empty composite, is refused. The source indexes
      the carrier list by channel and the first upsampled channel for the
      time axis, so it needs one to four channels; it needs them equally
      long to broadcast. */
  method Modulate(lib: Library, filtered: seq<seq<real>>, fs: int) returns (r: Result<Transmission>)
    requires Lawful(lib) && fs > 0
    requires 1 <= |filtered| <= |Carriers|
    requires forall i :: 0 <= i < |filtered| ==> |filtered[i]| == |filtered[0]|
    ensures var n := ResampledLength(|filtered[0]|, WorkingRate, fs);
            && (r.Ok? <==> n > 0)
            && (r.Err? ==> r.fault == EmptySignal)
            && (r.Ok? ==> && r.value.carriers == Carriers && r.value.rate == WorkingRate
                          && |r.value.upsampled| == |filtered|
                          && (forall i :: 0 <= i < |filtered| ==>
                                r.value.upsampled[i] == lib.resample(filtered[i], n))
                          && r.value.composite == DivideByPeak(Composite(lib, r.value.upsampled, n)))
  {
    var fsHigh := WorkingRate;
    var carriers := Carriers;
    var n := ResampledLength(|filtered[0]|, fsHigh, fs);

    var upsampled: seq<seq<real>> := [];
    for i := 0 to |filtered|
      invariant |upsampled| == i
      invariant forall j :: 0 <= j < i ==> upsampled[j] == lib.resample(filtered[j], n)
    {
      var numResampled := ResampledLength(|filtered[i]|, fsHigh, fs);
      upsampled := upsampled + [lib.resample(filtered[i], numResampled)];
    }

    var modulated: seq<seq<real>> := [];
    for i := 0 to |upsampled|
      invariant |modulated| == i
      invariant forall j :: 0 <= j < i ==> modulated[j] == Mix(lib, upsampled[j], carriers[j], fsHigh)
    {
      modulated := modulated + [Mix(lib, upsampled[i], carriers[i], fsHigh)];
    }
    assert modulated == Modulated(lib, upsampled);

    var composite := Superpose(modulated, n);
    if n == 0 {
      return Err(EmptySignal);
    }
    r := Ok(Transmission(DivideByPeak(composite), carriers, fsHigh, upsampled));
  }

  lemma {:induction false} SilentSum(mods: seq<seq<real>>, k: nat)
    requires forall i :: 0 <= i < |mods| ==> k < |mods[i]| && mods[i][k] == 0.0
    ensures SumAt(mods, k) == 0.0
  {
    if |mods| > 0 {
      SilentSum(mods[..|mods| - 1], k);
    }
  }

  /** With no zero guard, channels that are all silent yield a silent
      composite, and dividing it by its zero peak gives NaN throughout. */
  lemma SilentChannelsGiveNotANumber(lib: Library, up: seq<seq<real>>, n: nat)
    requires n > 0 && |up| <= |Carriers| && forall i :: 0 <= i < |up| ==> |up[i]| == n
    requires forall i :: 0 <= i < |up| ==> Silent(up[i])
    ensures DivideByPeak(Composite(lib, up, n)) == NotANumber(n)
  {
    var mods := Modulated(lib, up);
    forall k | 0 <= k < n
      ensures Composite(lib, up, n)[k] == 0.0
    {
      forall i | 0 <= i < |mods| ensures mods[i][k] == 0.0 {
        assert mods[i][k] == up[i][k] * CarrierAt(lib, Carriers[i], WorkingRate, k);
      }
      SilentSum(mods, k);
    }
  }

  /** The carriers increase and all lie below the Nyquist frequency of the
      working rate. */
  lemma CarriersBelowNyquist()
    ensures forall i :: 0 <= i < |Carriers| ==> 0 < Carriers[i] < WorkingRate / 2
    ensures forall i, j :: 0 <= i < j < |Carriers| ==> Carriers[i] < Carriers[j]
  {
  }

  /** At the default loading rate of 44.1 kHz a channel of L samples is
      upsampled to `floor(L * 192000 / 44100)` samples, at least four times
      as many as it had. */
  lemma UpsampledLengthAtDefaultRate(len: nat)
    ensures 4 * len <= ResampledLength(len, WorkingRate, Loading.DefaultRate)
  {
    var m := ResampledLength(len, WorkingRate, Loading.DefaultRate);
    ResampledLengthBounds(len, WorkingRate, Loading.DefaultRate);
    assert len * 192000 < (m + 1) * Loading.DefaultRate;
    assert 4 * len * Loading.DefaultRate <= len * 192000;
  }
}
