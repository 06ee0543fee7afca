/** The numerical routines of scipy and numpy that the pipeline calls. They
    work on floating-point data that this model does not interpret, so a
    `Library` value stands for them and `Lawful` says all that is assumed of
    them: how long their results are, and that magnitudes are non-negative.
    Every property proved elsewhere holds for every lawful library.

    What is interpreted here: `signal.butter`'s check of its critical
    frequencies, and the sample-count formula `int(len * to / from)` the
    pipeline computes before every `signal.resample`. */
module Numerics {
  import opened Outcomes

  datatype BandKind = LowPass | BandPass | HighPass

  /** A Butterworth design as `signal.butter(order, wn, btype, output='sos')`
      determines it: the design is a function of these three parameters, so
      the parameters stand for the second-order sections. */
  datatype Design = Design(order: nat, kind: BandKind, wn: seq<real>)

  /** The critical frequencies `signal.butter` accepts for a digital filter:
      one for a low- or high-pass, two increasing ones for a band-pass, each
      strictly between 0 and 1 (1 being the Nyquist frequency). */
  predicate CriticalFrequenciesValid(kind: BandKind, wn: seq<real>) {
    && (if kind == BandPass then |wn| == 2 && wn[0] < wn[1] else |wn| == 1)
    && forall j :: 0 <= j < |wn| ==> 0.0 < wn[j] < 1.0
  }

  /** `signal.butter(order, wn, btype=kind, output='sos')`, which raises a
      ValueError for critical frequencies it does not accept. */
  function Butter(order: nat, kind: BandKind, wn: seq<real>): (r: Result<Design>)
    ensures r.Ok? <==> CriticalFrequenciesValid(kind, wn)
    ensures r.Ok? ==> r.value == Design(order, kind, wn)
    ensures r.Err? ==> r.fault == InvalidCriticalFrequency
  {
    if CriticalFrequenciesValid(kind, wn) then Ok(Design(order, kind, wn))
    else Err(InvalidCriticalFrequency)
  }

  /** The opaque routines:
      - `resample(x, n)` is `signal.resample(x, n)`;
      - `sosfilt(d, x)` is `signal.sosfilt(sos, x)` for the sections of `d`;
      - `magnitudes(x)` is `np.abs(np.fft.fft(x))`;
      - `cosTurns(u)` is `np.cos(2 * np.pi * u)`. */
  datatype Library = Library(
    resample: (seq<real>, nat) -> seq<real>,
    sosfilt: (Design, seq<real>) -> seq<real>,
    magnitudes: seq<real> -> seq<real>,
    cosTurns: real -> real)

  /** What the pipeline relies on: resampling yields the requested number of
      samples, filtering keeps the length, the transform has one bin per
      sample and a magnitude is never negative. */
  ghost predicate Lawful(lib: Library) {
    && (forall x, n :: |lib.resample(x, n)| == n)
    && (forall d, x :: |lib.sosfilt(d, x)| == |x|)
    && (forall x :: |lib.magnitudes(x)| == |x|)
    && (forall x, i :: 0 <= i < |lib.magnitudes(x)| ==> lib.magnitudes(x)[i] >= 0.0)
  }

  /** `int(n * to / from)` for non-negative n and positive rates. */
  function ResampledLength(n: nat, to: int, from: int): nat
    requires to > 0 && from > 0
  {
    (n * to) / from
  }

  /** The resampled length is the largest count m with m / to <= n / from,
      that is, the floor of the exact quotient. */
  lemma ResampledLengthBounds(n: nat, to: int, from: int)
    requires to > 0 && from > 0
    ensures var m := ResampledLength(n, to, from);
            m * from <= n * to < (m + 1) * from
  {
  }

  lemma CancelFactor(a: int, b: int, h: int)
    requires h > 0 && a * h <= b * h
    ensures a <= b
  {
  }

  /** Converting n samples up to a higher (or equal) rate and back gives n
      samples again, or one fewer: flooring twice loses at most one. */
  lemma RoundTripLength(n: nat, low: int, high: int)
    requires 0 < low <= high
    ensures n - 1 <= ResampledLength(ResampledLength(n, high, low), low, high) <= n
  {
    var m := ResampledLength(n, high, low);
    var k := ResampledLength(m, low, high);
    ResampledLengthBounds(n, high, low);
    ResampledLengthBounds(m, low, high);
    assert k * high <= m * low <= n * high;
    CancelFactor(k, n, high);
    assert (k + 1) * high > m * low;
    assert m * low > n * high - low;
    assert n * high - low >= (n - 1) * high;
    CancelFactor(n - 1, k + 1, high);
  }

  /** `signal.resample` applied along axis 0 of a two-dimensional buffer,
      which resamples every column on its own. */
  function ResampleColumns(lib: Library, cols: seq<seq<real>>, n: nat): (r: seq<seq<real>>)
    requires Lawful(lib)
    ensures |r| == |cols|
    ensures forall c :: 0 <= c < |r| ==> |r[c]| == n
  {
    seq(|cols|, c requires 0 <= c < |cols| => lib.resample(cols[c], n))
  }
}
