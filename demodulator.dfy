/** Recovery of the channels from the composite (`demodulation_process`,
    dsp.py:175-222): for each carrier, a band-pass isolates its band, the
    band is mixed back down with the same carrier, a low-pass removes the
    image at twice the carrier, and the baseband is resampled to the
    original rate and divided by its peak. */
module Demodulator {
  import opened Outcomes
  import opened Peaks
  import opened Numerics
  import opened Modulator

  /** Half-widths of the isolation bands (dsp.py:190). */
  const HalfWidths: seq<int> := [4000, 6000, 10000, 15000]

  /** Cutoffs of the recovery low-passes in hertz (dsp.py:210). */
  const RecoveryCutoffs: seq<int> := [2500, 5500, 10500, 15000]

  /** The lowest band edge, and the margin kept below the Nyquist frequency
      (dsp.py:198-199). */
  const EdgeMargin: real := 100.0

  datatype Passband = Passband(low: real, high: real)

  /** `fc - bw` raised to 100 Hz and `fc + bw` lowered to `nyq - 100` when
      they cross those limits. */
  function Band(fc: int, bw: int, nyq: real): (b: Passband)
    ensures b.low >= EdgeMargin && b.high <= nyq - EdgeMargin
    ensures b.low == EdgeMargin || b.low == (fc - bw) as real
    ensures b.high == nyq - EdgeMargin || b.high == (fc + bw) as real
    ensures (fc - bw) as real >= EdgeMargin ==> b.low == (fc - bw) as real
    ensures (fc + bw) as real <= nyq - EdgeMargin ==> b.high == (fc + bw) as real
  {
    var low := (fc - bw) as real;
    var high := (fc + bw) as real;
    Passband(if low < EdgeMargin then EdgeMargin else low,
             if high > nyq - EdgeMargin then nyq - EdgeMargin else high)
  }

  /** `isolated * np.cos(2 * np.pi * fc * t) * 2`. */
  function Downconvert(lib: Library, s: seq<real>, fc: int, rate: int): (d: seq<real>)
    requires rate > 0
    ensures |d| == |s|
  {
    seq(|s|, k requires 0 <= k < |s| => s[k] * CarrierAt(lib, fc, rate, k) * 2.0)
  }

  /** Dividing by a positive real keeps the order of two reals. */
  lemma QuotientOrder(a: real, b: real, n: real)
    requires n > 0.0
    ensures a / n < b / n <==> a < b
  {
    if a < b {
      assert b / n - a / n == (b - a) / n;
    } else {
      assert a / n - b / n == (a - b) / n;
    }
  }

  /** A clamped band is a valid band-pass design exactly when its edges
      increase: both normalised edges already lie in (0, 1). */
  lemma BandPassAccepted(band: Passband, nyq: real)
    requires nyq > 0.0 && band.low >= EdgeMargin && band.high <= nyq - EdgeMargin
    ensures CriticalFrequenciesValid(BandPass, [band.low / nyq, band.high / nyq])
            <==> band.low < band.high
  {
    QuotientOrder(band.low, band.high, nyq);
    QuotientOrder(0.0, band.low, nyq);
    QuotientOrder(band.high, nyq, nyq);
    assert 0.0 / nyq == 0.0 && nyq / nyq == 1.0;
  }

  /** A positive cutoff is a valid low-pass design exactly when it lies
      below the Nyquist frequency. */
  lemma LowPassAccepted(cutoff: real, nyq: real)
    requires nyq > 0.0 && cutoff > 0.0
    ensures CriticalFrequenciesValid(LowPass, [cutoff / nyq]) <==> cutoff < nyq
  {
    QuotientOrder(0.0, cutoff, nyq);
    QuotientOrder(cutoff, nyq, nyq);
    assert 0.0 / nyq == 0.0 && nyq / nyq == 1.0;
    var wn := [cutoff / nyq];
    if cutoff < nyq {
      forall j | 0 <= j < |wn| ensures 0.0 < wn[j] < 1.0 {
        assert wn[j] == cutoff / nyq;
      }
    } else {
      assert !(wn[0] < 1.0);
    }
  }

  /** The stages of dsp.py:195-212 for channel i on carrier fc: isolate the
      band, mix it down and low-pass it. Either of the two designs may be
      refused by `signal.butter`; filtering keeps the composite's length. */
  function Baseband(lib: Library, composite: seq<real>, i: nat, fc: int, fsHigh: int): (r: Result<seq<real>>)
    requires Lawful(lib) && i < |HalfWidths| && fsHigh > 0
    ensures var nyq := 0.5 * fsHigh as real;
            var band := Band(fc, HalfWidths[i], nyq);
            r.Ok? <==> band.low < band.high && (RecoveryCutoffs[i] as real) < nyq
    ensures var nyq := 0.5 * fsHigh as real;
            var band := Band(fc, HalfWidths[i], nyq);
            var bandPass := Design(4, BandPass, [band.low / nyq, band.high / nyq]);
            var lowPass := Design(4, LowPass, [RecoveryCutoffs[i] as real / nyq]);
            r.Ok? ==> r.value == lib.sosfilt(lowPass, Downconvert(lib, lib.sosfilt(bandPass, composite), fc, fsHigh))
    ensures r.Ok? ==> |r.value| == |composite|
    ensures r.Err? ==> r.fault == InvalidCriticalFrequency
  {
    var nyq := 0.5 * fsHigh as real;
    var band := Band(fc, HalfWidths[i], nyq);
    BandPassAccepted(band, nyq);
    LowPassAccepted(RecoveryCutoffs[i] as real, nyq);
    var bandPass :- Butter(4, BandPass, [band.low / nyq, band.high / nyq]);
    var isolated := lib.sosfilt(bandPass, composite);
    var demod := Downconvert(lib, isolated, fc, fsHigh);
    var lowPass :- Butter(4, LowPass, [RecoveryCutoffs[i] as real / nyq]);
    Ok(lib.sosfilt(lowPass, demod))
  }

  /** Mixing a channel that sits alone on carrier fc back down with the same
      carrier gives twice the channel times the square of the carrier. */
  lemma DownconvertOfMixed(lib: Library, s: seq<real>, fc: int, rate: int, k: nat)
    requires rate > 0 && k < |s|
    ensures var c := CarrierAt(lib, fc, rate, k);
            Downconvert(lib, Mix(lib, s, fc, rate), fc, rate)[k] == 2.0 * s[k] * (c * c)
  {
    var c := CarrierAt(lib, fc, rate, k);
    assert Mix(lib, s, fc, rate)[k] == s[k] * c;
    assert (s[k] * c) * c * 2.0 == 2.0 * s[k] * (c * c);
  }

  /** The recovery of channel i on carrier fc (dsp.py:195-220): the baseband
      resampled to `int(len * original_fs / fs_high)` samples and divided by
      its peak with no zero guard. The result has peak one and lies in
      [-1, 1], or is NaN throughout when the resampled baseband is silent.
      A baseband resampled to no samples is refused. */
  function RecoverChannel(lib: Library, composite: seq<real>, i: nat, fc: int, fsHigh: int, originalFs: int)
    : (r: Result<Normalized>)
    requires Lawful(lib) && i < |HalfWidths| && fsHigh > 0 && originalFs > 0
    ensures var m := ResampledLength(|composite|, originalFs, fsHigh);
            && (r.Ok? <==> Baseband(lib, composite, i, fc, fsHigh).Ok? && m > 0)
            && (r.Err? ==> r.fault == (if Baseband(lib, composite, i, fc, fsHigh).Err? then InvalidCriticalFrequency
                                       else EmptySignal))
            && (r.Ok? ==> r.value.Length() == m)
            && (r.Ok? ==> r.value == DivideByPeak(lib.resample(Baseband(lib, composite, i, fc, fsHigh).value, m)))
    ensures r.Ok? ==>
              (r.value.NotANumber? <==>
                 Silent(lib.resample(Baseband(lib, composite, i, fc, fsHigh).value,
                                     ResampledLength(|composite|, originalFs, fsHigh))))
    ensures r.Ok? && r.value.Scaled? ==>
              && Peak(r.value.samples) == 1.0
              && forall k :: 0 <= k < |r.value.samples| ==> -1.0 <= r.value.samples[k] <= 1.0
  {
    var baseband :- Baseband(lib, composite, i, fc, fsHigh);
    var numOriginal := ResampledLength(|baseband|, originalFs, fsHigh);
    if numOriginal == 0 then Err(EmptySignal)
    else Ok(DivideByPeak(lib.resample(baseband, numOriginal)))
  }

  /** One pass of the loop of dsp.py:192-220: isolate the band of carrier
      i, mix it down, low-pass it, resample it to the original rate and
      divide it by its peak; the band edges are clamped in place. */
  method RecoverOne(lib: Library, composite: seq<real>, i: nat, fc: int, fsHigh: int, originalFs: int)
    returns (r: Result<Normalized>)
    requires Lawful(lib) && i < |HalfWidths| && fsHigh > 0 && originalFs > 0
    ensures r == RecoverChannel(lib, composite, i, fc, fsHigh, originalFs)
  {
    var nyq := 0.5 * fsHigh as real;
    var bw := HalfWidths[i];
    var low := (fc - bw) as real;
    var high := (fc + bw) as real;
    if low < EdgeMargin {
      low := EdgeMargin;
    }
    if high > nyq - EdgeMargin {
      high := nyq - EdgeMargin;
    }
    assert Passband(low, high) == Band(fc, bw, nyq);

    var bandPass :- Butter(4, BandPass, [low / nyq, high / nyq]);
    var isolated := lib.sosfilt(bandPass, composite);
    var demod := Downconvert(lib, isolated, fc, fsHigh);
    var lowPass :- Butter(4, LowPass, [RecoveryCutoffs[i] as real / nyq]);
    var baseband := lib.sosfilt(lowPass, demod);
    var numOriginal := ResampledLength(|baseband|, originalFs, fsHigh);
    if numOriginal == 0 {
      return Err(EmptySignal);
    }
    var recovered := lib.resample(baseband, numOriginal);
    r := Ok(DivideByPeak(recovered));
  }

  /** `demodulation_process(composite, carriers, fs_high, original_fs)`:
      the channels recovered carrier by carrier, or the fault of the first
      carrier whose recovery fails. The half-width and cutoff tables hold
      four entries, so at most four carriers can be served. */
  method Demodulate(lib: Library, composite: seq<real>, carriers: seq<int>, fsHigh: int, originalFs: int)
    returns (r: Result<seq<Normalized>>)
    requires Lawful(lib) && |carriers| <= |HalfWidths| && fsHigh > 0 && originalFs > 0
    ensures r.Ok? <==>
              forall i :: 0 <= i < |carriers| ==> RecoverChannel(lib, composite, i, carriers[i], fsHigh, originalFs).Ok?
    ensures r.Ok? ==> |r.value| == |carriers|
    ensures r.Ok? ==> forall i :: 0 <= i < |carriers| ==>
              RecoverChannel(lib, composite, i, carriers[i], fsHigh, originalFs) == Ok(r.value[i])
    ensures r.Err? ==>
              exists i :: (&& 0 <= i < |carriers|
                           && RecoverChannel(lib, composite, i, carriers[i], fsHigh, originalFs) == Err(r.fault)
                           && forall j :: 0 <= j < i ==>
                                RecoverChannel(lib, composite, j, carriers[j], fsHigh, originalFs).Ok?)
  {
    var recovered: seq<Normalized> := [];
    for i := 0 to |carriers|
      invariant |recovered| == i
      invariant forall j :: 0 <= j < i ==>
                  RecoverChannel(lib, composite, j, carriers[j], fsHigh, originalFs) == Ok(recovered[j])
    {
      var channel :- RecoverOne(lib, composite, i, carriers[i], fsHigh, originalFs);
      recovered := recovered + [channel];
    }
    r := Ok(recovered);
  }

  /** The isolation bands at the working rate, carrier by carrier. */
  const StandardBands: seq<Passband> := [
    Passband(6000.0, 14000.0), Passband(19000.0, 31000.0),
    Passband(35000.0, 55000.0), Passband(55000.0, 85000.0)
  ]

  /** With the modulator's carriers at 192 kHz neither clamp fires and the
      bands are [6k, 14k], [19k, 31k], [35k, 55k] and [55k, 85k]. */
  lemma StandardBandsAre(i: nat)
    requires i < |Carriers|
    ensures Band(Carriers[i], HalfWidths[i], 0.5 * WorkingRate as real) == StandardBands[i]
  {
  }

  /** The standard bands contain their carriers, follow each other in
      carrier order and do not overlap as open intervals; the third and the
      fourth touch at 55 kHz. */
  lemma StandardBandsOrdered()
    ensures forall i :: 0 <= i < |StandardBands| ==>
              StandardBands[i].low < Carriers[i] as real < StandardBands[i].high
    ensures forall i, j :: 0 <= i < j < |StandardBands| ==> StandardBands[i].high <= StandardBands[j].low
    ensures StandardBands[2].high == StandardBands[3].low
  {
  }

  /** `2 fc` folded into [0, fs/2]: where the mixing image of carrier fc
      appears at rate fs. */
  function ImageFrequency(fc: int, fs: int): (f: int)
    requires 0 <= fc && 2 * fc <= fs
    ensures 0 <= f && 2 * f <= fs
    ensures f == 2 * fc || f + 2 * fc == fs
  {
    if 2 * (2 * fc) <= fs then 2 * fc else fs - 2 * fc
  }

  /** Every recovery cutoff lies below the folded image of its carrier
      (20k, 50k, 90k and 52k). */
  lemma CutoffsBelowImages(i: nat)
    requires i < |Carriers|
    ensures RecoveryCutoffs[i] < ImageFrequency(Carriers[i], WorkingRate)
  {
  }

  lemma DesignedAtWorkingRate(i: nat, fc: int, edges: Passband)
    requires i < |Carriers| && fc == Carriers[i] && edges == StandardBands[i]
    ensures var nyq := 0.5 * WorkingRate as real;
            && Butter(4, BandPass, [edges.low / nyq, edges.high / nyq]).Ok?
            && Butter(4, LowPass, [RecoveryCutoffs[i] as real / nyq]).Ok?
  {
    var nyq := 0.5 * WorkingRate as real;
    assert edges.low / nyq < edges.high / nyq by {
      assert edges.high / nyq - edges.low / nyq == (edges.high - edges.low) / nyq;
    }
  }

  /** With the modulator's carriers at the working rate every design is
      accepted, so recovering channel i fails only when the composite is
      too short to leave a sample at the original rate; otherwise it holds
      `int(len * original_fs / 192000)` samples. */
  lemma StandardRecovery(lib: Library, composite: seq<real>, i: nat, originalFs: int)
    requires Lawful(lib) && i < |Carriers| && originalFs > 0
    ensures var r := RecoverChannel(lib, composite, i, Carriers[i], WorkingRate, originalFs);
            var m := ResampledLength(|composite|, originalFs, WorkingRate);
            && (r.Ok? <==> m > 0)
            && (r.Err? ==> r.fault == EmptySignal)
            && (r.Ok? ==> r.value.Length() == m)
  {
    StandardBandsAre(i);
    DesignedAtWorkingRate(i, Carriers[i], StandardBands[i]);
  }

  /** The lengths end to end: a channel of L samples at a rate no higher
      than the working rate goes up to `int(L * 192000 / fs)` samples and
      comes back with L or L - 1. */
  lemma RecoveredLength(lib: Library, composite: seq<real>, i: nat, len: nat, fs: int)
    requires Lawful(lib) && i < |Carriers| && 0 < fs <= WorkingRate
    requires |composite| == ResampledLength(len, WorkingRate, fs)
    ensures var r := RecoverChannel(lib, composite, i, Carriers[i], WorkingRate, fs);
            r.Ok? ==> len - 1 <= r.value.Length() <= len
  {
    RoundTripLength(len, fs, WorkingRate);
  }
}
