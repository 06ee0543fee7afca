/** The fixed filter bank (`design_and_apply_filters`, dsp.py:46-81): four
    fourth-order Butterworth filters, one per channel slot, each designed
    from cutoffs in hertz normalised by the Nyquist frequency of the input
    rate. */
module FilterBank {
  import opened Outcomes
  import opened Numerics
  import Loading

  /** One row of the bank: the filter family, its cutoffs in hertz, and the
      description the pipeline reports for it. */
  datatype FilterSlot = FilterSlot(kind: BandKind, cutoffsHz: seq<real>, description: string)

  /** Every filter of the bank has order 4. */
  const Order: nat := 4

  /** The bank in slot order (dsp.py:57-79). */
  const Slots: seq<FilterSlot> := [
    FilterSlot(LowPass, [2000.0], "Lowpass (fc=2kHz): Isolates low freq components"),
    FilterSlot(BandPass, [2000.0, 5000.0], "Bandpass (2-5kHz): Captures vocal/mid range"),
    FilterSlot(BandPass, [5000.0, 10000.0], "Bandpass (5-10kHz): High-mid presence"),
    FilterSlot(HighPass, [10000.0], "Highpass (fc=10kHz): High frequency detail")
  ]

  /** `nyq = 0.5 * fs` (dsp.py:55). */
  function Nyquist(fs: int): real {
    0.5 * fs as real
  }

  /** The critical frequencies handed to `signal.butter`: every cutoff
      divided by the Nyquist frequency. */
  function SlotWn(slot: FilterSlot, fs: int): (wn: seq<real>)
    requires fs > 0
    ensures |wn| == |slot.cutoffsHz|
    ensures forall j :: 0 <= j < |wn| ==> wn[j] * Nyquist(fs) == slot.cutoffsHz[j]
  {
    seq(|slot.cutoffsHz|, j requires 0 <= j < |slot.cutoffsHz| => slot.cutoffsHz[j] / Nyquist(fs))
  }

  function SlotDesign(slot: FilterSlot, fs: int): Design
    requires fs > 0
  {
    Design(Order, slot.kind, SlotWn(slot, fs))
  }

  /** The lowest input rate (exclusive) at which slot i can be designed:
      twice its highest cutoff. */
  const MinimumRates: seq<int> := [4000, 10000, 20000, 20000]

  /** The filtered channels and the descriptions, slot by slot. */
  datatype Bank = Bank(filtered: seq<seq<real>>, specs: seq<string>)

  /** A positive cutoff over a positive Nyquist frequency is a valid
      critical frequency exactly when the cutoff is below half the rate. */
  lemma NormalizedCutoff(hz: real, fs: int)
    requires hz > 0.0 && fs > 0
    ensures hz / Nyquist(fs) > 0.0
    ensures hz / Nyquist(fs) < 1.0 <==> 2.0 * hz < fs as real
  {
    var nyq := Nyquist(fs);
    assert hz / nyq * nyq == hz;
    if hz / nyq < 1.0 {
      assert hz < nyq;
    }
    if 2.0 * hz < fs as real {
      assert hz / nyq < nyq / nyq;
    }
  }

  lemma NormalizedOrder(a: real, b: real, fs: int)
    requires 0.0 < a < b && fs > 0
    ensures a / Nyquist(fs) < b / Nyquist(fs)
  {
    assert b / Nyquist(fs) - a / Nyquist(fs) == (b - a) / Nyquist(fs);
  }

  /** Slot i is designed without error exactly when the rate exceeds
      `MinimumRates[i]`; the band-pass edges always increase. */
  lemma SlotDesignValid(i: nat, fs: int)
    requires i < |Slots| && fs > 0
    ensures Butter(Order, Slots[i].kind, SlotWn(Slots[i], fs)).Ok? <==> fs > MinimumRates[i]
  {
    var slot := Slots[i];
    var wn := SlotWn(slot, fs);
    forall j | 0 <= j < |wn| ensures wn[j] == slot.cutoffsHz[j] / Nyquist(fs) {
    }
    NormalizedCutoff(slot.cutoffsHz[0], fs);
    NormalizedCutoff(slot.cutoffsHz[|slot.cutoffsHz| - 1], fs);
    if slot.kind == BandPass {
      NormalizedOrder(slot.cutoffsHz[0], slot.cutoffsHz[1], fs);
    }
  }

  /** `design_and_apply_filters(channels, fs)`: slot i filters channel i
      alone. `signal.butter` raises for the first slot whose cutoffs reach
      the Nyquist frequency, so the bank is built exactly when the rate is
      above 20 kHz; it then holds four filtered channels of the input
      lengths and the four descriptions in slot order. */
  method DesignAndApplyFilters(lib: Library, channels: seq<seq<real>>, fs: int) returns (r: Result<Bank>)
    requires Lawful(lib) && |channels| >= 4 && fs > 0
    ensures r.Ok? <==> fs > 20000
    ensures r.Err? ==> r.fault == InvalidCriticalFrequency
    ensures r.Ok? ==> |r.value.filtered| == 4
    ensures r.Ok? ==> forall i :: 0 <= i < 4 ==>
              && r.value.filtered[i] == lib.sosfilt(SlotDesign(Slots[i], fs), channels[i])
              && |r.value.filtered[i]| == |channels[i]|
    ensures r.Ok? ==> r.value.specs == [Slots[0].description, Slots[1].description,
                                        Slots[2].description, Slots[3].description]
  {
    SlotDesignValid(0, fs);
    SlotDesignValid(1, fs);
    SlotDesignValid(2, fs);
    SlotDesignValid(3, fs);
    var filtered: seq<seq<real>> := [];
    var specs: seq<string> := [];
    var nyq := Nyquist(fs);

    var sos1 :- Butter(Order, LowPass, [2000.0 / nyq]);
    assert sos1 == SlotDesign(Slots[0], fs);
    filtered := filtered + [lib.sosfilt(sos1, channels[0])];
    specs := specs + ["Lowpass (fc=2kHz): Isolates low freq components"];

    var sos2 :- Butter(Order, BandPass, [2000.0 / nyq, 5000.0 / nyq]);
    assert sos2 == SlotDesign(Slots[1], fs);
    filtered := filtered + [lib.sosfilt(sos2, channels[1])];
    specs := specs + ["Bandpass (2-5kHz): Captures vocal/mid range"];

    var sos3 :- Butter(Order, BandPass, [5000.0 / nyq, 10000.0 / nyq]);
    assert sos3 == SlotDesign(Slots[2], fs);
    filtered := filtered + [lib.sosfilt(sos3, channels[2])];
    specs := specs + ["Bandpass (5-10kHz): High-mid presence"];

    // The high-pass cutoff equals the upper edge of slot 3, which was just
    // designed, so this call of `signal.butter` cannot raise.
    var design4 := Butter(Order, HighPass, [10000.0 / nyq]);
    if design4.Err? {
      assert false;
    }
    var sos4 := design4.value;
    assert sos4 == SlotDesign(Slots[3], fs);
    filtered := filtered + [lib.sosfilt(sos4, channels[3])];
    specs := specs + ["Highpass (fc=10kHz): High frequency detail"];

    r := Ok(Bank(filtered, specs));
  }

  /** At the default loading rate of 44.1 kHz every slot is designed. */
  lemma DefaultRateDesignsBank()
    ensures forall i :: 0 <= i < |Slots| ==> Butter(Order, Slots[i].kind, SlotWn(Slots[i], Loading.DefaultRate)).Ok?
  {
    forall i | 0 <= i < |Slots|
      ensures Butter(Order, Slots[i].kind, SlotWn(Slots[i], Loading.DefaultRate)).Ok?
    {
      SlotDesignValid(i, Loading.DefaultRate);
    }
  }
}
