/** The channel source (`load_and_prep_data`, dsp.py:9-44): two decoded
    stereo recordings are brought to one rate, trimmed to a common length,
    peak-normalised and split into four mono channels. Reading the files
    (`sf.read`) is outside the model: the decoded recordings are inputs. */
module Loading {
  import opened Outcomes
  import opened Peaks
  import opened Numerics

  /** A decoded sound file as `sf.read` returns it: its samples channel by
      channel (the columns of the returned array) and its sample rate. */
  datatype Recording = Recording(columns: seq<seq<real>>, rate: int)

  /** What a decoder delivers: at least one channel, all channels equally
      long, and a positive rate. */
  predicate WellFormed(rec: Recording) {
    && |rec.columns| >= 1
    && rec.rate > 0
    && forall c :: 0 <= c < |rec.columns| ==> |rec.columns[c]| == |rec.columns[0]|
  }

  /** `len(y)`: the number of frames. */
  function Frames(rec: Recording): nat
    requires |rec.columns| >= 1
  {
    |rec.columns[0]|
  }

  /** The default target rate of `load_and_prep_data` (dsp.py:9). */
  const DefaultRate := 44100

  /** The number of frames after the rate conversion of dsp.py:19-24. */
  function ConformedFrames(rec: Recording, target: int): nat
    requires WellFormed(rec) && target > 0
  {
    if rec.rate != target then ResampledLength(Frames(rec), target, rec.rate) else Frames(rec)
  }

  /** dsp.py:19-24: a recording is resampled only when its rate differs
      from the target, and then to `int(len * target / rate)` frames. */
  function Conform(lib: Library, rec: Recording, target: int): (cols: seq<seq<real>>)
    requires Lawful(lib) && WellFormed(rec) && target > 0
    ensures |cols| == |rec.columns|
    ensures forall c :: 0 <= c < |cols| ==> |cols[c]| == ConformedFrames(rec, target)
    ensures rec.rate == target ==> cols == rec.columns
    ensures rec.rate != target ==>
              forall c :: 0 <= c < |cols| ==> cols[c] == lib.resample(rec.columns[c], ConformedFrames(rec, target))
  {
    if rec.rate != target then ResampleColumns(lib, rec.columns, ConformedFrames(rec, target))
    else rec.columns
  }

  /** `y[:n]`: the first n frames of every column. */
  function Trim(cols: seq<seq<real>>, n: nat): (r: seq<seq<real>>)
    requires forall c :: 0 <= c < |cols| ==> |cols[c]| >= n
    ensures |r| == |cols|
    ensures forall c :: 0 <= c < |cols| ==> r[c] == cols[c][..n]
  {
    seq(|cols|, c requires 0 <= c < |cols| => cols[c][..n])
  }

  function Min(a: nat, b: nat): nat {
    if a < b then a else b
  }

  /** The four channels and their common rate. */
  datatype Prepared = Prepared(channels: seq<seq<real>>, rate: int)

  /** The common length both recordings are trimmed to (dsp.py:27). */
  function CommonLength(first: Recording, second: Recording, target: int): nat
    requires WellFormed(first) && WellFormed(second) && target > 0
  {
    Min(ConformedFrames(first, target), ConformedFrames(second, target))
  }

  /** One recording after rate conversion and trimming to n frames. */
  function Prefix(lib: Library, rec: Recording, target: int, n: nat): (t: seq<seq<real>>)
    requires Lawful(lib) && WellFormed(rec) && target > 0 && n <= ConformedFrames(rec, target)
    ensures |t| == |rec.columns|
    ensures forall c :: 0 <= c < |t| ==> |t[c]| == n
    ensures forall c :: 0 <= c < |t| ==> t[c] == Conform(lib, rec, target)[c][..n]
  {
    Trim(Conform(lib, rec, target), n)
  }

  /** One recording rate-converted, trimmed to n frames and divided by its
      joint peak unless it is silent (dsp.py:19-33). */
  function Stage(lib: Library, rec: Recording, target: int, n: nat): (z: seq<seq<real>>)
    requires Lawful(lib) && WellFormed(rec) && target > 0 && 0 < n <= ConformedFrames(rec, target)
    ensures |z| == |rec.columns| && forall c :: 0 <= c < |z| ==> |z[c]| == n
  {
    NormalizeGuarded(Prefix(lib, rec, target, n))
  }

  /** dsp.py:37-42: `y1[:, 0], y1[:, 1], y2[:, 0], y2[:, 1]`; indexing
      column 1 of a buffer with a single channel raises. */
  function SplitChannels(z1: seq<seq<real>>, z2: seq<seq<real>>): (r: Result<seq<seq<real>>>)
    ensures r.Ok? <==> |z1| >= 2 && |z2| >= 2
    ensures r.Err? ==> r.fault == TooFewChannels
    ensures r.Ok? ==> r.value == [z1[0], z1[1], z2[0], z2[1]]
    ensures r.Ok? ==> |r.value| == 4 && forall i :: 0 <= i < 4 ==> r.value[i] == if i < 2 then z1[i] else z2[i - 2]
  {
    if |z1| < 2 || |z2| < 2 then Err(TooFewChannels)
    else Ok([z1[0], z1[1], z2[0], z2[1]])
  }

  /** `load_and_prep_data` on two decoded recordings. Resampling to no
      frames or taking the peak of an empty buffer raises (EmptySignal);
      so does column 1 of a recording with fewer than two channels
      (TooFewChannels). Otherwise there are four channels, all of the
      common length, at the target rate. */
  function LoadAndPrep(lib: Library, first: Recording, second: Recording, target: int): (r: Result<Prepared>)
    requires Lawful(lib) && WellFormed(first) && WellFormed(second) && target > 0
    ensures r.Ok? <==>
              CommonLength(first, second, target) > 0 && |first.columns| >= 2 && |second.columns| >= 2
    ensures r.Err? ==>
              r.fault == (if CommonLength(first, second, target) == 0 then EmptySignal else TooFewChannels)
    ensures r.Ok? ==> r.value.rate == target && |r.value.channels| == 4
  {
    var n := CommonLength(first, second, target);
    if n == 0 then Err(EmptySignal)
    else
      var z1 := Stage(lib, first, target, n);
      var z2 := Stage(lib, second, target, n);
      var chans :- SplitChannels(z1, z2);
      Ok(Prepared(chans, target))
  }

  lemma ScaleByOne(s: seq<real>)
    ensures Scale(s, 1.0) == s
  {
  }

  /** The peak-normalisation step of one recording, as the gain it divides
      by: the joint peak of the trimmed recording, or 1 when it is silent. */
  function Gain(cols: seq<seq<real>>): (g: real)
    requires HasSamples(cols)
    ensures g > 0.0
  {
    if JointPeak(cols) > 0.0 then JointPeak(cols) else 1.0
  }

  lemma NormalizeGuardedIsGain(cols: seq<seq<real>>)
    requires HasSamples(cols)
    ensures NormalizeGuarded(cols) == ScaleColumns(cols, Gain(cols))
  {
    if JointPeak(cols) <= 0.0 {
      SilentColumnsBounds(cols);
      forall c | 0 <= c < |cols| ensures Scale(cols[c], 1.0) == cols[c] {
        ScaleByOne(cols[c]);
      }
    }
  }

  /** The channels of a successful load, stage by stage. */
  lemma LoadedChannels(lib: Library, first: Recording, second: Recording, target: int)
    requires Lawful(lib) && WellFormed(first) && WellFormed(second) && target > 0
    requires CommonLength(first, second, target) > 0 && |first.columns| >= 2 && |second.columns| >= 2
    ensures var n := CommonLength(first, second, target);
            var z1 := Stage(lib, first, target, n);
            var z2 := Stage(lib, second, target, n);
            && n > 0 && |z1| >= 2 && |z2| >= 2
            && LoadAndPrep(lib, first, second, target).value.channels == [z1[0], z1[1], z2[0], z2[1]]
  {
  }

  /** Loading yields four channels of the common length
      `min(len1, len2)` of the rate-converted recordings. */
  lemma LoadShape(lib: Library, first: Recording, second: Recording, target: int)
    requires Lawful(lib) && WellFormed(first) && WellFormed(second) && target > 0
    requires CommonLength(first, second, target) > 0 && |first.columns| >= 2 && |second.columns| >= 2
    ensures var chans := LoadAndPrep(lib, first, second, target).value.channels;
            |chans| == 4 && forall i :: 0 <= i < 4 ==> |chans[i]| == CommonLength(first, second, target)
  {
    LoadedChannels(lib, first, second, target);
    var n := CommonLength(first, second, target);
    assert SplitChannels(Stage(lib, first, target, n), Stage(lib, second, target, n)).Ok?;
  }

  /** The four channels in their fixed order File1-L, File1-R, File2-L,
      File2-R: channel 2s+j is column j of recording s after rate conversion
      and trimming, divided by one gain shared by both columns of that
      recording (its joint peak, or 1 when it is silent). */
  lemma {:induction false} LoadChannelsAreScaledPrefixes(lib: Library, first: Recording, second: Recording, target: int)
    requires Lawful(lib) && WellFormed(first) && WellFormed(second) && target > 0
    requires CommonLength(first, second, target) > 0 && |first.columns| >= 2 && |second.columns| >= 2
    ensures var chans := LoadAndPrep(lib, first, second, target).value.channels;
            var n := CommonLength(first, second, target);
            var t1 := Prefix(lib, first, target, n);
            var t2 := Prefix(lib, second, target, n);
            && chans[0] == Scale(t1[0], Gain(t1)) && chans[1] == Scale(t1[1], Gain(t1))
            && chans[2] == Scale(t2[0], Gain(t2)) && chans[3] == Scale(t2[1], Gain(t2))
  {
    LoadedChannels(lib, first, second, target);
    var n := CommonLength(first, second, target);
    var t1 := Prefix(lib, first, target, n);
    var t2 := Prefix(lib, second, target, n);
    NormalizeGuardedIsGain(t1);
    NormalizeGuardedIsGain(t2);
    assert Stage(lib, first, target, n) == ScaleColumns(t1, Gain(t1));
    assert Stage(lib, second, target, n) == ScaleColumns(t2, Gain(t2));
  }

  /** When both recordings are already at the target rate nothing is
      resampled: the common length is that of the shorter recording and
      every trimmed column is a prefix of the decoded one. */
  lemma {:induction false} LoadAtTargetRateKeepsSamples(lib: Library, first: Recording, second: Recording, target: int)
    requires Lawful(lib) && WellFormed(first) && WellFormed(second) && target > 0
    requires first.rate == target && second.rate == target
    ensures CommonLength(first, second, target) == Min(Frames(first), Frames(second))
    ensures var n := CommonLength(first, second, target);
            && (forall c :: 0 <= c < |first.columns| ==> Prefix(lib, first, target, n)[c] == first.columns[c][..n])
            && (forall c :: 0 <= c < |second.columns| ==> Prefix(lib, second, target, n)[c] == second.columns[c][..n])
  {
  }

  /** Channels taken from two buffers whose samples lie in [-1, 1] do too. */
  lemma SplitChannelsBounded(z1: seq<seq<real>>, z2: seq<seq<real>>)
    requires |z1| >= 2 && |z2| >= 2
    requires forall c, i :: 0 <= c < |z1| && 0 <= i < |z1[c]| ==> -1.0 <= z1[c][i] <= 1.0
    requires forall c, i :: 0 <= c < |z2| && 0 <= i < |z2[c]| ==> -1.0 <= z2[c][i] <= 1.0
    ensures var chans := [z1[0], z1[1], z2[0], z2[1]];
            forall i, j :: 0 <= i < 4 && 0 <= j < |chans[i]| ==> -1.0 <= chans[i][j] <= 1.0
  {
    var chans := [z1[0], z1[1], z2[0], z2[1]];
    forall i, j | 0 <= i < 4 && 0 <= j < |chans[i]|
      ensures -1.0 <= chans[i][j] <= 1.0
    {
      if i < 2 {
        assert chans[i] == z1[i];
      } else {
        assert chans[i] == z2[i - 2];
      }
    }
  }

  /** Every loaded sample lies in [-1, 1]. */
  lemma LoadedSamplesInUnitRange(lib: Library, first: Recording, second: Recording, target: int)
    requires Lawful(lib) && WellFormed(first) && WellFormed(second) && target > 0
    requires CommonLength(first, second, target) > 0 && |first.columns| >= 2 && |second.columns| >= 2
    ensures var chans := LoadAndPrep(lib, first, second, target).value.channels;
            forall i, j :: 0 <= i < |chans| && 0 <= j < |chans[i]| ==> -1.0 <= chans[i][j] <= 1.0
  {
    LoadedChannels(lib, first, second, target);
    var n := CommonLength(first, second, target);
    var t1 := Prefix(lib, first, target, n);
    var t2 := Prefix(lib, second, target, n);
    NormalizeGuardedBounds(t1);
    NormalizeGuardedBounds(t2);
    SplitChannelsBounded(Stage(lib, first, target, n), Stage(lib, second, target, n));
  }
}
