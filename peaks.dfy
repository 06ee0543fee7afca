/** Peak magnitudes and the two peak normalisations of the pipeline: the
    guarded one applied to each stereo source while loading (dsp.py:32-33),
    and the unguarded one applied to the composite and to every recovered
    channel (dsp.py:171, dsp.py:219). */
module Peaks {

  function Abs(x: real): real {
    if x < 0.0 then -x else x
  }

  function Max(a: real, b: real): real {
    if a < b then b else a
  }

  /** `np.max(np.abs(s))` for a one-dimensional buffer: an upper bound of
      every magnitude that one of the samples reaches. */
  function Peak(s: seq<real>): (p: real)
    requires |s| > 0
    ensures forall i :: 0 <= i < |s| ==> Abs(s[i]) <= p
    ensures exists i :: 0 <= i < |s| && Abs(s[i]) == p
  {
    if |s| == 1 then Abs(s[0])
    else
      var rest := Peak(s[1..]);
      assert forall i :: 1 <= i < |s| ==> s[i] == s[1..][i - 1];
      Max(Abs(s[0]), rest)
  }

  /** Every sample is zero. */
  predicate Silent(s: seq<real>) {
    forall i :: 0 <= i < |s| ==> s[i] == 0.0
  }

  /** Sample-by-sample division by a positive gain. */
  function Scale(s: seq<real>, g: real): (r: seq<real>)
    requires g > 0.0
    ensures |r| == |s|
    ensures forall i :: 0 <= i < |s| ==> r[i] * g == s[i]
  {
    seq(|s|, i requires 0 <= i < |s| => s[i] / g)
  }

  lemma AbsOfQuotient(x: real, g: real)
    requires g > 0.0
    ensures Abs(x / g) == Abs(x) / g
  {
  }

  lemma QuotientMonotone(a: real, b: real, g: real)
    requires g > 0.0 && a <= b
    ensures a / g <= b / g
  {
    assert b / g - a / g == (b - a) / g;
  }

  /** Dividing by a positive gain divides the peak by that gain. */
  lemma {:induction false} PeakOfScaled(s: seq<real>, g: real)
    requires |s| > 0 && g > 0.0
    ensures Peak(Scale(s, g)) == Peak(s) / g
  {
    var r := Scale(s, g);
    var p := Peak(s);
    forall i | 0 <= i < |s|
      ensures Abs(r[i]) <= p / g
    {
      assert r[i] == s[i] / g;
      AbsOfQuotient(s[i], g);
      QuotientMonotone(Abs(s[i]), p, g);
    }
    var w :| 0 <= w < |s| && Abs(s[w]) == p;
    assert r[w] == s[w] / g;
    AbsOfQuotient(s[w], g);
    var q := Peak(r);
    var v :| 0 <= v < |r| && Abs(r[v]) == q;
    assert q <= p / g;
    assert p / g <= q;
  }

  /** A buffer's peak is zero exactly when it is silent. */
  lemma PeakZeroIffSilent(s: seq<real>)
    requires |s| > 0
    ensures Peak(s) == 0.0 <==> Silent(s)
  {
    if Peak(s) == 0.0 {
      forall i | 0 <= i < |s| ensures s[i] == 0.0 {
        assert Abs(s[i]) <= 0.0;
      }
    }
  }

  /** A peak of one bounds every sample to [-1, 1]. */
  lemma UnitPeakBounds(s: seq<real>)
    requires |s| > 0 && Peak(s) == 1.0
    ensures forall i :: 0 <= i < |s| ==> -1.0 <= s[i] <= 1.0
  {
    forall i | 0 <= i < |s| ensures -1.0 <= s[i] <= 1.0 {
      assert Abs(s[i]) <= 1.0;
    }
  }

  lemma DivideBySelf(p: real)
    requires p > 0.0
    ensures p / p == 1.0
  {
  }

  /** Dividing a buffer with sound by its own peak leaves a peak of one. */
  lemma ScaledByOwnPeak(s: seq<real>)
    requires |s| > 0 && Peak(s) > 0.0
    ensures Peak(Scale(s, Peak(s))) == 1.0
    ensures forall i :: 0 <= i < |s| ==> -1.0 <= Scale(s, Peak(s))[i] <= 1.0
  {
    PeakOfScaled(s, Peak(s));
    DivideBySelf(Peak(s));
    UnitPeakBounds(Scale(s, Peak(s)));
  }

  /** The outcome of dividing a buffer by its own peak with no zero guard:
      a silent buffer gives 0/0 in every sample, which is NaN. */
  datatype Normalized = Scaled(samples: seq<real>) | NotANumber(length: nat) {

    function Length(): nat {
      match this
      case Scaled(s) => |s|
      case NotANumber(n) => n
    }
  }

  /** `s / np.max(np.abs(s))`, unguarded (dsp.py:171, dsp.py:219). */
  function DivideByPeak(s: seq<real>): (r: Normalized)
    requires |s| > 0
    ensures r.Length() == |s|
    ensures r.NotANumber? <==> Silent(s)
    ensures r.Scaled? ==> Peak(r.samples) == 1.0
    ensures r.Scaled? ==> forall i :: 0 <= i < |s| ==> -1.0 <= r.samples[i] <= 1.0
    ensures r.Scaled? ==> Peak(s) > 0.0 && r.samples == Scale(s, Peak(s))
  {
    var p := Peak(s);
    PeakZeroIffSilent(s);
    if p > 0.0 then
      ScaledByOwnPeak(s);
      Scaled(Scale(s, p))
    else
      NotANumber(|s|)
  }

  /** Every column is non-empty. */
  predicate HasSamples(cols: seq<seq<real>>) {
    |cols| > 0 && forall c :: 0 <= c < |cols| ==> |cols[c]| > 0
  }

  /** `np.max(np.abs(y))` for a two-dimensional buffer given by its columns:
      one peak over every sample of every column. */
  function JointPeak(cols: seq<seq<real>>): (p: real)
    requires HasSamples(cols)
    ensures forall c, i :: 0 <= c < |cols| && 0 <= i < |cols[c]| ==> Abs(cols[c][i]) <= p
    ensures exists c, i :: 0 <= c < |cols| && 0 <= i < |cols[c]| && Abs(cols[c][i]) == p
  {
    if |cols| == 1 then Peak(cols[0])
    else
      var rest := JointPeak(cols[1..]);
      assert forall c :: 1 <= c < |cols| ==> cols[c] == cols[1..][c - 1];
      Max(Peak(cols[0]), rest)
  }

  function ScaleColumns(cols: seq<seq<real>>, g: real): (r: seq<seq<real>>)
    requires g > 0.0
    ensures |r| == |cols|
    ensures forall c :: 0 <= c < |cols| ==> r[c] == Scale(cols[c], g)
  {
    seq(|cols|, c requires 0 <= c < |cols| => Scale(cols[c], g))
  }

  /** Dividing every column by one positive gain divides the joint peak by it. */
  lemma {:induction false} JointPeakOfScaled(cols: seq<seq<real>>, g: real)
    requires HasSamples(cols) && g > 0.0
    ensures JointPeak(ScaleColumns(cols, g)) == JointPeak(cols) / g
  {
    var r := ScaleColumns(cols, g);
    var p := JointPeak(cols);
    forall c, i | 0 <= c < |cols| && 0 <= i < |cols[c]|
      ensures Abs(r[c][i]) <= p / g
    {
      assert r[c][i] == cols[c][i] / g;
      AbsOfQuotient(cols[c][i], g);
      QuotientMonotone(Abs(cols[c][i]), p, g);
    }
    var wc, wi :| 0 <= wc < |cols| && 0 <= wi < |cols[wc]| && Abs(cols[wc][wi]) == p;
    assert r[wc][wi] == cols[wc][wi] / g;
    AbsOfQuotient(cols[wc][wi], g);
    var q := JointPeak(r);
    var vc, vi :| 0 <= vc < |r| && 0 <= vi < |r[vc]| && Abs(r[vc][vi]) == q;
    assert q <= p / g;
    assert p / g <= q;
  }

  lemma UnitJointPeakBounds(cols: seq<seq<real>>)
    requires HasSamples(cols) && JointPeak(cols) == 1.0
    ensures forall c, i :: 0 <= c < |cols| && 0 <= i < |cols[c]| ==> -1.0 <= cols[c][i] <= 1.0
  {
    forall c, i | 0 <= c < |cols| && 0 <= i < |cols[c]| ensures -1.0 <= cols[c][i] <= 1.0 {
      assert Abs(cols[c][i]) <= 1.0;
    }
  }

  lemma SilentColumnsBounds(cols: seq<seq<real>>)
    requires HasSamples(cols) && JointPeak(cols) <= 0.0
    ensures forall c, i :: 0 <= c < |cols| && 0 <= i < |cols[c]| ==> cols[c][i] == 0.0
  {
    forall c, i | 0 <= c < |cols| && 0 <= i < |cols[c]| ensures cols[c][i] == 0.0 {
      assert Abs(cols[c][i]) <= 0.0;
    }
  }

  /** `y / np.max(np.abs(y)) if np.max(np.abs(y)) > 0 else y` (dsp.py:32-33):
      a buffer with sound is divided by its joint peak; a silent buffer is
      returned as it is. */
  function NormalizeGuarded(cols: seq<seq<real>>): (r: seq<seq<real>>)
    requires HasSamples(cols)
    ensures |r| == |cols| && forall c :: 0 <= c < |cols| ==> |r[c]| == |cols[c]|
    ensures JointPeak(cols) == 0.0 ==> r == cols
    ensures JointPeak(cols) > 0.0 ==> r == ScaleColumns(cols, JointPeak(cols))
  {
    var p := JointPeak(cols);
    if p > 0.0 then ScaleColumns(cols, p) else cols
  }

  /** After the guarded normalisation the joint peak is exactly one, unless
      the buffer is silent, and every sample lies in [-1, 1]. */
  lemma NormalizeGuardedBounds(cols: seq<seq<real>>)
    requires HasSamples(cols)
    ensures JointPeak(cols) > 0.0 ==> JointPeak(NormalizeGuarded(cols)) == 1.0
    ensures JointPeak(cols) == 0.0 ==> JointPeak(NormalizeGuarded(cols)) == 0.0
    ensures var r := NormalizeGuarded(cols);
            forall c, i :: 0 <= c < |r| && 0 <= i < |r[c]| ==> -1.0 <= r[c][i] <= 1.0
  {
    var p := JointPeak(cols);
    if p > 0.0 {
      JointPeakOfScaled(cols, p);
      DivideBySelf(p);
      UnitJointPeakBounds(ScaleColumns(cols, p));
    } else {
      SilentColumnsBounds(cols);
    }
  }

  /** Normalising an already normalised buffer changes nothing. */
  lemma NormalizeGuardedIdempotent(cols: seq<seq<real>>)
    requires HasSamples(cols)
    ensures NormalizeGuarded(NormalizeGuarded(cols)) == NormalizeGuarded(cols)
  {
    var once := NormalizeGuarded(cols);
    var twice := NormalizeGuarded(once);
    NormalizeGuardedBounds(cols);
    if JointPeak(cols) > 0.0 {
      assert JointPeak(once) == 1.0;
      forall c | 0 <= c < |once|
        ensures twice[c] == once[c]
      {
        assert forall i :: 0 <= i < |once[c]| ==> twice[c][i] * 1.0 == once[c][i];
      }
    }
  }

  lemma ExampleJointPeak()
    ensures JointPeak([[2.0, -1.0], [1.0, 0.5]]) == 2.0
  {
    var left, right := [2.0, -1.0], [1.0, 0.5];
    assert left[1..] == [-1.0] && right[1..] == [0.5];
    assert Peak(left) == 2.0;
    assert Peak(right) == 1.0;
    assert [left, right][1..] == [right];
  }

  /** The peak is joint, so one channel of a normalised stereo buffer may
      stay below full scale: here the right channel peaks at one half. */
  lemma ChannelMayStayBelowFullScale()
    ensures NormalizeGuarded([[2.0, -1.0], [1.0, 0.5]]) == [[1.0, -0.5], [0.5, 0.25]]
  {
    ExampleJointPeak();
    assert Scale([2.0, -1.0], 2.0) == [1.0, -0.5];
    assert Scale([1.0, 0.5], 2.0) == [0.5, 0.25];
  }
}
