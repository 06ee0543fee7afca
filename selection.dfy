/** The channel order the user picks before the pipeline runs (app.py:35-49,
    app.py:61) and the file each recovered channel is saved to
    (app.py:167). Four select boxes each offer the channel numbers 1 to 4;
    the choice is accepted only when the four picks are distinct, and the
    loaded channels are then reordered by it. */
module Selection {

  /** `options` (app.py:35): the physical channels File1-L, File1-R,
      File2-L and File2-R, numbered from one. */
  const Options: seq<nat> := [1, 2, 3, 4]

  /** Box i preselects `options[i]` (app.py:37-43). */
  const DefaultOrder: seq<nat> := [Options[0], Options[1], Options[2], Options[3]]

  /** A value each of the four boxes can return. */
  predicate FromOptions(sel: seq<nat>) {
    |sel| == |Options| && forall i :: 0 <= i < |sel| ==> sel[i] in Options
  }

  predicate Distinct(s: seq<nat>) {
    forall i, j :: 0 <= i < j < |s| ==> s[i] != s[j]
  }

  function Values(s: seq<nat>): set<nat> {
    set x | x in s
  }

  /** `len(set(selected_order)) == 4` (app.py:47): the pipeline runs only
      when this holds. */
  predicate Accepted(sel: seq<nat>) {
    |Values(sel)| == 4
  }

  lemma ValuesOfSnoc(init: seq<nat>, last: nat)
    ensures Values(init + [last]) == Values(init) + {last}
  {
    var s := init + [last];
    forall x | x in Values(s) ensures x in Values(init) + {last} {
      var k :| 0 <= k < |s| && s[k] == x;
      if k < |init| {
        assert init[k] == x;
      }
    }
  }

  lemma DistinctSnoc(init: seq<nat>, last: nat)
    ensures Distinct(init + [last]) <==> Distinct(init) && last !in init
  {
    var s := init + [last];
    if last in init {
      var k :| 0 <= k < |init| && init[k] == last;
      assert s[k] == s[|init|];
    }
    if Distinct(s) {
      forall i, j | 0 <= i < j < |init| ensures init[i] != init[j] {
        assert init[i] == s[i] && init[j] == s[j];
      }
    }
  }

  /** A sequence has at most as many distinct values as elements, and as
      many exactly when no value repeats. */
  lemma {:induction false} ValuesCount(s: seq<nat>)
    ensures |Values(s)| <= |s|
    ensures |Values(s)| == |s| <==> Distinct(s)
  {
    if |s| > 0 {
      var init := s[..|s| - 1];
      var last := s[|s| - 1];
      ValuesCount(init);
      assert s == init + [last];
      ValuesOfSnoc(init, last);
      DistinctSnoc(init, last);
      if last !in Values(init) {
        assert |Values(s)| == |Values(init)| + 1;
      }
    }
  }

  /** The check of app.py:47 accepts a choice exactly when its four picks
      are pairwise distinct. */
  lemma AcceptedIffDistinct(sel: seq<nat>)
    requires FromOptions(sel)
    ensures Accepted(sel) <==> Distinct(sel)
  {
    ValuesCount(sel);
  }

  /** An accepted choice names every channel 1 to 4 exactly once. */
  lemma AcceptedNamesEveryChannel(sel: seq<nat>)
    requires FromOptions(sel) && Accepted(sel)
    ensures Distinct(sel)
    ensures forall v :: v in Options ==> v in sel
  {
    AcceptedIffDistinct(sel);
    forall v | v in Options ensures v in sel {
      if sel[0] != v && sel[1] != v && sel[2] != v {
        assert sel[3] == v;
      }
    }
  }

  /** The preselected order passes the check, and a repeated pick does
      not. */
  lemma DefaultOrderAccepted()
    ensures FromOptions(DefaultOrder) && Accepted(DefaultOrder)
    ensures !Accepted([1, 1, 3, 4])
  {
    AcceptedIffDistinct(DefaultOrder);
    var twice: seq<nat> := [1, 1, 3, 4];
    assert twice[0] == twice[1];
    AcceptedIffDistinct(twice);
  }

  /** `[raw_channels[i - 1] for i in selected_order]` (app.py:61). */
  function Reorder<T>(raw: seq<T>, sel: seq<nat>): (ordered: seq<T>)
    requires forall i :: 0 <= i < |sel| ==> 1 <= sel[i] <= |raw|
    ensures |ordered| == |sel|
    ensures forall i :: 0 <= i < |sel| ==> ordered[i] == raw[sel[i] - 1]
  {
    seq(|sel|, i requires 0 <= i < |sel| => raw[sel[i] - 1])
  }

  /** p lists every index below |p| exactly once. */
  predicate IsIndexPermutation(p: seq<nat>) {
    && (forall i :: 0 <= i < |p| ==> p[i] < |p|)
    && Distinct(p)
    && (forall v :: 0 <= v < |p| ==> v in p)
  }

  function Gather<T>(a: seq<T>, p: seq<nat>): (g: seq<T>)
    requires forall i :: 0 <= i < |p| ==> p[i] < |a|
    ensures |g| == |p|
  {
    seq(|p|, i requires 0 <= i < |p| => a[p[i]])
  }

  /** Taking out the entry that names the last index leaves a permutation
      of the indices below it. */
  lemma RemoveLastIndex(p: seq<nat>, k: nat)
    requires IsIndexPermutation(p) && k < |p| && p[k] == |p| - 1
    ensures IsIndexPermutation(p[..k] + p[k + 1..])
  {
    var n := |p|;
    var q := p[..k] + p[k + 1..];
    assert forall i :: 0 <= i < n - 1 ==> q[i] == (if i < k then p[i] else p[i + 1]);
    forall i | 0 <= i < n - 1 ensures q[i] < n - 1 {
      if i < k {
        assert p[i] != p[k];
      } else {
        assert p[i + 1] != p[k];
      }
    }
    forall i, j | 0 <= i < j < n - 1 ensures q[i] != q[j] {
      if j < k {
      } else if i < k {
        assert p[i] != p[j + 1];
      } else {
        assert p[i + 1] != p[j + 1];
      }
    }
    forall v | 0 <= v < n - 1 ensures v in q {
      assert v in p;
      var w :| 0 <= w < n && p[w] == v;
      if w < k {
        assert q[w] == v;
      } else {
        assert w != k;
        assert q[w - 1] == v;
      }
    }
  }

  /** Reading a sequence through a permutation of its indices yields a
      permutation of the sequence. */
  lemma {:induction false} GatherIsPermutation<T>(a: seq<T>, p: seq<nat>)
    requires |p| == |a| && IsIndexPermutation(p)
    ensures multiset(Gather(a, p)) == multiset(a)
    decreases |a|
  {
    var n := |a|;
    if n > 0 {
      assert n - 1 in p;
      var k :| 0 <= k < n && p[k] == n - 1;
      var q := p[..k] + p[k + 1..];
      var init := a[..n - 1];
      assert a == init + [a[n - 1]];
      RemoveLastIndex(p, k);
      GatherIsPermutation(init, q);
      var g := Gather(a, p);
      GatherSplit(a, p, k);
      SpliceMultiset(g[..k], a[n - 1], g[k + 1..]);
    }
  }

  lemma SpliceMultiset<T>(x: seq<T>, y: T, z: seq<T>)
    ensures multiset(x + [y] + z) == multiset(x + z) + multiset{y}
  {
  }

  /** Gathering through p is gathering through p without its entry k, with
      the element that entry names put back at position k. */
  lemma GatherSplit<T>(a: seq<T>, p: seq<nat>, k: nat)
    requires |p| == |a| && k < |p| && p[k] == |a| - 1
    requires forall i :: 0 <= i < |p| ==> p[i] < |p|
    requires forall i :: 0 <= i < |p| && i != k ==> p[i] < |p| - 1
    ensures var g := Gather(a, p);
            && g == g[..k] + [a[|a| - 1]] + g[k + 1..]
            && Gather(a[..|a| - 1], p[..k] + p[k + 1..]) == g[..k] + g[k + 1..]
  {
    var g := Gather(a, p);
    var q := p[..k] + p[k + 1..];
    assert g == g[..k] + [g[k]] + g[k + 1..];
    var h := Gather(a[..|a| - 1], q);
    forall i | 0 <= i < |h| ensures h[i] == (g[..k] + g[k + 1..])[i] {
      if i < k {
        assert q[i] == p[i];
      } else {
        assert q[i] == p[i + 1];
      }
    }
  }

  /** An accepted order sends every loaded channel to exactly one slot:
      the reordered channels are a permutation of the loaded ones. */
  lemma ReorderIsPermutation<T>(raw: seq<T>, sel: seq<nat>)
    requires |raw| == |Options| && FromOptions(sel) && Accepted(sel)
    ensures multiset(Reorder(raw, sel)) == multiset(raw)
  {
    AcceptedNamesEveryChannel(sel);
    var p := seq(|sel|, i requires 0 <= i < |sel| => sel[i] - 1);
    forall v | 0 <= v < |p| ensures v in p {
      assert v + 1 in Options;
      var i :| 0 <= i < |sel| && sel[i] == v + 1;
      assert p[i] == v;
    }
    GatherIsPermutation(raw, p);
    assert Reorder(raw, sel) == Gather(raw, p);
  }

  /** `str(n)` for a non-negative integer: its decimal digits, most
      significant first. */
  function Decimal(n: nat): (s: string)
    ensures |s| >= 1
    ensures |s| == 1 <==> n < 10
    ensures forall i :: 0 <= i < |s| ==> '0' <= s[i] <= '9'
  {
    if n < 10 then ["0123456789"[n]]
    else Decimal(n / 10) + ["0123456789"[n % 10]]
  }

  lemma DigitInjective(x: nat, y: nat)
    requires x < 10 && y < 10 && "0123456789"[x] == "0123456789"[y]
    ensures x == y
  {
  }

  /** Distinct numbers have distinct decimal renderings. */
  lemma {:induction false} DecimalInjective(a: nat, b: nat)
    requires Decimal(a) == Decimal(b)
    ensures a == b
  {
    var d := Decimal(a);
    if a >= 10 && b >= 10 {
      assert d == Decimal(a / 10) + ["0123456789"[a % 10]];
      assert d == Decimal(b / 10) + ["0123456789"[b % 10]];
      assert d[..|d| - 1] == Decimal(a / 10) && d[..|d| - 1] == Decimal(b / 10);
      DecimalInjective(a / 10, b / 10);
      DigitInjective(a % 10, b % 10);
    } else {
      DigitInjective(a, b);
    }
  }

  const OutputPrefix: string := "outputs/recovered_ch_"
  const OutputSuffix: string := ".wav"

  /** `f"outputs/recovered_ch_{selected_order[i]}.wav"` (app.py:167). */
  function OutputPath(channel: nat): (path: string)
    ensures |path| == |OutputPrefix| + |Decimal(channel)| + |OutputSuffix|
    ensures path[..|OutputPrefix|] == OutputPrefix
    ensures path[|path| - |OutputSuffix|..] == OutputSuffix
  {
    OutputPrefix + Decimal(channel) + OutputSuffix
  }

  /** Different channel numbers are saved under different paths. */
  lemma OutputPathInjective(a: nat, b: nat)
    requires OutputPath(a) == OutputPath(b)
    ensures a == b
  {
    var pa, pb := OutputPath(a), OutputPath(b);
    assert pa[|OutputPrefix|..|pa| - |OutputSuffix|] == Decimal(a);
    assert pb[|OutputPrefix|..|pb| - |OutputSuffix|] == Decimal(b);
    DecimalInjective(a, b);
  }

  /** Under an accepted order the four recovered channels are saved to four
      different files, none overwriting another. */
  lemma OutputPathsDistinct(sel: seq<nat>)
    requires FromOptions(sel) && Accepted(sel)
    ensures forall i, j :: 0 <= i < j < |sel| ==> OutputPath(sel[i]) != OutputPath(sel[j])
  {
    AcceptedIffDistinct(sel);
    forall i, j | 0 <= i < j < |sel| ensures OutputPath(sel[i]) != OutputPath(sel[j]) {
      if OutputPath(sel[i]) == OutputPath(sel[j]) {
        OutputPathInjective(sel[i], sel[j]);
      }
    }
  }
}
