/** The edge threshold and edge weighting inside the loop of `recon_ggr`
    (utils.py:173-178): `tau` is read from the sorted gradient magnitudes
    at position `int(N * tau_percent)`, and every gradient value `g` is
    replaced by `g / (1 + (tau / g) ** 4)`. Values are exact reals. */
module Edges {
  import opened Common

  /** Ascending order. */
  predicate Sorted(s: seq<real>) {
    forall i, j :: 0 <= i < j < |s| ==> s[i] <= s[j]
  }

  /** Inserts `x` before the first larger-or-equal entry. */
  function Insert(x: real, s: seq<real>): (r: seq<real>)
    ensures |r| == |s| + 1
    ensures multiset(r) == multiset(s) + multiset{x}
  {
    if s == [] || x <= s[0] then [x] + s
    else
      assert s == [s[0]] + s[1..];
      [s[0]] + Insert(x, s[1..])
  }

  /** The first entry after an insertion is `x` or the old first entry. */
  lemma InsertHead(x: real, s: seq<real>)
    ensures Insert(x, s)[0] == x || (s != [] && Insert(x, s)[0] == s[0])
  {
  }

  /** A sorted sequence stays sorted under a head no larger than its own. */
  lemma ConsSorted(a: real, t: seq<real>)
    requires Sorted(t) && (t != [] ==> a <= t[0])
    ensures Sorted([a] + t)
  {
    var r := [a] + t;
    forall i, j | 0 <= i < j < |r|
      ensures r[i] <= r[j]
    {
      if i == 0 {
        assert r[j] == t[j - 1];
        assert t[0] <= t[j - 1];
      } else {
        assert r[i] == t[i - 1] && r[j] == t[j - 1];
      }
    }
  }

  lemma {:induction false} InsertSorted(x: real, s: seq<real>)
    requires Sorted(s)
    ensures Sorted(Insert(x, s))
  {
    if s == [] || x <= s[0] {
      ConsSorted(x, s);
    } else {
      var tail := s[1..];
      assert Sorted(tail) by {
        forall i, j | 0 <= i < j < |tail| ensures tail[i] <= tail[j] {
          assert tail[i] == s[i + 1] && tail[j] == s[j + 1];
        }
      }
      InsertSorted(x, tail);
      InsertHead(x, tail);
      if tail != [] {
        assert tail[0] == s[1];
      }
      ConsSorted(s[0], Insert(x, tail));
    }
  }

  /** `np.sort` of one row: ascending, insertion by insertion. */
  function Sort(s: seq<real>): (r: seq<real>)
    ensures |r| == |s|
    ensures multiset(r) == multiset(s)
  {
    if s == [] then []
    else
      assert s == [s[0]] + s[1..];
      Insert(s[0], Sort(s[1..]))
  }

  lemma {:induction false} SortSorted(s: seq<real>)
    ensures Sorted(Sort(s))
  {
    if s != [] {
      SortSorted(s[1..]);
      InsertSorted(s[0], Sort(s[1..]));
    }
  }

  function AbsReal(x: real): real {
    if x < 0.0 then -x else x
  }

  /** `np.abs`, entry by entry. */
  function AbsAll(s: seq<real>): (r: seq<real>)
    ensures |r| == |s| && forall k :: 0 <= k < |s| ==> r[k] == AbsReal(s[k])
  {
    seq(|s|, k requires 0 <= k < |s| => AbsReal(s[k]))
  }

  /** `.flatten()` of an array given as its rows along the last axis. */
  function Flatten(rows: seq<seq<real>>): (r: seq<real>)
  {
    if rows == [] then [] else rows[0] + Flatten(rows[1..])
  }

  /** `np.sort(np.abs(g))`: every row along the last axis is sorted on
      its own. */
  function SortRows(rows: seq<seq<real>>): (r: seq<seq<real>>)
    ensures |r| == |rows|
    ensures forall k :: 0 <= k < |rows| ==> r[k] == Sort(AbsAll(rows[k]))
  {
    seq(|rows|, k requires 0 <= k < |rows| => Sort(AbsAll(rows[k])))
  }

  /** `int(x)`: truncation toward zero. */
  function Trunc(x: real): int {
    if x >= 0.0 then x.Floor else -((-x).Floor)
  }

  /** `int(sg.size * tau_percent)`. */
  function TauIndex(n: nat, tauPercent: real): int {
    Trunc((n as real) * tauPercent)
  }

  /** For `0 <= tau_percent < 1` and a non-empty array the index is a
      valid position. */
  lemma TauIndexInRange(n: nat, tauPercent: real)
    requires n >= 1 && 0.0 <= tauPercent < 1.0
    ensures 0 <= TauIndex(n, tauPercent) < n
  {
    var x := (n as real) * tauPercent;
    MulNonNegative(n as real, tauPercent);
    MulPositive(n as real, 1.0 - tauPercent);
    assert (n as real) - x == (n as real) * (1.0 - tauPercent);
  }

  lemma MulNonNegative(a: real, b: real)
    requires a >= 0.0 && b >= 0.0
    ensures a * b >= 0.0
  {
  }

  lemma MulPositive(a: real, b: real)
    requires a > 0.0 && b > 0.0
    ensures a * b > 0.0
  {
  }

  /** Python indexing: negative indices count from the end; anything else
      out of range raises. */
  function PyIndex(s: seq<real>, i: int): (r: Option<real>)
    ensures r.Some? <==> -|s| <= i < |s|
  {
    if 0 <= i < |s| then Some(s[i])
    else if -|s| <= i < 0 then Some(s[|s| + i])
    else None
  }

  /** utils.py:175-176 as written: the rows are sorted one by one and then
      flattened, so `tau` is an entry of one row, ranked only within it. */
  function TauAsWritten(rows: seq<seq<real>>, tauPercent: real): Option<real>
  {
    var sg := Flatten(SortRows(rows));
    PyIndex(sg, TauIndex(|sg|, tauPercent))
  }

  /** The evident intent: the `tau_percent` quantile of all gradient
      magnitudes, read from one global sort. */
  function Tau(rows: seq<seq<real>>, tauPercent: real): Option<real>
  {
    var sg := Sort(AbsAll(Flatten(rows)));
    PyIndex(sg, TauIndex(|sg|, tauPercent))
  }

  /** In a sorted sequence the entry at `idx` bounds everything before it
      from above and everything after it from below. */
  lemma SortedAround(s: seq<real>, idx: nat)
    requires Sorted(s) && idx < |s|
    ensures forall k :: 0 <= k <= idx ==> s[k] <= s[idx]
    ensures forall k :: idx <= k < |s| ==> s[idx] <= s[k]
    ensures multiset(s[..idx + 1]) <= multiset(s) && multiset(s[idx..]) <= multiset(s)
    ensures |s[..idx + 1]| == idx + 1 && |s[idx..]| == |s| - idx
  {
    assert s == s[..idx + 1] + s[idx + 1..];
    assert s == s[..idx] + s[idx..];
  }

  /** The corrected threshold is a quantile of the magnitudes: `idx + 1` of
      them (counted with multiplicity) are at most `tau`, and `N - idx` are
      at least `tau`. */
  lemma TauIsQuantile(rows: seq<seq<real>>, tauPercent: real)
    requires |Flatten(rows)| >= 1 && 0.0 <= tauPercent < 1.0
    ensures var mags := AbsAll(Flatten(rows)); var s := Sort(mags);
      var idx := TauIndex(|mags|, tauPercent);
      && 0 <= idx < |mags|
      && Tau(rows, tauPercent) == Some(s[idx])
      && multiset(s[..idx + 1]) <= multiset(mags) && (forall k :: 0 <= k <= idx ==> s[k] <= s[idx])
      && multiset(s[idx..]) <= multiset(mags) && (forall k :: idx <= k < |s| ==> s[idx] <= s[k])
  {
    var mags := AbsAll(Flatten(rows));
    var s := Sort(mags);
    TauIndexInRange(|mags|, tauPercent);
    SortSorted(mags);
    SortedAround(s, TauIndex(|mags|, tauPercent));
  }

  lemma {:induction false} FlattenOne(rows: seq<seq<real>>)
    requires |rows| == 1
    ensures Flatten(rows) == rows[0]
  {
    assert rows[1..] == [];
  }

  /** When the last axis is the only one (a single row) the two readings
      agree. */
  lemma SingleRowAgrees(rows: seq<seq<real>>, tauPercent: real)
    requires |rows| == 1
    ensures TauAsWritten(rows, tauPercent) == Tau(rows, tauPercent)
  {
    FlattenOne(rows);
    FlattenOne(SortRows(rows));
  }

  lemma SortSingle(x: real)
    ensures Sort([x]) == [x]
  {
    assert [x][1..] == [];
  }

  /** Two rows of two voxels each, `[3, 4]` and `[1, 2]`, at the default
      `tau_percent = 0.8`: the rows are already sorted, so index 3 of
      `[3, 4, 1, 2]` gives 2, while the 80 % quantile of the four
      magnitudes is 4. */
  lemma RowSortedTauDiffers()
    ensures TauAsWritten([[3.0, 4.0], [1.0, 2.0]], 0.8) == Some(2.0)
    ensures Tau([[3.0, 4.0], [1.0, 2.0]], 0.8) == Some(4.0)
  {
    AsWrittenOnExample();
    CorrectedOnExample();
  }

  lemma FlattenTwoRows(a: seq<real>, b: seq<real>)
    ensures Flatten([a, b]) == a + b
  {
    var rows: seq<seq<real>> := [a, b];
    assert rows[1..] == [b] && rows[1..][1..] == [];
    assert Flatten(rows[1..][1..]) == [];
    assert Flatten(rows[1..]) == b;
  }

  lemma AsWrittenOnExample()
    ensures TauAsWritten([[3.0, 4.0], [1.0, 2.0]], 0.8) == Some(2.0)
  {
    SortedRowsNoChange(3.0, 4.0, 1.0, 2.0);
    FlattenTwoRows([3.0, 4.0], [1.0, 2.0]);
    assert [3.0, 4.0] + [1.0, 2.0] == [3.0, 4.0, 1.0, 2.0];
    assert TauIndex(4, 0.8) == 3;
  }

  /** Sorting rows that are already ascending and non-negative changes
      nothing. */
  lemma SortedRowsNoChange(a: real, b: real, c: real, d: real)
    requires 0.0 <= a <= b && 0.0 <= c <= d
    ensures SortRows([[a, b], [c, d]]) == [[a, b], [c, d]]
  {
    AbsPair(a, b);
    AbsPair(c, d);
    SortTwoSorted(a, b);
    SortTwoSorted(c, d);
  }

  lemma CorrectedOnExample()
    ensures Tau([[3.0, 4.0], [1.0, 2.0]], 0.8) == Some(4.0)
  {
    var rows: seq<seq<real>> := [[3.0, 4.0], [1.0, 2.0]];
    FlattenTwoRows([3.0, 4.0], [1.0, 2.0]);
    var mags: seq<real> := [3.0, 4.0, 1.0, 2.0];
    assert Flatten(rows) == mags;
    assert mags[1] == 4.0;
    assert TauIndex(4, 0.8) == 3;
    TauAtLargest(rows, 0.8, 4.0);
  }

  /** When `tau`'s index is the last position, `tau` is the largest
      magnitude. */
  lemma TauAtLargest(rows: seq<seq<real>>, tauPercent: real, m: real)
    requires |Flatten(rows)| >= 1
    requires TauIndex(|Flatten(rows)|, tauPercent) == |Flatten(rows)| - 1
    requires m in Flatten(rows) && m >= 0.0
    requires forall k :: 0 <= k < |Flatten(rows)| ==> AbsReal(Flatten(rows)[k]) <= m
    ensures Tau(rows, tauPercent) == Some(m)
  {
    var mags := AbsAll(Flatten(rows));
    var s := Sort(mags);
    var last := |s| - 1;
    SortSorted(mags);
    assert s[last] in multiset(mags);
    assert s[last] <= m;
    var j :| 0 <= j < |Flatten(rows)| && Flatten(rows)[j] == m;
    assert mags[j] == m;
    assert m in multiset(s);
    var k :| 0 <= k < |s| && s[k] == m;
    assert s[k] <= s[last];
  }

  lemma AbsPair(x: real, y: real)
    requires x >= 0.0 && y >= 0.0
    ensures AbsAll([x, y]) == [x, y]
  {
  }

  lemma SortTwoSorted(x: real, y: real)
    requires x <= y
    ensures Sort([x, y]) == [x, y]
  {
    assert [x, y][1..] == [y];
    SortSingle(y);
  }

  /** The edge-weighted gradient value `g / (1 + (tau / g) ** 4)`. In
      exact arithmetic it is undefined at `g = 0`; with IEEE floats `tau / 0`
      is infinite, so the value is 0 for `tau > 0`, and NaN (here `None`)
      for `tau = 0`. */
  function EdgeWeight(g: real, tau: real): (r: Option<real>)
    requires tau >= 0.0
    ensures g == 0.0 ==> (r == None <==> tau == 0.0)
    ensures g == 0.0 && tau > 0.0 ==> r == Some(0.0)
    ensures g != 0.0 ==> r.Some?
  {
    if g == 0.0 then (if tau > 0.0 then Some(0.0) else None)
    else
      var q := tau / g;
      var den := 1.0 + q * q * q * q;
      FourthPowerNonNegative(q);
      Some(g / den)
  }

  lemma FourthPowerNonNegative(q: real)
    ensures q * q * q * q >= 0.0
    ensures q != 0.0 ==> q * q * q * q > 0.0
  {
    var s := q * q;
    assert s >= 0.0;
    assert q * q * q * q == s * s;
  }

  /** Scaling by a factor of at least one. */
  lemma DivideByAtLeastOne(g: real, den: real)
    requires den >= 1.0
    ensures var r := g / den;
      && (r > 0.0 <==> g > 0.0) && (r < 0.0 <==> g < 0.0)
      && AbsReal(r) <= AbsReal(g)
      && (g != 0.0 ==> (r == g <==> den == 1.0))
  {
    var r := g / den;
    assert r * den == g;
    if g > 0.0 {
      assert r > 0.0;
      assert g - r == r * (den - 1.0);
      assert r * (den - 1.0) >= 0.0;
    } else if g < 0.0 {
      assert r < 0.0;
      assert r - g == (-r) * (den - 1.0);
      assert (-r) * (den - 1.0) >= 0.0;
    }
    if g != 0.0 && r == g {
      assert g * den == g * 1.0;
      assert g * (den - 1.0) == 0.0;
    }
  }

  /** For a nonzero gradient the weighted value keeps its sign, never
      grows in magnitude, and equals the gradient exactly when `tau = 0`:
      the weighting only ever damps. */
  lemma EdgeWeightDamps(g: real, tau: real)
    requires tau >= 0.0 && g != 0.0
    ensures var r := EdgeWeight(g, tau).value;
      && (r > 0.0 <==> g > 0.0)
      && AbsReal(r) <= AbsReal(g)
      && (r == g <==> tau == 0.0)
  {
    var q := tau / g;
    FourthPowerNonNegative(q);
    var den := 1.0 + q * q * q * q;
    DivideByAtLeastOne(g, den);
    if tau > 0.0 {
      assert q != 0.0 by {
        assert q * g == tau;
      }
    }
  }
}
