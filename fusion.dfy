/** Mean fusion, step 4 of preprocessing (preprocess.py:229-238): the
    resampled first image is added to every registered view in place, an
    occupancy count records how many views are nonzero at each voxel, and
    the sum is divided by the count. Volumes are flattened to one index;
    voxel values are exact reals. */
module Fusion {

  /** Every view has a value at voxel `i`. */
  predicate HasVoxel(views: seq<seq<real>>, i: nat) {
    forall j :: 0 <= j < |views| ==> i < |views[j]|
  }

  /** The sum of the views' values at voxel `i`. */
  function SumAt(views: seq<seq<real>>, i: nat): real
    requires HasVoxel(views, i)
  {
    if |views| == 0 then 0.0 else SumAt(views[..|views| - 1], i) + views[|views| - 1][i]
  }

  /** How many views are nonzero at voxel `i`. */
  function NonZeroAt(views: seq<seq<real>>, i: nat): nat
    requires HasVoxel(views, i)
  {
    if |views| == 0 then 0 else NonZeroAt(views[..|views| - 1], i) + (if views[|views| - 1][i] != 0.0 then 1 else 0)
  }

  /** `z += a; L += (a != 0)` for one view. */
  method AddView(z: array<real>, occupancy: array<real>, a: seq<real>)
    requires z != occupancy && z.Length == occupancy.Length == |a|
    modifies z, occupancy
    ensures forall i :: 0 <= i < z.Length ==> z[i] == old(z[i]) + a[i]
    ensures forall i :: 0 <= i < z.Length ==>
      occupancy[i] == old(occupancy[i]) + (if a[i] != 0.0 then 1.0 else 0.0)
  {
    for i := 0 to z.Length
      invariant forall k :: 0 <= k < i ==> z[k] == old(z[k]) + a[k]
      invariant forall k :: i <= k < z.Length ==> z[k] == old(z[k])
      invariant forall k :: 0 <= k < i ==>
        occupancy[k] == old(occupancy[k]) + (if a[k] != 0.0 then 1.0 else 0.0)
      invariant forall k :: i <= k < z.Length ==> occupancy[k] == old(occupancy[k])
    {
      z[i] := z[i] + a[i];
      occupancy[i] := occupancy[i] + (if a[i] != 0.0 then 1.0 else 0.0);
    }
  }

  /** Step 4: `z` holds the reference on entry and the fused volume on
      exit; the returned occupancy is one plus the number of nonzero views
      at each voxel, so it is never zero and every voxel is divided. */
  method MeanFuse(z: array<real>, views: seq<seq<real>>) returns (occupancy: array<real>)
    requires forall j :: 0 <= j < |views| ==> |views[j]| == z.Length
    modifies z
    ensures fresh(occupancy) && occupancy.Length == z.Length
    ensures forall i :: 0 <= i < z.Length ==> HasVoxel(views, i)
    ensures forall i :: 0 <= i < z.Length ==>
      occupancy[i] == 1.0 + NonZeroAt(views, i) as real && occupancy[i] >= 1.0
    ensures forall i :: 0 <= i < z.Length ==>
      z[i] == (old(z[i]) + SumAt(views, i)) / occupancy[i]
  {
    occupancy := new real[z.Length](_ => 1.0);
    ghost var ref := z[..];
    for ii := 0 to |views|
      invariant forall i :: 0 <= i < z.Length ==> HasVoxel(views[..ii], i)
      invariant forall i :: 0 <= i < z.Length ==> z[i] == ref[i] + SumAt(views[..ii], i)
      invariant forall i :: 0 <= i < z.Length ==> occupancy[i] == 1.0 + NonZeroAt(views[..ii], i) as real
    {
      assert views[..ii + 1][..ii] == views[..ii];
      AddView(z, occupancy, views[ii]);
    }
    assert views[..|views|] == views;
    DivideOccupied(z, occupancy);
  }

  /** `z[L != 0] = z[L != 0] / L[L != 0]`. */
  method DivideOccupied(z: array<real>, occupancy: array<real>)
    requires z != occupancy && z.Length == occupancy.Length
    modifies z
    ensures forall i :: 0 <= i < z.Length && occupancy[i] != 0.0 ==> z[i] == old(z[i]) / occupancy[i]
    ensures forall i :: 0 <= i < z.Length && occupancy[i] == 0.0 ==> z[i] == old(z[i])
  {
    for i := 0 to z.Length
      invariant forall k :: 0 <= k < i && occupancy[k] != 0.0 ==> z[k] == old(z[k]) / occupancy[k]
      invariant forall k :: 0 <= k < i && occupancy[k] == 0.0 ==> z[k] == old(z[k])
      invariant forall k :: i <= k < z.Length ==> z[k] == old(z[k])
    {
      if occupancy[i] != 0.0 {
        z[i] := z[i] / occupancy[i];
      }
    }
  }

  /** The values the mean is taken over at voxel `i`: those of the views
      that are nonzero there. */
  function NonZeroValues(views: seq<seq<real>>, i: nat): (r: seq<real>)
    requires HasVoxel(views, i)
    ensures forall k :: 0 <= k < |r| ==> r[k] != 0.0
  {
    if |views| == 0 then []
    else NonZeroValues(views[..|views| - 1], i) + (if views[|views| - 1][i] != 0.0 then [views[|views| - 1][i]] else [])
  }

  function Sum(s: seq<real>): real {
    if s == [] then 0.0 else Sum(s[..|s| - 1]) + s[|s| - 1]
  }

  lemma {:induction false} SumAppendOne(s: seq<real>, x: real)
    ensures Sum(s + [x]) == Sum(s) + x
  {
    assert (s + [x])[..|s|] == s;
  }

  /** Zero views add nothing to the sum, so the sum over all views is the
      sum over the nonzero ones, and the count is their number. */
  lemma {:induction false} NonZeroValuesSum(views: seq<seq<real>>, i: nat)
    requires HasVoxel(views, i)
    ensures |NonZeroValues(views, i)| == NonZeroAt(views, i)
    ensures Sum(NonZeroValues(views, i)) == SumAt(views, i)
  {
    if |views| > 0 {
      var init := views[..|views| - 1];
      NonZeroValuesSum(init, i);
      var x := views[|views| - 1][i];
      if x != 0.0 {
        SumAppendOne(NonZeroValues(init, i), x);
      } else {
        assert NonZeroValues(views, i) == NonZeroValues(init, i) + [];
        assert NonZeroValues(init, i) + [] == NonZeroValues(init, i);
      }
    }
  }

  /** The fused voxel is the mean of the reference value and the values of
      the nonzero views: a view that is empty at a voxel (outside its field
      of view after registration) does not pull the mean towards zero, but
      the reference is always counted. */
  lemma FusedIsMean(ref: real, views: seq<seq<real>>, i: nat)
    requires HasVoxel(views, i)
    ensures var vals := [ref] + NonZeroValues(views, i);
      (ref + SumAt(views, i)) / (1.0 + NonZeroAt(views, i) as real) == Sum(vals) / (|vals| as real)
  {
    NonZeroValuesSum(views, i);
    SumPrepend(ref, NonZeroValues(views, i));
  }

  lemma {:induction false} SumPrepend(x: real, s: seq<real>)
    ensures Sum([x] + s) == x + Sum(s)
    decreases |s|
  {
    if s == [] {
      assert [x] + s == [x];
      assert [x][..0] == [];
    } else {
      var init := s[..|s| - 1];
      SumPrepend(x, init);
      assert ([x] + s)[..|s|] == [x] + init;
    }
  }

  /** Where every view agrees with a nonzero reference value, fusion
      returns that value. */
  lemma {:induction false} AgreeingViewsKeepValue(v: real, views: seq<seq<real>>, i: nat)
    requires HasVoxel(views, i) && v != 0.0
    requires forall j :: 0 <= j < |views| ==> views[j][i] == v
    ensures SumAt(views, i) == (|views| as real) * v
    ensures NonZeroAt(views, i) == |views|
    ensures (v + SumAt(views, i)) / (1.0 + NonZeroAt(views, i) as real) == v
  {
    if |views| > 0 {
      AgreeingViewsKeepValue(v, views[..|views| - 1], i);
    }
    var n := |views| as real;
    assert v + n * v == (1.0 + n) * v;
  }
}
