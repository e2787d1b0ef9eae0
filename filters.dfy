/** The skeleton of the deconvolution filters of preprocessing, step 3
    (preprocess.py:194-224): which axis of a view gets a window, and the
    pass-band mask along it. The Gaussian window and its spectrum are left
    abstract: a windowed filter records the axis, the resolution factor
    (which fixes the Gaussian's width) and the mask. */
module Filters {
  import opened Common
  import opened Grid

  /** preprocess.py:213-218 along the window's axis: `lr // 2` ones, then
      `sz - lr` zeros, then `lr // 2` ones. numpy refuses the zeros block
      when `sz - lr` is negative. */
  function Mask(lr: nat, sz: int): (r: Result<seq<int>>)
    ensures r.Fail? <==> lr > sz
    ensures r.Fail? ==> r.error == NegativeDimension
  {
    if sz - lr < 0 then Fail(NegativeDimension)
    else Ok(Fill(lr / 2, 1) + Fill(sz - lr, 0) + Fill(lr / 2, 1))
  }

  /** For an even mapped size that fits the grid, the mask spans exactly
      the grid's length on that axis, keeps exactly `lr` frequencies, and
      those are the lowest `lr / 2` and the highest `lr / 2` (the
      unshifted FFT layout of a centred band). */
  lemma {:induction false} MaskLayout(lr: nat, sz: int)
    requires IsEven(lr) && lr <= sz
    ensures Mask(lr, sz).Ok?
    ensures |Mask(lr, sz).value| == sz
    ensures CountOnes(Mask(lr, sz).value) == lr
    ensures forall i :: 0 <= i < sz ==>
      (Mask(lr, sz).value[i] == 1 <==> i < lr / 2 || sz - lr / 2 <= i)
    ensures forall i :: 0 <= i < sz ==> Mask(lr, sz).value[i] == 0 || Mask(lr, sz).value[i] == 1
  {
    var h := lr / 2;
    var ones := Fill(h, 1);
    var zeros := Fill(sz - lr, 0);
    var m := ones + zeros + ones;
    assert Mask(lr, sz).value == m;
    CountOnesAppend(ones + zeros, ones);
    CountOnesAppend(ones, zeros);
    CountOnesFill(h, 1);
    CountOnesFill(sz - lr, 0);
    assert forall i :: 0 <= i < sz ==> m[i] == (if i < h || sz - h <= i then 1 else 0);
  }

  /** A view's filter: the scalar 1, or a window along one axis. */
  datatype Filter =
    | PassThrough
    | Windowed(axis: nat, factor: real, mask: seq<int>)

  /** Axis `k` takes part: the view is coarser than the grid there. */
  predicate Qualifies(factor: seq<real>, k: nat)
    requires |factor| == 3 && k < 3
  {
    factor[k] > 1.0
  }

  /** The axis the strict `max_factor < factor` update ends on: it
      qualifies, no qualifying axis has a larger factor, and every
      qualifying axis before it has a smaller one. */
  predicate IsSelectedAxis(factor: seq<real>, k: nat)
    requires |factor| == 3
  {
    && k < 3 && Qualifies(factor, k)
    && (forall j :: 0 <= j < 3 && Qualifies(factor, j) ==> factor[j] <= factor[k])
    && (forall j :: 0 <= j < k && Qualifies(factor, j) ==> factor[j] < factor[k])
  }

  /** At most one axis is selected: ties go to the first. */
  lemma SelectedAxisUnique(factor: seq<real>, k1: nat, k2: nat)
    requires |factor| == 3
    requires IsSelectedAxis(factor, k1) && IsSelectedAxis(factor, k2)
    ensures k1 == k2
  {
  }

  /** Every qualifying axis builds its mask before the comparison, so a
      qualifying axis whose mapped size exceeds the grid stops the run even
      when it is not the one selected. */
  predicate AnyMaskFails(factor: seq<real>, lr: seq<nat>, sz: seq<int>)
    requires |factor| == 3 && |lr| == 3 && |sz| == 3
  {
    exists k :: 0 <= k < 3 && Qualifies(factor, k) && lr[k] > sz[k]
  }

  /** What step 3 produces for one view, given its factors, its mapped
      sizes and the grid size (preprocess.py:195-222). */
  predicate IsFilterFor(factor: seq<real>, lr: seq<nat>, sz: seq<int>, r: Result<Filter>)
    requires |factor| == 3 && |lr| == 3 && |sz| == 3
  {
    if AnyMaskFails(factor, lr, sz) then r == Fail(NegativeDimension)
    else if forall k :: 0 <= k < 3 ==> !Qualifies(factor, k) then r == Ok(PassThrough)
    else
      && r.Ok? && r.value.Windowed?
      && IsSelectedAxis(factor, r.value.axis)
      && r.value.factor == factor[r.value.axis]
      && Mask(lr[r.value.axis], sz[r.value.axis]) == Ok(r.value.mask)
  }

  /** The specification fixes the filter. */
  lemma FilterUnique(factor: seq<real>, lr: seq<nat>, sz: seq<int>, r1: Result<Filter>, r2: Result<Filter>)
    requires |factor| == 3 && |lr| == 3 && |sz| == 3
    requires IsFilterFor(factor, lr, sz, r1) && IsFilterFor(factor, lr, sz, r2)
    ensures r1 == r2
  {
    if !AnyMaskFails(factor, lr, sz) && exists k :: 0 <= k < 3 && Qualifies(factor, k) {
      SelectedAxisUnique(factor, r1.value.axis, r2.value.axis);
    }
  }

  /** The loop over the three axes of one view (preprocess.py:195-222):
      `fft_win` starts as the scalar 1 and `max_factor` as minus infinity
      (here `None`). */
  method SynthesizeFilter(factor: seq<real>, lr: seq<nat>, sz: seq<int>) returns (r: Result<Filter>)
    requires |factor| == 3 && |lr| == 3 && |sz| == 3
    ensures IsFilterFor(factor, lr, sz, r)
  {
    var win := PassThrough;
    var maxFactor: Option<real> := None;
    for jj := 0 to 3
      invariant forall k :: 0 <= k < jj ==> !(Qualifies(factor, k) && lr[k] > sz[k])
      invariant maxFactor.None? <==> win.PassThrough?
      invariant maxFactor.None? ==> forall k :: 0 <= k < jj ==> !Qualifies(factor, k)
      invariant win.Windowed? ==>
        && win.axis < jj && Qualifies(factor, win.axis)
        && maxFactor == Some(factor[win.axis]) && win.factor == factor[win.axis]
        && Mask(lr[win.axis], sz[win.axis]) == Ok(win.mask)
        && (forall k :: 0 <= k < jj && Qualifies(factor, k) ==> factor[k] <= factor[win.axis])
        && (forall k :: 0 <= k < win.axis && Qualifies(factor, k) ==> factor[k] < factor[win.axis])
    {
      if factor[jj] > 1.0 {
        var w := Mask(lr[jj], sz[jj]);
        if w.Fail? {
          assert AnyMaskFails(factor, lr, sz);
          return Fail(NegativeDimension);
        }
        if maxFactor.None? || maxFactor.value < factor[jj] {
          win := Windowed(jj, factor[jj], w.value);
          maxFactor := Some(factor[jj]);
        }
      }
    }
    r := Ok(win);
    if win.Windowed? {
      assert IsSelectedAxis(factor, win.axis);
    }
  }

  /** `lr_spacing[jj, ii] / spacing[jj]` for the three axes of a view. */
  function Factors(lrSpacing: seq<real>, spacing: seq<real>): (f: seq<real>)
    requires |lrSpacing| == 3 && |spacing| == 3
    requires forall k :: 0 <= k < 3 ==> spacing[k] > 0.0
    ensures |f| == 3
  {
    [lrSpacing[0] / spacing[0], lrSpacing[1] / spacing[1], lrSpacing[2] / spacing[2]]
  }

  /** Column `ii` of a `3 x n` table. */
  function ColumnOf<T>(a: array2<T>, ii: nat): (c: seq<T>)
    requires a.Length0 == 3 && ii < a.Length1
    reads a
    ensures |c| == 3 && forall k :: 0 <= k < 3 ==> c[k] == a[k, ii]
  {
    [a[0, ii], a[1, ii], a[2, ii]]
  }

  function SizesOf(lrSize: array2<int>, ii: nat): (c: seq<nat>)
    requires lrSize.Length0 == 3 && ii < lrSize.Length1
    requires forall k :: 0 <= k < 3 ==> lrSize[k, ii] >= 0
    reads lrSize
    ensures |c| == 3 && forall k :: 0 <= k < 3 ==> c[k] == lrSize[k, ii]
  {
    [lrSize[0, ii], lrSize[1, ii], lrSize[2, ii]]
  }

  /** Step 3 for every view, in order; the first view whose masks fail
      stops the run (preprocess.py:194-224). */
  method SynthesizeFilters(lrSize: array2<int>, lrSpacing: array2<real>, grid: Grid) returns (r: Result<seq<Filter>>)
    requires ValidGrid(grid)
    requires lrSize.Length0 == 3 && lrSpacing.Length0 == 3 && lrSize.Length1 == lrSpacing.Length1
    requires forall k, ii :: 0 <= k < 3 && 0 <= ii < lrSize.Length1 ==> lrSize[k, ii] >= 0
    ensures r.Ok? <==> forall ii :: 0 <= ii < lrSize.Length1 ==>
      !AnyMaskFails(Factors(ColumnOf(lrSpacing, ii), grid.spacing), SizesOf(lrSize, ii), grid.size)
    ensures r.Fail? ==> r.error == NegativeDimension
    ensures r.Ok? ==> |r.value| == lrSize.Length1 && forall ii :: 0 <= ii < lrSize.Length1 ==>
      IsFilterFor(Factors(ColumnOf(lrSpacing, ii), grid.spacing), SizesOf(lrSize, ii), grid.size, Ok(r.value[ii]))
  {
    var filters: seq<Filter> := [];
    for ii := 0 to lrSize.Length1
      invariant |filters| == ii
      invariant forall jj :: 0 <= jj < ii ==>
        IsFilterFor(Factors(ColumnOf(lrSpacing, jj), grid.spacing), SizesOf(lrSize, jj), grid.size, Ok(filters[jj]))
    {
      var f := SynthesizeFilter(Factors(ColumnOf(lrSpacing, ii), grid.spacing), SizesOf(lrSize, ii), grid.size);
      if f.Fail? {
        assert AnyMaskFails(Factors(ColumnOf(lrSpacing, ii), grid.spacing), SizesOf(lrSize, ii), grid.size);
        return Fail(NegativeDimension);
      }
      filters := filters + [f.value];
    }
    r := Ok(filters);
  }

  /** After the `[2, 1, 0]` transpose, a window built for grid axis `k`
      runs along numpy axis `2 - k` and has exactly the array's length
      there, so it lines up with the transformed volumes. */
  lemma WindowMatchesArrayShape(factor: seq<real>, lr: seq<nat>, sz: seq<int>, f: Filter)
    requires |factor| == 3 && |lr| == 3 && |sz| == 3
    requires forall k :: 0 <= k < 3 ==> IsEven(lr[k])
    requires IsFilterFor(factor, lr, sz, Ok(f)) && f.Windowed?
    ensures |f.mask| == ArrayShape(sz)[ArrayAxis(f.axis)]
    ensures CountOnes(f.mask) == lr[f.axis]
  {
    assert !AnyMaskFails(factor, lr, sz);
    assert lr[f.axis] <= sz[f.axis];
    MaskLayout(lr[f.axis], sz[f.axis]);
  }

  /** For the first view the factors are its spacings over the finest of
      them: it gets no window exactly when it is isotropic, and a window
      never runs along one of its finest axes. */
  lemma ReferenceFilter(ref: Geometry, lr: seq<nat>, sz: seq<int>, r: Result<Filter>)
    requires ValidGeometry(ref) && |lr| == 3 && |sz| == 3
    requires IsFilterFor(Factors(ref.spacing, IsoSpacing(ref.spacing)), lr, sz, r)
    ensures r == Ok(PassThrough) <==> forall k :: 0 <= k < 3 ==> ref.spacing[k] == MinSpacing(ref.spacing)
    ensures r.Ok? && r.value.Windowed? ==> ref.spacing[r.value.axis] > MinSpacing(ref.spacing)
  {
    var m := MinSpacing(ref.spacing);
    var factor := Factors(ref.spacing, IsoSpacing(ref.spacing));
    forall k | 0 <= k < 3
      ensures Qualifies(factor, k) <==> ref.spacing[k] > m
    {
      RatioAboveOneIff(ref.spacing[k], m);
    }
  }

  lemma RatioAboveOneIff(a: real, b: real)
    requires b > 0.0
    ensures a / b > 1.0 <==> a > b
  {
    var x := a / b;
    assert x * b == a;
    ScaleCompare(x, b);
    assert x * b - b == (x - 1.0) * b;
  }

  /** On the grid computed from the first view (no explicit size), no
      view's mask can fail: the first view's sizes fit the grid it
      defines, and a later view is clamped to the grid on every axis where
      it is coarser. */
  lemma AutomaticGridNeverFails(views: seq<Geometry>, ii: nat)
    requires ii < |views| && ValidGeometry(views[0]) && ValidGeometry(views[ii])
    ensures var grid := CanonicalGrid(views[0], None);
      !AnyMaskFails(Factors(views[ii].spacing, grid.spacing), LrSizeOf(views, grid, ii), grid.size)
  {
    var grid := CanonicalGrid(views[0], None);
    var lr: seq<nat> := LrSizeOf(views, grid, ii);
    var factor := Factors(views[ii].spacing, grid.spacing);
    forall k | 0 <= k < 3 && Qualifies(factor, k)
      ensures lr[k] <= grid.size[k]
    {
      if ii == 0 {
        ReferenceLrSizeFitsIsoGrid(views[0]);
      } else {
        MappedLrSizeFitsGrid(views[ii], grid, k);
      }
    }
  }

  /** With an explicit size the first view is not clamped, so a size
      smaller than its extent on a coarse axis stops the run: a view of
      10 x 10 x 10 samples at 1 x 1 x 3 mm with `-s 10 10 4`. */
  lemma ExplicitGridCanFail()
    ensures var ref := Geometry([10, 10, 10], [1.0, 1.0, 3.0]);
      var grid := CanonicalGrid(ref, Some([10, 10, 4]));
      AnyMaskFails(Factors(ref.spacing, grid.spacing), LrSizeOf([ref], grid, 0), grid.size)
  {
    var ref := Geometry([10, 10, 10], [1.0, 1.0, 3.0]);
    var grid := CanonicalGrid(ref, Some([10, 10, 4]));
    assert grid.size == [10, 10, 4];
    assert grid.spacing == [1.0, 1.0, 1.0];
    assert LrSizeOf([ref], grid, 0)[2] == 10;
    assert Qualifies(Factors(ref.spacing, grid.spacing), 2);
  }
}
