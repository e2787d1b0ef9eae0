/** Grid-size arithmetic: the isotropic high-resolution grid of
    utils.py:47-64 and preprocess.py:107-114, the per-view "mapped
    low-resolution size" of preprocess.py:151-163, and the axis order of
    the arrays reconstruction allocates (recon.py:108-109). Spacings are
    exact reals; `floor` and `np.around` are exact on them. */
module Grid {
  import opened Common

  /** What SimpleITK reports of a volume: samples and spacing per axis,
      in (x, y, z) order. */
  datatype Geometry = Geometry(size: seq<int>, spacing: seq<real>)

  predicate ValidGeometry(g: Geometry) {
    && |g.size| == 3 && |g.spacing| == 3
    && (forall k :: 0 <= k < 3 ==> g.size[k] >= 0)
    && (forall k :: 0 <= k < 3 ==> g.spacing[k] > 0.0)
  }

  /** `min(spacing)`. */
  function MinSpacing(sp: seq<real>): (m: real)
    requires |sp| == 3
    ensures forall k :: 0 <= k < 3 ==> m <= sp[k]
    ensures m == sp[0] || m == sp[1] || m == sp[2]
  {
    if sp[0] <= sp[1] && sp[0] <= sp[2] then sp[0]
    else if sp[1] <= sp[2] then sp[1]
    else sp[2]
  }

  /** `np.array([min(spacing)] * 3)`. */
  function IsoSpacing(sp: seq<real>): (r: seq<real>)
    requires |sp| == 3
    ensures |r| == 3 && forall k :: 0 <= k < 3 ==> r[k] == MinSpacing(sp) && r[k] <= sp[k]
  {
    var m := MinSpacing(sp);
    [m, m, m]
  }

  /** `floor(spacing / new_spacing * sz)` on one axis (utils.py:52). */
  function ScaledExtent(g: Geometry, k: nat): int
    requires ValidGeometry(g) && k < 3
  {
    (g.spacing[k] / MinSpacing(g.spacing) * (g.size[k] as real)).Floor
  }

  lemma ScaledExtentBounds(g: Geometry, k: nat)
    requires ValidGeometry(g) && k < 3
    ensures g.size[k] <= ScaledExtent(g, k)
    ensures g.spacing[k] == MinSpacing(g.spacing) ==> ScaledExtent(g, k) == g.size[k]
  {
    var m := MinSpacing(g.spacing);
    var ratio := g.spacing[k] / m;
    var n := g.size[k] as real;
    DivAtLeastOne(g.spacing[k], m);
    assert ratio * n >= n by {
      assert (ratio - 1.0) * n >= 0.0;
    }
    if g.spacing[k] == m {
      assert ratio == 1.0;
    }
  }

  /** The size `resample_iso_img` chooses (utils.py:47-55): the scaled
      extent on every axis, made even. It is never more than the scaled
      extent and at most one less; it never loses more than the parity
      sample of the native size; on an axis with the finest spacing it is
      the native size made even. */
  function IsoSize(g: Geometry): (r: seq<int>)
    requires ValidGeometry(g)
    ensures |r| == 3
    ensures forall k :: 0 <= k < 3 ==>
      IsEven(r[k]) && 0 <= r[k] <= ScaledExtent(g, k) && ScaledExtent(g, k) - r[k] <= 1
    ensures forall k :: 0 <= k < 3 ==> DropToEven(g.size[k]) <= r[k]
    ensures forall k :: 0 <= k < 3 && g.spacing[k] == MinSpacing(g.spacing) ==>
      r[k] == DropToEven(g.size[k])
  {
    ScaledExtentBounds(g, 0);
    ScaledExtentBounds(g, 1);
    ScaledExtentBounds(g, 2);
    [DropToEven(ScaledExtent(g, 0)), DropToEven(ScaledExtent(g, 1)), DropToEven(ScaledExtent(g, 2))]
  }

  /** The size `resample_iso_img_with_size` uses (utils.py:57-64): each
      given length is kept when even and loses one when odd. */
  function ExplicitSize(sz: seq<int>): (r: seq<int>)
    ensures |r| == |sz|
    ensures forall k :: 0 <= k < |sz| ==> IsEven(r[k]) && r[k] <= sz[k] && sz[k] - r[k] <= 1
    ensures forall k :: 0 <= k < |sz| ==> (r[k] == sz[k] <==> IsEven(sz[k]))
  {
    seq(|sz|, k requires 0 <= k < |sz| => DropToEven(sz[k]))
  }

  /** The canonical grid all volumes are resampled onto. */
  datatype Grid = Grid(size: seq<int>, spacing: seq<real>)

  predicate ValidGrid(grid: Grid) {
    && |grid.size| == 3 && |grid.spacing| == 3
    && (forall k :: 0 <= k < 3 ==> grid.size[k] >= 0 && IsEven(grid.size[k]))
    && (forall k :: 0 <= k < 3 ==> grid.spacing[k] > 0.0)
  }

  /** preprocess.py:107-114: the grid of the resampled first image, with
      the computed size or the caller's size. Its spacing is the finest
      native spacing of that image on every axis and every length is even. */
  function CanonicalGrid(ref: Geometry, sz: Option<seq<int>>): (grid: Grid)
    requires ValidGeometry(ref)
    requires sz.Some? ==> |sz.value| == 3 && forall k :: 0 <= k < 3 ==> sz.value[k] > 0
    ensures ValidGrid(grid)
    ensures grid.spacing == IsoSpacing(ref.spacing)
    ensures sz.Some? ==> grid.size == ExplicitSize(sz.value)
    ensures sz.None? ==> grid.size == IsoSize(ref)
  {
    Grid(if sz.Some? then ExplicitSize(sz.value) else IsoSize(ref), IsoSpacing(ref.spacing))
  }

  /** `np.around` on an exact value: the nearest integer, ties to even. */
  function RoundHalfEven(x: real): (r: int)
    ensures x - 0.5 <= r as real <= x + 0.5
    ensures (r as real - x == 0.5 || x - r as real == 0.5) ==> IsEven(r)
  {
    var f := x.Floor;
    var d := x - f as real;
    if d < 0.5 then f
    else if d > 0.5 then f + 1
    else if IsEven(f) then f
    else f + 1
  }

  function Min(a: int, b: int): int {
    if a <= b then a else b
  }

  /** Scaling by a positive weight keeps the comparison with one. */
  lemma ScaleCompare(x: real, c: real)
    requires c > 0.0
    ensures x >= 1.0 ==> x * c >= c
    ensures x < 1.0 ==> x * c < c
  {
    assert x * c - c == (x - 1.0) * c;
  }

  lemma DivAtLeastOne(a: real, b: real)
    requires 0.0 < b <= a
    ensures a / b >= 1.0
  {
    var x := a / b;
    assert x * b == a;
    ScaleCompare(x, b);
    assert !(x < 1.0);
  }

  /** A view coarser than the grid by `factor > 1` takes the reciprocal
      fraction of the grid's samples. */
  lemma FactorAboveOne(lr: real, hr: real)
    requires lr > 0.0 && hr > 0.0
    requires lr / hr > 1.0
    ensures hr / lr < 1.0
  {
    var f := lr / hr;
    assert f * hr == lr;
    ScaleCompare(f, hr);
    assert lr > hr;
    var x := hr / lr;
    assert x * lr == hr;
    ScaleCompare(x, lr);
    assert !(x >= 1.0);
  }

  /** Rounding a fraction of at most all of `n` samples gives at most `n`. */
  lemma RoundedFractionAtMost(ratio: real, n: int)
    requires 0.0 <= ratio <= 1.0 && n >= 0
    ensures ScaledCount(ratio, n) <= n
  {
    var x := ratio * (n as real);
    assert x <= n as real by {
      assert (1.0 - ratio) * (n as real) >= 0.0;
    }
    var r := RoundHalfEven(x);
    assert r as real <= (n as real) + 0.5;
  }

  /** The mapped low-resolution size of the first view (preprocess.py:153-154):
      its native size, made even. */
  function ReferenceLrSize(view: Geometry): (r: seq<int>)
    requires ValidGeometry(view)
    ensures |r| == 3
    ensures forall k :: 0 <= k < 3 ==> IsEven(r[k]) && 0 <= r[k] <= view.size[k] && view.size[k] - r[k] <= 1
  {
    [DropToEven(view.size[0]), DropToEven(view.size[1]), DropToEven(view.size[2])]
  }

  /** The samples a view's resolution needs on the canonical grid, before
      clamping: `np.around(spacing / lr_spacing * sz)` on one axis. */
  function NeededSamples(view: Geometry, grid: Grid, k: nat): int
    requires ValidGeometry(view) && ValidGrid(grid) && k < 3
  {
    NeededCount(grid.spacing[k], view.spacing[k], grid.size[k])
  }

  /** `np.around(hr / lr * n)` for a grid spacing `hr`, a view spacing `lr`
      and `n` grid samples. */
  function NeededCount(hr: real, lr: real, n: int): int
    requires lr > 0.0
  {
    ScaledCount(hr / lr, n)
  }

  /** `np.around(ratio * n)`. */
  function ScaledCount(ratio: real, n: int): int {
    RoundHalfEven(ratio * (n as real))
  }

  /** The mapped low-resolution size of a later view (preprocess.py:156-163):
      the needed samples clamped to the native size, made even. Every entry
      is even, at most the native size, and loses at most one sample to
      parity. */
  function MappedLrSize(view: Geometry, grid: Grid): (r: seq<int>)
    requires ValidGeometry(view) && ValidGrid(grid)
    ensures |r| == 3
    ensures forall k :: 0 <= k < 3 ==>
      IsEven(r[k]) && 0 <= r[k] <= view.size[k] && r[k] <= NeededSamples(view, grid, k)
    ensures forall k :: 0 <= k < 3 ==> Min(view.size[k], NeededSamples(view, grid, k)) - r[k] <= 1
  {
    NeededSamplesNonNegative(view, grid, 0);
    NeededSamplesNonNegative(view, grid, 1);
    NeededSamplesNonNegative(view, grid, 2);
    [ DropToEven(Min(view.size[0], NeededSamples(view, grid, 0))),
      DropToEven(Min(view.size[1], NeededSamples(view, grid, 1))),
      DropToEven(Min(view.size[2], NeededSamples(view, grid, 2))) ]
  }

  lemma NeededSamplesNonNegative(view: Geometry, grid: Grid, k: nat)
    requires ValidGeometry(view) && ValidGrid(grid) && k < 3
    ensures NeededSamples(view, grid, k) >= 0
  {
    var x := grid.spacing[k] / view.spacing[k] * (grid.size[k] as real);
    assert grid.spacing[k] / view.spacing[k] > 0.0;
    assert x >= 0.0;
  }

  /** Where a view is coarser than the grid on an axis, it needs no more
      samples than the grid has there, so its mapped size fits the grid. */
  lemma MappedLrSizeFitsGrid(view: Geometry, grid: Grid, k: nat)
    requires ValidGeometry(view) && ValidGrid(grid) && k < 3
    requires view.spacing[k] / grid.spacing[k] > 1.0
    ensures MappedLrSize(view, grid)[k] <= grid.size[k]
  {
    NeededAtMostGrid(view, grid, k);
  }

  lemma NeededAtMostGrid(view: Geometry, grid: Grid, k: nat)
    requires ValidGeometry(view) && ValidGrid(grid) && k < 3
    requires view.spacing[k] / grid.spacing[k] > 1.0
    ensures NeededSamples(view, grid, k) <= grid.size[k]
  {
    RoundedAtMost(grid.spacing[k], view.spacing[k], grid.size[k]);
  }

  /** The same on plain numbers: a fraction below one of `n` samples rounds
      to at most `n`. */
  lemma RoundedAtMost(hr: real, lr: real, n: int)
    requires hr > 0.0 && lr > 0.0 && lr / hr > 1.0 && n >= 0
    ensures NeededCount(hr, lr, n) <= n
  {
    FactorAboveOne(lr, hr);
    DivPositive(hr, lr);
    var ratio := hr / lr;
    RoundedFractionAtMost(ratio, n);
    NeededCountUnfold(hr, lr, n, ratio);
  }

  lemma NeededCountUnfold(hr: real, lr: real, n: int, ratio: real)
    requires lr > 0.0 && ratio == hr / lr
    ensures NeededCount(hr, lr, n) == ScaledCount(ratio, n)
  {
  }

  lemma DivPositive(a: real, b: real)
    requires a > 0.0 && b > 0.0
    ensures a / b > 0.0
  {
  }

  /** On the grid computed from the first view itself, its mapped size
      never exceeds the grid on any axis. */
  lemma ReferenceLrSizeFitsIsoGrid(ref: Geometry)
    requires ValidGeometry(ref)
    ensures forall k :: 0 <= k < 3 ==> ReferenceLrSize(ref)[k] <= IsoSize(ref)[k]
  {
  }

  /** The mapped size of view `ii` as preprocessing stores it in column
      `ii`: even, and never more than the view's native size. */
  function LrSizeOf(views: seq<Geometry>, grid: Grid, ii: nat): (r: seq<int>)
    requires ii < |views| && ValidGeometry(views[ii]) && ValidGrid(grid)
    ensures |r| == 3
    ensures forall k :: 0 <= k < 3 ==> IsEven(r[k]) && 0 <= r[k] <= views[ii].size[k]
  {
    if ii == 0 then ReferenceLrSize(views[0]) else MappedLrSize(views[ii], grid)
  }

  /** `a[:, ii] = col`: every other entry is left as it was. */
  method SetColumn<T>(a: array2<T>, ii: nat, col: seq<T>)
    requires a.Length0 == |col| && ii < a.Length1
    modifies a
    ensures forall k :: 0 <= k < |col| ==> a[k, ii] == col[k]
    ensures forall k, jj :: 0 <= k < a.Length0 && 0 <= jj < a.Length1 && jj != ii ==> a[k, jj] == old(a[k, jj])
  {
    for k := 0 to |col|
      invariant forall j :: 0 <= j < k ==> a[j, ii] == col[j]
      invariant forall j, jj :: 0 <= j < a.Length0 && 0 <= jj < a.Length1 && jj != ii ==> a[j, jj] == old(a[j, jj])
    {
      a[k, ii] := col[k];
    }
  }

  /** preprocess.py:151-163: the `3 x n_imgs` tables of mapped sizes and
      native spacings, filled column by column. */
  method ComputeLrSizes(views: seq<Geometry>, grid: Grid) returns (lrSize: array2<int>, lrSpacing: array2<real>)
    requires |views| >= 1
    requires forall ii :: 0 <= ii < |views| ==> ValidGeometry(views[ii])
    requires ValidGrid(grid)
    ensures fresh(lrSize) && fresh(lrSpacing)
    ensures lrSize.Length0 == 3 && lrSize.Length1 == |views|
    ensures lrSpacing.Length0 == 3 && lrSpacing.Length1 == |views|
    ensures forall k, ii :: 0 <= k < 3 && 0 <= ii < |views| ==>
      lrSize[k, ii] == LrSizeOf(views, grid, ii)[k] && lrSpacing[k, ii] == views[ii].spacing[k]
  {
    var n := |views|;
    lrSize := new int[3, n];
    lrSpacing := new real[3, n];
    for ii := 0 to n
      invariant forall k, jj :: 0 <= k < 3 && 0 <= jj < ii ==>
        lrSize[k, jj] == LrSizeOf(views, grid, jj)[k] && lrSpacing[k, jj] == views[jj].spacing[k]
    {
      SetColumn(lrSize, ii, LrSizeOf(views, grid, ii));
      SetColumn(lrSpacing, ii, views[ii].spacing);
    }
  }

  /** Array shape for a grid size in (x, y, z) order: numpy arrays of the
      volumes are indexed (z, y, x), so `m, n, d = sz` allocates `[d, n, m]`
      (recon.py:108-109) and the filters are transposed with axes
      `[2, 1, 0]` (preprocess.py:221). */
  function ArrayShape(sz: seq<int>): (r: seq<int>)
    requires |sz| == 3
    ensures |r| == 3 && forall k :: 0 <= k < 3 ==> r[ArrayAxis(k)] == sz[k]
  {
    [sz[2], sz[1], sz[0]]
  }

  /** The numpy axis along which grid axis `k` runs. */
  function ArrayAxis(k: nat): (a: nat)
    requires k < 3
    ensures a < 3
  {
    2 - k
  }
}
