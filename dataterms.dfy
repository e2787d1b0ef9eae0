/** The data terms of both solvers. Reconstruction loads every view's
    spectrum and filter into per-view columns (recon.py:108-116), and each
    solver then sums `conj(w) * y` and `conj(w) * w` over the views
    (utils.py:112-115 for Tikhonov, utils.py:185-188 for GGR). Volumes are
    flattened to one voxel index; spectra are exact complex values. */
module DataTerms {
  import opened ComplexArith
  import Grid

  /** What `loadmat(...)['fft_win']` yields: the scalar 1 that preprocessing
      saves when no axis is filtered, or a full spectrum. */
  datatype FilterData = Scalar(c: Complex) | Spectrum(values: seq<Complex>)

  predicate FitsVoxels(f: FilterData, nVox: nat) {
    f.Spectrum? ==> |f.values| == nVox
  }

  /** `w[..., ii] = fft_win`: a scalar is broadcast to every voxel. */
  function Broadcast(f: FilterData, nVox: nat): (r: seq<Complex>)
    requires FitsVoxels(f, nVox)
    ensures |r| == nVox
  {
    if f.Scalar? then seq(nVox, _ => f.c) else f.values
  }

  /** The load loop of recon.py:108-116: column `ii` of the two
      `voxels x n_imgs` tables receives view `ii`'s spectrum and filter. */
  method LoadViews(nVox: nat, images: seq<seq<Complex>>, filters: seq<FilterData>)
    returns (y: array2<Complex>, w: array2<Complex>)
    requires |images| == |filters|
    requires forall ii :: 0 <= ii < |images| ==> |images[ii]| == nVox
    requires forall ii :: 0 <= ii < |filters| ==> filters[ii].Spectrum? ==> |filters[ii].values| == nVox
    ensures fresh(y) && fresh(w)
    ensures y.Length0 == w.Length0 == nVox && y.Length1 == w.Length1 == |images|
    ensures forall v, ii :: 0 <= v < nVox && 0 <= ii < |images| ==> y[v, ii] == images[ii][v]
    ensures forall v, ii :: 0 <= v < nVox && 0 <= ii < |images| ==>
      w[v, ii] == (if filters[ii].Scalar? then filters[ii].c else filters[ii].values[v])
  {
    y := new Complex[nVox, |images|]((_, _) => Zero);
    w := new Complex[nVox, |images|]((_, _) => Zero);
    for ii := 0 to |images|
      invariant forall v, j :: 0 <= v < nVox && 0 <= j < ii ==> y[v, j] == images[j][v]
      invariant forall v, j :: 0 <= v < nVox && 0 <= j < ii ==>
        w[v, j] == (if filters[j].Scalar? then filters[j].c else filters[j].values[v])
    {
      Grid.SetColumn(y, ii, images[ii]);
      Grid.SetColumn(w, ii, Broadcast(filters[ii], nVox));
    }
  }

  /** `sum_j conj(w_j) * y_j` over the first `n` views at one voxel. */
  function WySum(ys: seq<Complex>, ws: seq<Complex>, n: nat): Complex
    requires n <= |ys| == |ws|
  {
    if n == 0 then Zero else Add(WySum(ys, ws, n - 1), Mul(Conj(ws[n - 1]), ys[n - 1]))
  }

  /** `sum_j conj(w_j) * w_j` over the first `n` views at one voxel. */
  function WwSum(ws: seq<Complex>, n: nat): Complex
    requires n <= |ws|
  {
    if n == 0 then Zero else Add(WwSum(ws, n - 1), Mul(Conj(ws[n - 1]), ws[n - 1]))
  }

  /** `sum_j y_j` over the first `n` views. */
  function PlainSum(ys: seq<Complex>, n: nat): Complex
    requires n <= |ys|
  {
    if n == 0 then Zero else Add(PlainSum(ys, n - 1), ys[n - 1])
  }

  /** The values of all views at voxel `v`. */
  function Row(a: array2<Complex>, v: nat): (r: seq<Complex>)
    requires v < a.Length0
    reads a
    ensures |r| == a.Length1 && forall j :: 0 <= j < a.Length1 ==> r[j] == a[v, j]
  {
    seq(a.Length1, j requires 0 <= j < a.Length1 reads a => a[v, j])
  }

  /** One pass of `WY += conj(w[..., jj]) * y[..., jj]` and
      `WW += conj(w[..., jj]) * w[..., jj]` over all voxels. */
  method AddViewTerms(wy: array<Complex>, ww: array<Complex>, y: array2<Complex>, w: array2<Complex>, jj: nat)
    requires wy != ww && wy.Length == ww.Length == y.Length0 == w.Length0
    requires jj < y.Length1 == w.Length1
    modifies wy, ww
    ensures forall v :: 0 <= v < wy.Length ==>
      wy[v] == Add(old(wy[v]), Mul(Conj(w[v, jj]), y[v, jj])) &&
      ww[v] == Add(old(ww[v]), Mul(Conj(w[v, jj]), w[v, jj]))
  {
    for v := 0 to wy.Length
      invariant forall k :: 0 <= k < v ==>
        wy[k] == Add(old(wy[k]), Mul(Conj(w[k, jj]), y[k, jj])) &&
        ww[k] == Add(old(ww[k]), Mul(Conj(w[k, jj]), w[k, jj]))
      invariant forall k :: v <= k < wy.Length ==> wy[k] == old(wy[k]) && ww[k] == old(ww[k])
    {
      wy[v] := Add(wy[v], Mul(Conj(w[v, jj]), y[v, jj]));
      ww[v] := Add(ww[v], Mul(Conj(w[v, jj]), w[v, jj]));
    }
  }

  /** The view loop of both solvers: at every voxel, `WY` and `WW` hold one
      term per view, for every view `0 .. n_imgs - 1`. */
  method AccumulateDataTerms(y: array2<Complex>, w: array2<Complex>) returns (wy: array<Complex>, ww: array<Complex>)
    requires y.Length0 == w.Length0 && y.Length1 == w.Length1
    ensures fresh(wy) && fresh(ww) && wy.Length == ww.Length == y.Length0
    ensures forall v :: 0 <= v < y.Length0 ==>
      wy[v] == WySum(Row(y, v), Row(w, v), y.Length1) && ww[v] == WwSum(Row(w, v), y.Length1)
  {
    wy := new Complex[y.Length0](_ => Zero);
    ww := new Complex[y.Length0](_ => Zero);
    for jj := 0 to y.Length1
      invariant forall v :: 0 <= v < y.Length0 ==>
        wy[v] == WySum(Row(y, v), Row(w, v), jj) && ww[v] == WwSum(Row(w, v), jj)
    {
      AddViewTerms(wy, ww, y, w, jj);
    }
  }

  /** `WW` is a non-negative real at every voxel: it is a sum of squared
      magnitudes. */
  lemma {:induction false} WwNonNegative(ws: seq<Complex>, n: nat)
    requires n <= |ws|
    ensures IsNonNegativeReal(WwSum(ws, n))
    ensures WwSum(ws, n).re >= 0.0
  {
    if n > 0 {
      WwNonNegative(ws, n - 1);
      ConjMulSelf(ws[n - 1]);
    }
  }

  lemma ConjOne()
    ensures Conj(One) == One
  {
  }

  lemma MulOne(y: Complex)
    ensures Mul(One, y) == y
  {
  }

  lemma UnitTerm(w: Complex, y: Complex)
    requires w == One
    ensures Mul(Conj(w), y) == y
  {
    ConjOne();
    MulOne(y);
  }

  /** With every filter the scalar 1 (no axis filtered in any view), `WY`
      is the plain sum of the views' spectra. */
  lemma {:induction false} UnitFiltersSum(ys: seq<Complex>, ws: seq<Complex>, n: nat)
    requires n <= |ys| == |ws|
    requires forall j :: 0 <= j < n ==> ws[j] == One
    ensures WySum(ys, ws, n) == PlainSum(ys, n)
  {
    if n > 0 {
      UnitFiltersSum(ys, ws, n - 1);
      UnitTerm(ws[n - 1], ys[n - 1]);
    }
  }

  /** `WW` is `WY` with the filters in place of the spectra. */
  lemma {:induction false} WwIsWy(ws: seq<Complex>, n: nat)
    requires n <= |ws|
    ensures WwSum(ws, n) == WySum(ws, ws, n)
  {
    if n > 0 {
      WwIsWy(ws, n - 1);
    }
  }

  lemma {:induction false} PlainSumOnes(ws: seq<Complex>, n: nat)
    requires n <= |ws|
    requires forall j :: 0 <= j < n ==> ws[j] == One
    ensures PlainSum(ws, n) == Complex(n as real, 0.0)
  {
    if n > 0 {
      PlainSumOnes(ws, n - 1);
    }
  }

  /** With every filter the scalar 1, `WW` counts the views. */
  lemma UnitFiltersCount(ws: seq<Complex>, n: nat)
    requires n <= |ws|
    requires forall j :: 0 <= j < n ==> ws[j] == One
    ensures WwSum(ws, n) == Complex(n as real, 0.0)
  {
    WwIsWy(ws, n);
    UnitFiltersSum(ws, ws, n);
    PlainSumOnes(ws, n);
  }
}
