/** The enumeration of difference operators in `recon_ggr`
    (utils.py:141-183): the offset triples visited, the stencils each one
    selects, the decay weight, and the accumulation of the regulariser's
    numerator and denominator. Spectra are taken at one frequency bin; the
    edge-weighted gradient spectrum of each triple is an input. */
module Regularizer {
  import opened ComplexArith

  /** One operator: offset `ll` along the first array axis, `pp` along the
      second, `qq` along the third. */
  datatype Triple = Triple(ll: int, pp: int, qq: int)

  /** The loop ranges of utils.py:165-167: `ll` from `-p` to `p`, but `pp`
      and `qq` from 0 to `p` only. */
  predicate InBox(t: Triple, p: nat) {
    -(p as int) <= t.ll <= p && 0 <= t.pp <= p && 0 <= t.qq <= p
  }

  /** The pruning rule of utils.py:168: triples with a negative offset sum
      and the zero triple are skipped. */
  predicate Kept(t: Triple) {
    !(t.ll + t.pp + t.qq < 0 || (t.ll == 0 && t.pp == 0 && t.qq == 0))
  }

  /** The triples the innermost loop keeps, from `qq` on. */
  function QqRow(p: nat, ll: int, pp: int, qq: int): seq<Triple>
    decreases p + 1 - qq
  {
    if qq > p then []
    else (if Kept(Triple(ll, pp, qq)) then [Triple(ll, pp, qq)] else []) + QqRow(p, ll, pp, qq + 1)
  }

  /** The triples the middle loop visits, from `pp` on. */
  function PpBlock(p: nat, ll: int, pp: int): seq<Triple>
    decreases p + 1 - pp
  {
    if pp > p then [] else QqRow(p, ll, pp, 0) + PpBlock(p, ll, pp + 1)
  }

  /** The triples the outer loop visits, from `ll` on. */
  function LlBlock(p: nat, ll: int): seq<Triple>
    decreases p + 1 - ll
  {
    if ll > p then [] else PpBlock(p, ll, 0) + LlBlock(p, ll + 1)
  }

  /** The triples in visiting order. */
  function Triples(p: nat): seq<Triple> {
    LlBlock(p, -(p as int))
  }

  lemma {:induction false} QqRowMembers(p: nat, ll: int, pp: int, qq: int, t: Triple)
    ensures t in QqRow(p, ll, pp, qq) <==> t.ll == ll && t.pp == pp && qq <= t.qq <= p && Kept(t)
    decreases p + 1 - qq
  {
    if qq <= p {
      QqRowMembers(p, ll, pp, qq + 1, t);
    }
  }

  lemma {:induction false} PpBlockMembers(p: nat, ll: int, pp: int, t: Triple)
    requires pp >= 0
    ensures t in PpBlock(p, ll, pp) <==> t.ll == ll && pp <= t.pp <= p && 0 <= t.qq <= p && Kept(t)
    decreases p + 1 - pp
  {
    if pp <= p {
      QqRowMembers(p, ll, pp, 0, t);
      PpBlockMembers(p, ll, pp + 1, t);
      assert PpBlock(p, ll, pp) == QqRow(p, ll, pp, 0) + PpBlock(p, ll, pp + 1);
      MemberSplit(t, PpBlock(p, ll, pp), QqRow(p, ll, pp, 0), PpBlock(p, ll, pp + 1));
    }
  }

  lemma {:induction false} LlBlockMembers(p: nat, ll: int, t: Triple)
    ensures t in LlBlock(p, ll) <==> ll <= t.ll <= p && 0 <= t.pp <= p && 0 <= t.qq <= p && Kept(t)
    decreases p + 1 - ll
  {
    if ll <= p {
      PpBlockMembers(p, ll, 0, t);
      LlBlockMembers(p, ll + 1, t);
      LlBlockSplit(p, ll);
      MemberSplit(t, LlBlock(p, ll), PpBlock(p, ll, 0), LlBlock(p, ll + 1));
      RangeStep(ll, p, t.ll, 0 <= t.pp <= p && 0 <= t.qq <= p && Kept(t),
                t in PpBlock(p, ll, 0), t in LlBlock(p, ll + 1), t in LlBlock(p, ll));
    } else {
      assert LlBlock(p, ll) == [];
    }
  }

  /** Membership in a range split into its first value and the rest. */
  lemma RangeStep(lo: int, hi: int, x: int, rest: bool, inFirst: bool, inRest: bool, inWhole: bool)
    requires lo <= hi
    requires inWhole == (inFirst || inRest)
    requires inFirst == (x == lo && rest)
    requires inRest == (lo + 1 <= x <= hi && rest)
    ensures inWhole == (lo <= x <= hi && rest)
  {
  }

  lemma LlBlockSplit(p: nat, ll: int)
    requires ll <= p
    ensures LlBlock(p, ll) == PpBlock(p, ll, 0) + LlBlock(p, ll + 1)
  {
  }

  lemma MemberSplit(t: Triple, whole: seq<Triple>, a: seq<Triple>, b: seq<Triple>)
    requires whole == a + b
    ensures t in whole <==> t in a || t in b
  {
  }

  /** A triple is visited exactly when it lies in the loop box and
      survives the pruning rule. */
  lemma TriplesMembers(p: nat, t: Triple)
    ensures t in Triples(p) <==> InBox(t, p) && Kept(t)
  {
    LlBlockMembers(p, -(p as int), t);
  }

  /** At `p = 2` the blocks of `ll = -2 .. 2` keep 6, 8, 8, 9 and 9
      triples. */
  lemma BlockCountMinus2()
    ensures |PpBlock(2, -2, 0)| == 6
  {
  }

  lemma BlockCountMinus1()
    ensures |PpBlock(2, -1, 0)| == 8
  {
  }

  lemma BlockCountZero()
    ensures |PpBlock(2, 0, 0)| == 8
  {
  }

  lemma BlockCountPlus1()
    ensures |PpBlock(2, 1, 0)| == 9
  {
  }

  lemma BlockCountPlus2()
    ensures |PpBlock(2, 2, 0)| == 9
  {
  }

  lemma LlBlockLength(p: nat, ll: int)
    requires ll <= p
    ensures |LlBlock(p, ll)| == |PpBlock(p, ll, 0)| + |LlBlock(p, ll + 1)|
  {
  }

  /** At the default scale `p = 2` there are 40 operators. */
  lemma TriplesCount()
    ensures |Triples(2)| == 40
  {
    BlockCountMinus2();
    BlockCountMinus1();
    BlockCountZero();
    BlockCountPlus1();
    BlockCountPlus2();
    LlBlockLength(2, -2);
    LlBlockLength(2, -1);
    LlBlockLength(2, 0);
    LlBlockLength(2, 1);
    LlBlockLength(2, 2);
  }

  /** The difference stencils along one axis (utils.py:157-159): the list
      holds the two "minus" stencils, the identity (the literal 1) and the
      two "plus" stencils. */
  datatype Stencil = Minus2 | Minus1 | Identity | Plus1 | Plus2

  const StencilList: seq<Stencil> := [Minus2, Minus1, Identity, Plus1, Plus2]

  /** The indices `ll + p`, `pp + p`, `qq + p` of every visited triple lie
      inside the five-entry lists exactly when `p <= 2`; for larger `p`
      the triple `(p, p, p)` already indexes past the end. */
  lemma StencilIndicesInRange(p: nat)
    ensures (forall t :: t in Triples(p) ==> t.ll + p < 5 && t.pp + p < 5 && t.qq + p < 5) <==> p <= 2
    ensures forall t :: t in Triples(p) ==> 0 <= t.ll + p && 0 <= t.pp + p && 0 <= t.qq + p
  {
    forall t | t in Triples(p)
      ensures InBox(t, p)
    {
      TriplesMembers(p, t);
    }
    if p > 2 {
      TriplesMembers(p, Triple(p, p, p));
    }
  }

  /** The five-entry stencil list is centred for `p = 2` only. At `p = 1`
      it is not re-centred: the visited triple `(1, 0, 0)` takes the
      identity along the first axis and the `-1` stencils along the other
      two. */
  lemma StencilSelection()
    ensures Triple(1, 0, 0) in Triples(1) && StencilList[1 + 1] == Identity && StencilList[0 + 1] == Minus1
  {
    TriplesMembers(1, Triple(1, 0, 0));
  }

  /** The stencils a triple selects along the second and third axes at
      scale `p` are the identity or one of the two "plus" stencils. */
  predicate NoMinusStencil(t: Triple, p: nat) {
    && 0 <= t.pp + p < 5 && 0 <= t.qq + p < 5
    && StencilList[t.pp + p] in {Identity, Plus1, Plus2}
    && StencilList[t.qq + p] in {Identity, Plus1, Plus2}
  }

  /** At the default `p = 2` the list is centred: `pp` and `qq` run over
      `0 .. 2`, so along the second and third axes no "minus" stencil is
      ever selected. */
  lemma StencilSelectionCentred(p: nat)
    requires p == 2
    ensures forall t :: t in Triples(p) ==> NoMinusStencil(t, p)
  {
    forall t | t in Triples(p)
      ensures InBox(t, p)
    {
      TriplesMembers(p, t);
    }
    forall t | InBox(t, p)
      ensures NoMinusStencil(t, p)
    {
      BoxCentred(t, p);
    }
  }

  lemma BoxCentred(t: Triple, p: nat)
    requires p == 2 && InBox(t, p)
    ensures NoMinusStencil(t, p)
  {
    assert StencilList[2] == Identity && StencilList[3] == Plus1 && StencilList[4] == Plus2;
  }

  /** `alpha ** k` for a natural exponent. */
  function Pow(alpha: real, k: nat): real {
    if k == 0 then 1.0 else alpha * Pow(alpha, k - 1)
  }

  function Abs(x: int): nat {
    if x < 0 then -x else x
  }

  /** The decay exponent `|ll| + |pp| + |qq|` (utils.py:171). */
  function Exponent(t: Triple): nat {
    Abs(t.ll) + Abs(t.pp) + Abs(t.qq)
  }

  /** Every visited operator decays at least once and at most `3p` times. */
  lemma ExponentBounds(p: nat, t: Triple)
    requires t in Triples(p)
    ensures 1 <= Exponent(t) <= 3 * p
  {
    TriplesMembers(p, t);
  }

  lemma {:induction false} PowBounds(alpha: real, k: nat)
    requires 0.0 < alpha < 1.0 && k >= 1
    ensures 0.0 < Pow(alpha, k) < 1.0
  {
    if k > 1 {
      PowBounds(alpha, k - 1);
      var q := Pow(alpha, k - 1);
      assert alpha * q < alpha * 1.0;
    } else {
      assert Pow(alpha, 1) == alpha * 1.0;
    }
  }

  /** For `0 < alpha < 1` every operator's weight lies strictly between
      0 and 1. */
  lemma WeightBounds(p: nat, alpha: real, t: Triple)
    requires t in Triples(p) && 0.0 < alpha < 1.0
    ensures 0.0 < Pow(alpha, Exponent(t)) < 1.0
  {
    ExponentBounds(p, t);
    PowBounds(alpha, Exponent(t));
  }

  /** The operator `D = d1[ll+p] * d2[pp+p] * d3[qq+p]` at one bin. */
  function Operator(d1: seq<Complex>, d2: seq<Complex>, d3: seq<Complex>, p: nat, t: Triple): Complex
    requires |d1| == |d2| == |d3| == 5 && InBox(t, p) && p <= 2
  {
    Mul(Mul(d1[t.ll + p], d2[t.pp + p]), d3[t.qq + p])
  }

  /** `a * conj(D) * G`, the term one operator adds to `DG`. */
  function DgTerm(d1: seq<Complex>, d2: seq<Complex>, d3: seq<Complex>, p: nat, alpha: real, edge: Triple -> Complex, t: Triple): Complex
    requires |d1| == |d2| == |d3| == 5 && InBox(t, p) && p <= 2
  {
    Scale(Pow(alpha, Exponent(t)), Mul(Conj(Operator(d1, d2, d3, p, t)), edge(t)))
  }

  /** `a * conj(D) * D`, the term one operator adds to `DD`. */
  function DdTerm(d1: seq<Complex>, d2: seq<Complex>, d3: seq<Complex>, p: nat, alpha: real, t: Triple): Complex
    requires |d1| == |d2| == |d3| == 5 && InBox(t, p) && p <= 2
  {
    var d := Operator(d1, d2, d3, p, t);
    Scale(Pow(alpha, Exponent(t)), Mul(Conj(d), d))
  }

  /** The sums over a list of operators, added in list order. */
  function SumDg(d1: seq<Complex>, d2: seq<Complex>, d3: seq<Complex>, p: nat, alpha: real, edge: Triple -> Complex, ts: seq<Triple>): Complex
    requires |d1| == |d2| == |d3| == 5 && p <= 2
    requires forall k :: 0 <= k < |ts| ==> InBox(ts[k], p)
  {
    if ts == [] then Zero
    else Add(SumDg(d1, d2, d3, p, alpha, edge, ts[..|ts| - 1]), DgTerm(d1, d2, d3, p, alpha, edge, ts[|ts| - 1]))
  }

  function SumDd(d1: seq<Complex>, d2: seq<Complex>, d3: seq<Complex>, p: nat, alpha: real, ts: seq<Triple>): Complex
    requires |d1| == |d2| == |d3| == 5 && p <= 2
    requires forall k :: 0 <= k < |ts| ==> InBox(ts[k], p)
  {
    if ts == [] then Zero
    else Add(SumDd(d1, d2, d3, p, alpha, ts[..|ts| - 1]), DdTerm(d1, d2, d3, p, alpha, ts[|ts| - 1]))
  }

  lemma {:induction false} PowNonNegative(alpha: real, k: nat)
    requires alpha >= 0.0
    ensures Pow(alpha, k) >= 0.0
  {
    if k > 0 {
      PowNonNegative(alpha, k - 1);
    }
  }

  /** One operator's share of `DD` is a non-negative real. */
  lemma DdTermNonNegative(d1: seq<Complex>, d2: seq<Complex>, d3: seq<Complex>, p: nat, alpha: real, t: Triple)
    requires |d1| == |d2| == |d3| == 5 && p <= 2 && alpha >= 0.0 && InBox(t, p)
    ensures IsNonNegativeReal(DdTerm(d1, d2, d3, p, alpha, t))
  {
    var d := Operator(d1, d2, d3, p, t);
    var m := Mul(Conj(d), d);
    ConjMulSelf(d);
    PowNonNegative(alpha, Exponent(t));
    var a := Pow(alpha, Exponent(t));
    assert a * m.re >= 0.0;
    assert a * m.im == 0.0;
  }

  /** With a non-negative decay the regulariser's denominator `DD` is a
      non-negative real at every bin, whatever the stencil spectra. */
  lemma {:induction false} SumDdNonNegative(d1: seq<Complex>, d2: seq<Complex>, d3: seq<Complex>, p: nat, alpha: real, ts: seq<Triple>)
    requires |d1| == |d2| == |d3| == 5 && p <= 2 && alpha >= 0.0
    requires forall k :: 0 <= k < |ts| ==> InBox(ts[k], p)
    ensures IsNonNegativeReal(SumDd(d1, d2, d3, p, alpha, ts))
  {
    if ts != [] {
      SumDdNonNegative(d1, d2, d3, p, alpha, ts[..|ts| - 1]);
      DdTermNonNegative(d1, d2, d3, p, alpha, ts[|ts| - 1]);
    }
  }

  /** The four non-trivial stencil spectra along one axis at one bin. */
  datatype AxisSpectra = AxisSpectra(minus2: Complex, minus1: Complex, plus1: Complex, plus2: Complex)

  /** `[d_m2, d_m1, 1, d_p1, d_p2]` (utils.py:157-159). */
  function StencilValues(a: AxisSpectra): (r: seq<Complex>)
    ensures |r| == 5 && r[2] == One
  {
    [a.minus2, a.minus1, One, a.plus1, a.plus2]
  }

  lemma SumsAppend(d1: seq<Complex>, d2: seq<Complex>, d3: seq<Complex>, p: nat, alpha: real, edge: Triple -> Complex, ts: seq<Triple>, t: Triple)
    requires |d1| == |d2| == |d3| == 5 && p <= 2 && InBox(t, p)
    requires forall k :: 0 <= k < |ts| ==> InBox(ts[k], p)
    ensures forall k :: 0 <= k < |ts + [t]| ==> InBox((ts + [t])[k], p)
    ensures SumDg(d1, d2, d3, p, alpha, edge, ts + [t]) == Add(SumDg(d1, d2, d3, p, alpha, edge, ts), DgTerm(d1, d2, d3, p, alpha, edge, t))
    ensures SumDd(d1, d2, d3, p, alpha, ts + [t]) == Add(SumDd(d1, d2, d3, p, alpha, ts), DdTerm(d1, d2, d3, p, alpha, t))
  {
    assert (ts + [t])[..|ts|] == ts;
  }

  /** One step of each loop moves its first triples from the remaining
      list to the visited one. */
  lemma QqRowStep(p: nat, ll: int, pp: int, qq: int, visited: seq<Triple>)
    requires 0 <= qq <= p && Kept(Triple(ll, pp, qq))
    ensures visited + QqRow(p, ll, pp, qq) == (visited + [Triple(ll, pp, qq)]) + QqRow(p, ll, pp, qq + 1)
  {
    assert QqRow(p, ll, pp, qq) == [Triple(ll, pp, qq)] + QqRow(p, ll, pp, qq + 1);
    Reassociate(visited, [Triple(ll, pp, qq)], QqRow(p, ll, pp, qq + 1));
  }

  lemma QqRowSkip(p: nat, ll: int, pp: int, qq: int, visited: seq<Triple>)
    requires 0 <= qq <= p && !Kept(Triple(ll, pp, qq))
    ensures visited + QqRow(p, ll, pp, qq) == visited + QqRow(p, ll, pp, qq + 1)
  {
    assert QqRow(p, ll, pp, qq) == [] + QqRow(p, ll, pp, qq + 1);
  }

  lemma TriplesStart(p: nat, visited: seq<Triple>)
    requires visited == []
    ensures visited + LlBlock(p, -(p as int)) == Triples(p)
  {
  }

  lemma PpBlockStep(p: nat, ll: int, pp: int, visited: seq<Triple>)
    requires 0 <= pp <= p
    ensures visited + PpBlock(p, ll, pp) == (visited + QqRow(p, ll, pp, 0)) + PpBlock(p, ll, pp + 1)
  {
    assert PpBlock(p, ll, pp) == QqRow(p, ll, pp, 0) + PpBlock(p, ll, pp + 1);
    Reassociate(visited, QqRow(p, ll, pp, 0), PpBlock(p, ll, pp + 1));
  }

  lemma LlBlockStep(p: nat, ll: int, visited: seq<Triple>)
    requires ll <= p
    ensures visited + LlBlock(p, ll) == (visited + PpBlock(p, ll, 0)) + LlBlock(p, ll + 1)
  {
    assert LlBlock(p, ll) == PpBlock(p, ll, 0) + LlBlock(p, ll + 1);
    Reassociate(visited, PpBlock(p, ll, 0), LlBlock(p, ll + 1));
  }

  lemma Reassociate(a: seq<Triple>, b: seq<Triple>, c: seq<Triple>)
    ensures a + (b + c) == (a + b) + c
  {
  }

  /** The sums so far are those of the triples visited so far. */
  predicate Accumulated(d1: seq<Complex>, d2: seq<Complex>, d3: seq<Complex>, p: nat, alpha: real, edge: Triple -> Complex,
                        visited: seq<Triple>, dg: Complex, dd: Complex)
    requires |d1| == |d2| == |d3| == 5 && p <= 2
  {
    && (forall k :: 0 <= k < |visited| ==> InBox(visited[k], p))
    && dg == SumDg(d1, d2, d3, p, alpha, edge, visited)
    && dd == SumDd(d1, d2, d3, p, alpha, visited)
  }

  /** Visiting one more triple adds its two terms. */
  lemma AccumulatedStep(d1: seq<Complex>, d2: seq<Complex>, d3: seq<Complex>, p: nat, alpha: real, edge: Triple -> Complex,
                        visited: seq<Triple>, dg: Complex, dd: Complex, t: Triple, dg1: Complex, dd1: Complex)
    requires |d1| == |d2| == |d3| == 5 && p <= 2 && InBox(t, p)
    requires Accumulated(d1, d2, d3, p, alpha, edge, visited, dg, dd)
    requires dg1 == Add(dg, DgTerm(d1, d2, d3, p, alpha, edge, t))
    requires dd1 == Add(dd, DdTerm(d1, d2, d3, p, alpha, t))
    ensures Accumulated(d1, d2, d3, p, alpha, edge, visited + [t], dg1, dd1)
  {
    SumsAppend(d1, d2, d3, p, alpha, edge, visited, t);
  }

  /** The body of the innermost loop for one kept triple: its operator
      `D`, weight `a`, and the two terms it adds. */
  method AddOperatorTerms(p: nat, alpha: real, d1: seq<Complex>, d2: seq<Complex>, d3: seq<Complex>, edge: Triple -> Complex,
                          t: Triple, dg: Complex, dd: Complex)
    returns (dg1: Complex, dd1: Complex)
    requires |d1| == |d2| == |d3| == 5 && p <= 2 && InBox(t, p)
    ensures dg1 == Add(dg, DgTerm(d1, d2, d3, p, alpha, edge, t))
    ensures dd1 == Add(dd, DdTerm(d1, d2, d3, p, alpha, t))
  {
    var a := Pow(alpha, Exponent(t));
    var d := Mul(Mul(d1[t.ll + p], d2[t.pp + p]), d3[t.qq + p]);
    dg1 := Add(dg, Scale(a, Mul(Conj(d), edge(t))));
    dd1 := Add(dd, Scale(a, Mul(Conj(d), d)));
  }

  /** The innermost loop (utils.py:167-183) for fixed `ll` and `pp`. */
  method AccumulateRow(p: nat, alpha: real, d1: seq<Complex>, d2: seq<Complex>, d3: seq<Complex>, edge: Triple -> Complex,
                       ll: int, pp: int, visited0: seq<Triple>, dg0: Complex, dd0: Complex)
    returns (visited: seq<Triple>, dg: Complex, dd: Complex)
    requires |d1| == |d2| == |d3| == 5 && p <= 2
    requires -(p as int) <= ll <= p && 0 <= pp <= p
    requires Accumulated(d1, d2, d3, p, alpha, edge, visited0, dg0, dd0)
    ensures visited == visited0 + QqRow(p, ll, pp, 0)
    ensures Accumulated(d1, d2, d3, p, alpha, edge, visited, dg, dd)
  {
    visited, dg, dd := visited0, dg0, dd0;
    for qq := 0 to p + 1
      invariant visited + QqRow(p, ll, pp, qq) == visited0 + QqRow(p, ll, pp, 0)
      invariant Accumulated(d1, d2, d3, p, alpha, edge, visited, dg, dd)
    {
      if ll + pp + qq < 0 || (ll == 0 && pp == 0 && qq == 0) {
        QqRowSkip(p, ll, pp, qq, visited);
        continue;
      }
      var t := Triple(ll, pp, qq);
      var dg1, dd1 := AddOperatorTerms(p, alpha, d1, d2, d3, edge, t, dg, dd);
      AccumulatedStep(d1, d2, d3, p, alpha, edge, visited, dg, dd, t, dg1, dd1);
      QqRowStep(p, ll, pp, qq, visited);
      visited, dg, dd := visited + [t], dg1, dd1;
    }
  }

  /** The middle loop (utils.py:166-183) for fixed `ll`. */
  method AccumulateBlock(p: nat, alpha: real, d1: seq<Complex>, d2: seq<Complex>, d3: seq<Complex>, edge: Triple -> Complex,
                         ll: int, visited0: seq<Triple>, dg0: Complex, dd0: Complex)
    returns (visited: seq<Triple>, dg: Complex, dd: Complex)
    requires |d1| == |d2| == |d3| == 5 && p <= 2
    requires -(p as int) <= ll <= p
    requires Accumulated(d1, d2, d3, p, alpha, edge, visited0, dg0, dd0)
    ensures visited == visited0 + PpBlock(p, ll, 0)
    ensures Accumulated(d1, d2, d3, p, alpha, edge, visited, dg, dd)
  {
    visited, dg, dd := visited0, dg0, dd0;
    for pp := 0 to p + 1
      invariant visited + PpBlock(p, ll, pp) == visited0 + PpBlock(p, ll, 0)
      invariant Accumulated(d1, d2, d3, p, alpha, edge, visited, dg, dd)
    {
      ghost var before := visited;
      visited, dg, dd := AccumulateRow(p, alpha, d1, d2, d3, edge, ll, pp, visited, dg, dd);
      PpBlockStep(p, ll, pp, before);
    }
  }

  /** The deconvolution loop of utils.py:163-183 at one frequency bin:
      every kept triple is visited once, in loop order, and adds its
      weighted terms to `DG` and `DD`. */
  method AccumulateRegularizer(p: nat, alpha: real, s1: AxisSpectra, s2: AxisSpectra, s3: AxisSpectra, edge: Triple -> Complex)
    returns (visited: seq<Triple>, dg: Complex, dd: Complex)
    requires p <= 2
    ensures visited == Triples(p)
    ensures Accumulated(StencilValues(s1), StencilValues(s2), StencilValues(s3), p, alpha, edge, visited, dg, dd)
  {
    var d1, d2, d3 := StencilValues(s1), StencilValues(s2), StencilValues(s3);
    visited, dg, dd := [], Zero, Zero;
    TriplesStart(p, visited);
    for ll := -(p as int) to p + 1
      invariant visited + LlBlock(p, ll) == Triples(p)
      invariant Accumulated(d1, d2, d3, p, alpha, edge, visited, dg, dd)
    {
      ghost var before := visited;
      visited, dg, dd := AccumulateBlock(p, alpha, d1, d2, d3, edge, ll, visited, dg, dd);
      LlBlockStep(p, ll, before);
    }
    assert visited == Triples(p) by {
      assert LlBlock(p, p + 1) == [];
    }
  }
}
