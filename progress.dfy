/** The progress bar of reconstruction (total 100, recon.py:106) and the
    advances both solvers report into it. Only the amounts are modelled;
    the bar itself is console output. */
module Progress {
  import opened Regularizer

  /** recon.py:116: every loaded view advances `20 / n_imgs`. */
  function LoadingAdvance(nImgs: nat): real
    requires nImgs >= 1
  {
    (nImgs as real) * (20.0 / nImgs as real)
  }

  /** The advances of a GGR run at scale `p`: loading, the mean image
      (recon.py:129), `25/3` after the stencils (utils.py:161), one per
      enumerated operator (utils.py:183), `25/3` after the data terms and
      after the solve (utils.py:190, 194), then saving and completion
      (recon.py:147, 152). */
  function GgrAdvances(nImgs: nat, p: nat): real
    requires nImgs >= 1
  {
    LoadingAdvance(nImgs) + 5.0 + 25.0 / 3.0 + |Triples(p)| as real + 25.0 / 3.0 + 25.0 / 3.0 + 5.0 + 5.0
  }

  /** The advances of a Tikhonov run: six steps of `65/6` inside the solver
      (utils.py:92-121) between the same outer steps. */
  function TikhonovAdvances(nImgs: nat): real
    requires nImgs >= 1
  {
    LoadingAdvance(nImgs) + 5.0 + 6.0 * (65.0 / 6.0) + 5.0 + 5.0
  }

  lemma LoadingTotal(nImgs: nat)
    requires nImgs >= 1
    ensures LoadingAdvance(nImgs) == 20.0
  {
    var n := nImgs as real;
    var step := 20.0 / n;
    assert step * n == 20.0;
  }

  /** At the default scale the 40 operators make a GGR run fill the bar
      exactly, for any number of views. */
  lemma GgrFillsBar(nImgs: nat)
    requires nImgs >= 1
    ensures GgrAdvances(nImgs, 2) == 100.0
  {
    LoadingTotal(nImgs);
    TriplesCount();
  }

  /** A Tikhonov run fills the bar exactly too. */
  lemma TikhonovFillsBar(nImgs: nat)
    requires nImgs >= 1
    ensures TikhonovAdvances(nImgs) == 100.0
  {
    LoadingTotal(nImgs);
  }
}
