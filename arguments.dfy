/** The checks both scripts make on their command line before any work:
    the input list and the optional high-resolution size of preprocessing
    (preprocess.py:44-53), and the choice of regulariser for reconstruction
    (recon.py:29-47). */
module Arguments {
  import opened Common

  /** Preprocessing's check as written: the size list is compared with
      the number of input images (preprocess.py:50), although it is meant
      to give one length per spatial axis. */
  function CheckInputsAsWritten(nImgs: nat, sz: Option<seq<int>>): (r: Result<()>)
    ensures r == Fail(NoImages) <==> nImgs == 0
    ensures r == Fail(BadSizeList) <==>
      nImgs > 0 && sz.Some? && (|sz.value| != nImgs || exists k :: 0 <= k < |sz.value| && sz.value[k] <= 0)
    ensures r.Ok? <==>
      nImgs > 0 && (sz.Some? ==> |sz.value| == nImgs && forall k :: 0 <= k < |sz.value| ==> sz.value[k] > 0)
  {
    if nImgs == 0 then Fail(NoImages)
    else if sz.Some? && (|sz.value| != nImgs || exists k :: 0 <= k < |sz.value| && sz.value[k] <= 0) then
      Fail(BadSizeList)
    else Ok(())
  }

  /** The check as the help text describes the size: exactly one positive
      length per spatial axis. Evenness is not demanded here; the grid
      forces it afterwards. */
  function CheckInputs(nImgs: nat, sz: Option<seq<int>>): (r: Result<()>)
    ensures r == Fail(NoImages) <==> nImgs == 0
    ensures r.Ok? <==> nImgs > 0 && (sz.Some? ==> IsGridSize(sz.value))
    ensures r == Fail(BadSizeList) <==> nImgs > 0 && sz.Some? && !IsGridSize(sz.value)
  {
    if nImgs == 0 then Fail(NoImages)
    else if sz.Some? && (|sz.value| != 3 || exists k :: 0 <= k < |sz.value| && sz.value[k] <= 0) then
      Fail(BadSizeList)
    else Ok(())
  }

  /** A size usable for a three-dimensional grid. */
  predicate IsGridSize(sz: seq<int>) {
    |sz| == 3 && forall k :: 0 <= k < 3 ==> sz[k] > 0
  }

  /** With three input images the two checks agree, which is why the
      written check passes the intended use `-s X Y Z` for three views. */
  lemma {:induction false} ChecksAgreeOnThreeImages(sz: Option<seq<int>>)
    ensures CheckInputsAsWritten(3, sz) == CheckInputs(3, sz)
  {
    if sz.Some? && |sz.value| == 3 {
      if forall k :: 0 <= k < 3 ==> sz.value[k] > 0 {
        assert !exists k :: 0 <= k < |sz.value| && sz.value[k] <= 0;
      }
    }
  }

  /** The discrepancy: with two images a proper three-axis size is refused,
      and with one image a one-entry size, which no grid can use, is let
      through. */
  lemma SizeCheckCountsImages()
    ensures CheckInputsAsWritten(2, Some([312, 384, 330])) == Fail(BadSizeList)
    ensures CheckInputs(2, Some([312, 384, 330])) == Ok(())
    ensures CheckInputsAsWritten(1, Some([312])) == Ok(())
    ensures CheckInputs(1, Some([312])) == Fail(BadSizeList)
  {
    var good: seq<int> := [312, 384, 330];
    assert !exists k :: 0 <= k < |good| && good[k] <= 0;
    var one: seq<int> := [312];
    assert !exists k :: 0 <= k < |one| && one[k] <= 0;
  }

  /** The two regularisers of reconstruction. */
  datatype Method = Ggr | Tikhonov

  /** recon.py:43-47 with the mutually exclusive group of recon.py:29-33:
      GGR unless `--tik` is given; both flags together are refused by the
      argument parser. */
  function SelectMethod(ggr: bool, tik: bool): (r: Result<Method>)
    ensures r == Fail(ConflictingMethods) <==> ggr && tik
    ensures r == Ok(Tikhonov) <==> tik && !ggr
    ensures r == Ok(Ggr) <==> !tik
  {
    if ggr && tik then Fail(ConflictingMethods)
    else if tik then Ok(Tikhonov)
    else Ok(Ggr)
  }
}
