/** The end of reconstruction (recon.py:118-152): the mean image written by
    preprocessing is looked up in the output directory, its extension is
    reused for the reconstruction's file name, which records the method and
    the weight, and negative voxel values are clipped unless asked not
    to. */
module Output {
  import opened Common
  import opened Arguments

  /** What `glob(out_path + 'img_mean.*')` matches: an entry of the output
      directory whose name starts with `img_mean.`. A name never holds a
      `/`, so `*` matches any rest of it. */
  predicate IsMeanEntry(name: string) {
    "img_mean." <= name
  }

  /** The matches as paths, in directory order. */
  function MeanMatches(outPath: string, entries: seq<string>): (r: seq<string>)
    ensures |r| <= |entries|
  {
    if entries == [] then []
    else (if IsMeanEntry(entries[0]) then [outPath + entries[0]] else []) + MeanMatches(outPath, entries[1..])
  }

  /** A path is matched exactly when it is the output directory followed by
      a mean entry. */
  lemma {:induction false} MeanMatchesMembers(outPath: string, entries: seq<string>, path: string)
    ensures path in MeanMatches(outPath, entries) <==>
      exists k :: 0 <= k < |entries| && IsMeanEntry(entries[k]) && path == outPath + entries[k]
  {
    if entries != [] {
      MeanMatchesMembers(outPath, entries[1..], path);
      if path in MeanMatches(outPath, entries[1..]) {
        var k :| 0 <= k < |entries[1..]| && IsMeanEntry(entries[1..][k]) && path == outPath + entries[1..][k];
        assert entries[k + 1] == entries[1..][k];
      }
      if exists k :: 0 <= k < |entries| && IsMeanEntry(entries[k]) && path == outPath + entries[k] {
        var k :| 0 <= k < |entries| && IsMeanEntry(entries[k]) && path == outPath + entries[k];
        if k > 0 {
          assert entries[1..][k - 1] == entries[k];
        }
      }
    }
  }

  /** recon.py:118-124: two or more matches stop the run with an error; no
      match is not guarded, and `mean_fns[0]` raises; a single match gives
      the mean file and, after `out_path + 'img_mean'`, its extension. */
  function FindMeanFile(outPath: string, entries: seq<string>): (r: Result<(string, string)>)
    ensures r == Fail(AmbiguousMeanFile) <==> |MeanMatches(outPath, entries)| > 1
    ensures r == Fail(MissingMeanFile) <==> |MeanMatches(outPath, entries)| == 0
    ensures r.Ok? <==> |MeanMatches(outPath, entries)| == 1
    ensures r.Ok? ==>
      MeanMatches(outPath, entries) == [r.value.0] && r.value.0 == outPath + "img_mean" + r.value.1
  {
    var found := MeanMatches(outPath, entries);
    if |found| > 1 then Fail(AmbiguousMeanFile)
    else if |found| == 0 then Fail(MissingMeanFile)
    else
      var meanFn := found[0];
      MeanPathShape(outPath, entries, meanFn);
      Ok((meanFn, meanFn[|outPath + "img_mean"|..]))
  }

  /** Every match is the output directory, `img_mean`, and a rest starting
      with a dot. */
  lemma MeanPathShape(outPath: string, entries: seq<string>, path: string)
    requires path in MeanMatches(outPath, entries)
    ensures |outPath + "img_mean"| < |path| && path[|outPath + "img_mean"|] == '.'
    ensures path == outPath + "img_mean" + path[|outPath + "img_mean"|..]
  {
    MeanMatchesMembers(outPath, entries, path);
    var k :| 0 <= k < |entries| && IsMeanEntry(entries[k]) && path == outPath + entries[k];
    var e := entries[k];
    assert e[..9] == "img_mean.";
    assert e == "img_mean" + e[8..];
    assert path[|outPath + "img_mean"|..] == e[8..];
  }

  /** preprocess.py:241: the mean image is `img_mean` plus the extension of
      the first input. */
  function MeanEntry(ext0: string): string {
    "img_mean" + ext0
  }

  /** When the output directory holds the mean image of preprocessing and
      no other `img_mean.*` entry, the lookup finds that file and recovers
      the first input's extension. */
  lemma MeanFileFound(outPath: string, before: seq<string>, ext0: string, after: seq<string>)
    requires |ext0| >= 1 && ext0[0] == '.'
    requires forall k :: 0 <= k < |before| ==> !IsMeanEntry(before[k])
    requires forall k :: 0 <= k < |after| ==> !IsMeanEntry(after[k])
    ensures FindMeanFile(outPath, before + [MeanEntry(ext0)] + after) == Ok((outPath + "img_mean" + ext0, ext0))
  {
    var e := MeanEntry(ext0);
    assert IsMeanEntry(e) by {
      assert e[..9] == "img_mean.";
    }
    MatchesWithout(outPath, before);
    MatchesWithout(outPath, after);
    MatchesAppend(outPath, before, [e] + after);
    MatchesAppend(outPath, [e], after);
    assert before + [e] + after == before + ([e] + after);
    assert [e][1..] == [];
    var found := MeanMatches(outPath, before + [e] + after);
    assert found == [outPath + e];
    assert outPath + e == outPath + "img_mean" + ext0;
    assert (outPath + "img_mean" + ext0)[|outPath + "img_mean"|..] == ext0;
  }

  lemma {:induction false} MatchesWithout(outPath: string, entries: seq<string>)
    requires forall k :: 0 <= k < |entries| ==> !IsMeanEntry(entries[k])
    ensures MeanMatches(outPath, entries) == []
  {
    if entries != [] {
      MatchesWithout(outPath, entries[1..]);
    }
  }

  lemma {:induction false} MatchesAppend(outPath: string, a: seq<string>, b: seq<string>)
    ensures MeanMatches(outPath, a + b) == MeanMatches(outPath, a) + MeanMatches(outPath, b)
  {
    if a != [] {
      assert (a + b)[1..] == a[1..] + b;
      MatchesAppend(outPath, a[1..], b);
    } else {
      assert a + b == b;
    }
  }

  /** A second mean image, say one left behind by an earlier run with a
      different extension, stops the run. */
  lemma TwoMeanFilesRefused(outPath: string, ext0: string, ext1: string)
    requires |ext0| >= 1 && ext0[0] == '.' && |ext1| >= 1 && ext1[0] == '.'
    ensures FindMeanFile(outPath, [MeanEntry(ext0), MeanEntry(ext1)]) == Fail(AmbiguousMeanFile)
  {
    var e0, e1 := MeanEntry(ext0), MeanEntry(ext1);
    assert e0[..9] == "img_mean." && e1[..9] == "img_mean.";
    MatchesAppend(outPath, [e0], [e1]);
    assert [e0, e1] == [e0] + [e1];
    assert [e0][1..] == [] && [e1][1..] == [];
  }

  /** recon.py:134 and recon.py:138: the output directory, the method tag,
      the weight as `str` prints it, and the mean image's extension. */
  function OutputName(outPath: string, m: Method, weightText: string, ext: string): string {
    outPath + (if m == Ggr then "recon_ggr-w" else "recon_tik-w") + weightText + ext
  }

  /** The output name lies in the output directory, ends in the mean
      image's extension, and names the method at a fixed place, so the two
      methods never write the same file and neither overwrites the mean
      image. */
  lemma OutputNameShape(outPath: string, m: Method, weightText: string, ext: string)
    ensures var r := OutputName(outPath, m, weightText, ext);
      && outPath <= r && |r| >= |outPath| + 11 + |ext| && r[|r| - |ext|..] == ext
      && r[|outPath|..|outPath| + 11] == (if m == Ggr then "recon_ggr-w" else "recon_tik-w")
  {
    var tag := if m == Ggr then "recon_ggr-w" else "recon_tik-w";
    var r := OutputName(outPath, m, weightText, ext);
    assert r == outPath + (tag + weightText + ext);
    assert (tag + weightText + ext)[..11] == tag;
  }

  lemma MethodsWriteDifferentFiles(outPath: string, weightText: string, ext: string)
    ensures OutputName(outPath, Ggr, weightText, ext) != OutputName(outPath, Tikhonov, weightText, ext)
  {
    OutputNameShape(outPath, Ggr, weightText, ext);
    OutputNameShape(outPath, Tikhonov, weightText, ext);
    assert "recon_ggr-w" != "recon_tik-w" by {
      assert "recon_ggr-w"[6] != "recon_tik-w"[6];
    }
  }

  lemma OutputIsNotMean(outPath: string, m: Method, weightText: string, ext: string, ext0: string)
    ensures OutputName(outPath, m, weightText, ext) != outPath + MeanEntry(ext0)
  {
    OutputNameShape(outPath, m, weightText, ext);
    var mean := outPath + MeanEntry(ext0);
    if |mean| > |outPath| {
      assert mean[|outPath|] == 'i';
    }
  }

  /** recon.py:142-145: `np.clip(x, 0, None)` voxel by voxel, or the real
      part unchanged under `--keep-negative-values`. */
  function Clip(xs: seq<real>, keepNegative: bool): (r: seq<real>)
    ensures |r| == |xs|
  {
    if keepNegative then xs
    else seq(|xs|, k requires 0 <= k < |xs| => if xs[k] < 0.0 then 0.0 else xs[k])
  }

  /** Clipping is `max(v, 0)`: nothing negative is left, non-negative values
      are kept, negative ones become zero; with the flag nothing changes. */
  lemma ClipValues(xs: seq<real>, keepNegative: bool)
    ensures keepNegative ==> Clip(xs, keepNegative) == xs
    ensures !keepNegative ==> forall k :: 0 <= k < |xs| ==>
      && Clip(xs, keepNegative)[k] >= 0.0
      && (xs[k] >= 0.0 ==> Clip(xs, keepNegative)[k] == xs[k])
      && (xs[k] < 0.0 ==> Clip(xs, keepNegative)[k] == 0.0)
  {
  }

  /** Clipping twice is clipping once. */
  lemma ClipIdempotent(xs: seq<real>, keepNegative: bool)
    ensures Clip(Clip(xs, keepNegative), keepNegative) == Clip(xs, keepNegative)
  {
  }
}
