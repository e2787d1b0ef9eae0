/** The working-directory manifest `data_fn.txt`: one line per view naming
    its registered, resampled volume and its filter file. Preprocessing
    writes it (preprocess.py:171-176); reconstruction reads it back
    (recon.py:54-75). */
module Manifest {
  import opened Common
  import opened Strings

  /** One manifest line as reconstruction keeps it. */
  datatype Entry = Entry(image: string, filter: string)

  /** `prefix = [''] + ['reg_'] * (n_imgs - 1)`: only the first view is
      used as it was resampled, the others after registration onto it. */
  function Prefix(i: nat): string {
    if i == 0 then "" else "reg_"
  }

  /** The image field of line `i`: prefix, base name, `_x`, extension. */
  function ImageField(i: nat, fn: string, ext: string): string {
    Prefix(i) + fn + "_x" + ext
  }

  /** The filter field: `h_` + base name + `.mat`. */
  function FilterField(fn: string): string {
    "h_" + fn + ".mat"
  }

  /** `'%s,%s\n' % (fn, 'h_' + img_fn[ii] + '.mat')`. */
  function ManifestLine(i: nat, fn: string, ext: string): (r: string)
    ensures |r| > 0 && r[|r| - 1] == '\n'
  {
    ImageField(i, fn, ext) + "," + FilterField(fn) + "\n"
  }

  /** The file's text from line `i` on. */
  function ManifestTextFrom(fns: seq<string>, exts: seq<string>, i: nat): string
    requires |fns| == |exts| && i <= |fns|
    decreases |fns| - i
  {
    if i == |fns| then "" else ManifestLine(i, fns[i], exts[i]) + ManifestTextFrom(fns, exts, i + 1)
  }

  /** The whole file for the recorded base names and extensions. */
  function ManifestText(fns: seq<string>, exts: seq<string>): (r: string)
    requires |fns| == |exts|
    ensures r == Concat(ManifestLinesFrom(fns, exts, 0))
  {
    TextIsConcat(fns, exts, 0);
    ManifestTextFrom(fns, exts, 0)
  }

  /** `fn = line[:-1].split(','); fn[0], fn[1]`: the last character is
      dropped, whatever it is; a line without a comma has no second field
      and the index raises. Fields after the second are ignored. */
  function ParseLine(line: string): (r: Result<Entry>)
    requires |line| > 0
    ensures r.Fail? <==> ',' !in line[..|line| - 1]
    ensures r.Fail? ==> r.error == MalformedManifestLine
    ensures r.Ok? ==> ',' !in r.value.image && ',' !in r.value.filter
  {
    var fields := Split(line[..|line| - 1], ',');
    if |fields| < 2 then
      SplitAbsentIff(line[..|line| - 1], ',');
      Fail(MalformedManifestLine)
    else
      SplitAbsentIff(line[..|line| - 1], ',');
      Ok(Entry(fields[0], fields[1]))
  }

  lemma SplitAbsentIff(s: string, c: char)
    ensures |Split(s, c)| == 1 <==> c !in s
  {
    var i := FirstIndex(s, c);
    if c in s {
      var j :| 0 <= j < |s| && s[j] == c;
      assert i <= j;
    }
  }

  /** The lines read so far, parsed in order; the first malformed line
      stops the run. */
  function ParseAll(lines: seq<string>): (r: Result<seq<Entry>>)
    requires forall k :: 0 <= k < |lines| ==> |lines[k]| > 0
    ensures r.Ok? ==> |r.value| == |lines|
  {
    if |lines| == 0 then Ok([])
    else
      var init := ParseAll(lines[..|lines| - 1]);
      if init.Fail? then init
      else
        var last := ParseLine(lines[|lines| - 1]);
        if last.Fail? then Fail(last.error) else Ok(init.value + [last.value])
  }

  /** Parsing succeeds exactly when every line has a comma before its last
      character, and then entry `k` is line `k` parsed. */
  lemma {:induction false} ParseAllLines(lines: seq<string>)
    requires forall k :: 0 <= k < |lines| ==> |lines[k]| > 0
    ensures ParseAll(lines).Ok? <==> forall k :: 0 <= k < |lines| ==> ParseLine(lines[k]).Ok?
    ensures ParseAll(lines).Fail? ==> ParseAll(lines).error == MalformedManifestLine
    ensures ParseAll(lines).Ok? ==>
      forall k :: 0 <= k < |lines| ==> ParseAll(lines).value[k] == ParseLine(lines[k]).value
  {
    if |lines| > 0 {
      var init := lines[..|lines| - 1];
      ParseAllLines(init);
      assert forall k :: 0 <= k < |init| ==> init[k] == lines[k];
      var before, last := ParseAll(init), ParseLine(lines[|lines| - 1]);
      if before.Ok? && last.Ok? {
        assert ParseAll(lines) == Ok(before.value + [last.value]);
      } else if before.Ok? {
        assert ParseAll(lines) == Fail(last.error);
      } else {
        assert ParseAll(lines) == before;
      }
    }
  }

  /** Pairs up the two lists reconstruction fills. */
  function Zip(imgFn: seq<string>, hFn: seq<string>): (r: seq<Entry>)
    requires |imgFn| == |hFn|
    ensures |r| == |imgFn| && forall k :: 0 <= k < |r| ==> r[k] == Entry(imgFn[k], hFn[k])
  {
    seq(|imgFn|, k requires 0 <= k < |imgFn| => Entry(imgFn[k], hFn[k]))
  }

  /** recon.py:54-75: a missing working directory and a missing manifest
      stop the run; otherwise each line is split into the image and filter
      lists, and an empty manifest stops the run before any computation. */
  method ReadManifest(workingDirExists: bool, manifest: Option<string>) returns (r: Result<(seq<string>, seq<string>)>)
    ensures !workingDirExists ==> r == Fail(NoWorkingData)
    ensures workingDirExists && manifest.None? ==> r == Fail(MissingManifest)
    ensures workingDirExists && manifest.Some? ==>
      var parsed := ParseAll(ReadLines(manifest.value));
      && (r.Ok? <==> parsed.Ok? && parsed.value != [])
      && (r == Fail(NoImages) <==> parsed == Ok([]))
      && (r == Fail(MalformedManifestLine) <==> parsed.Fail?)
      && (r.Ok? ==> parsed.Ok? && |r.value.0| == |r.value.1| >= 1 && Zip(r.value.0, r.value.1) == parsed.value)
  {
    if !workingDirExists {
      return Fail(NoWorkingData);
    }
    if manifest.None? {
      return Fail(MissingManifest);
    }
    var lines := ReadLines(manifest.value);
    var imgFn: seq<string> := [];
    var hFn: seq<string> := [];
    for i := 0 to |lines|
      invariant |imgFn| == |hFn| == i
      invariant ParseAll(lines[..i]) == Ok(Zip(imgFn, hFn))
    {
      assert lines[..i + 1][..i] == lines[..i];
      var entry := ParseLine(lines[i]);
      if entry.Fail? {
        LineFails(lines, i);
        return Fail(MalformedManifestLine);
      }
      assert Zip(imgFn + [entry.value.image], hFn + [entry.value.filter]) == Zip(imgFn, hFn) + [entry.value];
      imgFn, hFn := imgFn + [entry.value.image], hFn + [entry.value.filter];
    }
    assert lines[..|lines|] == lines;
    if |imgFn| == 0 {
      return Fail(NoImages);
    }
    r := Ok((imgFn, hFn));
  }

  /** One malformed line fails the whole manifest. */
  lemma LineFails(lines: seq<string>, i: nat)
    requires forall k :: 0 <= k < |lines| ==> |lines[k]| > 0
    requires i < |lines| && ParseLine(lines[i]).Fail?
    ensures ParseAll(lines).Fail?
  {
    ParseAllLines(lines);
  }

  /** The records written from line `i` on, one per view. */
  function ManifestLinesFrom(fns: seq<string>, exts: seq<string>, i: nat): (r: seq<string>)
    requires |fns| == |exts| && i <= |fns|
    ensures |r| == |fns| - i
    decreases |fns| - i
  {
    if i == |fns| then [] else [ManifestLine(i, fns[i], exts[i])] + ManifestLinesFrom(fns, exts, i + 1)
  }

  lemma {:induction false} ManifestLinesFromAt(fns: seq<string>, exts: seq<string>, i: nat, k: nat)
    requires |fns| == |exts| && i <= k < |fns|
    ensures ManifestLinesFrom(fns, exts, i)[k - i] == ManifestLine(k, fns[k], exts[k])
    decreases k - i
  {
    if i < k {
      ManifestLinesFromAt(fns, exts, i + 1, k);
    }
  }

  /** For names without line breaks, the manifest is read as one line per
      view, and line `i` is the written record of view `i`, newline
      included. */
  lemma ManifestTextLines(fns: seq<string>, exts: seq<string>, i: nat)
    requires |fns| == |exts| && i <= |fns|
    requires forall k :: 0 <= k < |fns| ==>
      '\n' !in fns[k] && '\n' !in exts[k] && '\r' !in fns[k] && '\r' !in exts[k]
    ensures ReadLines(ManifestTextFrom(fns, exts, i)) == ManifestLinesFrom(fns, exts, i)
  {
    TextAvoids(fns, exts, i, '\r');
    TranslateKeepsPlainText(ManifestTextFrom(fns, exts, i));
    TextIsConcat(fns, exts, i);
    RecordsAreLines(fns, exts, i);
    LinesOfConcat(ManifestLinesFrom(fns, exts, i));
  }

  /** Every written record ends in its only newline. */
  lemma RecordsAreLines(fns: seq<string>, exts: seq<string>, i: nat)
    requires |fns| == |exts| && i <= |fns|
    requires forall k :: 0 <= k < |fns| ==> '\n' !in fns[k] && '\n' !in exts[k]
    ensures forall k :: 0 <= k < |ManifestLinesFrom(fns, exts, i)| ==> IsLine(ManifestLinesFrom(fns, exts, i)[k])
  {
    var ls := ManifestLinesFrom(fns, exts, i);
    forall k | 0 <= k < |ls|
      ensures IsLine(ls[k])
    {
      ManifestLinesFromAt(fns, exts, i, i + k);
      ManifestLineIsLine(i + k, fns[i + k], exts[i + k]);
    }
  }

  /** The text is the written lines one after the other. */
  lemma {:induction false} TextIsConcat(fns: seq<string>, exts: seq<string>, i: nat)
    requires |fns| == |exts| && i <= |fns|
    ensures ManifestTextFrom(fns, exts, i) == Concat(ManifestLinesFrom(fns, exts, i))
    decreases |fns| - i
  {
    if i < |fns| {
      TextIsConcat(fns, exts, i + 1);
      var ls := ManifestLinesFrom(fns, exts, i);
      assert ls[1..] == ManifestLinesFrom(fns, exts, i + 1);
    }
  }

  /** A character in no name and no fixed part is nowhere in the text. */
  lemma {:induction false} TextAvoids(fns: seq<string>, exts: seq<string>, i: nat, c: char)
    requires |fns| == |exts| && i <= |fns|
    requires forall k :: 0 <= k < |fns| ==> c !in fns[k] && c !in exts[k]
    requires c != '\n' && c !in "reg_h.mat,x"
    ensures c !in ManifestTextFrom(fns, exts, i)
    decreases |fns| - i
  {
    if i < |fns| {
      TextAvoids(fns, exts, i + 1, c);
      NoCharInFields(i, fns[i], exts[i], c);
      var body := ImageField(i, fns[i], exts[i]) + "," + FilterField(fns[i]);
      var line := ManifestLine(i, fns[i], exts[i]);
      assert line == body + "\n";
      AvoidConcat(c, body, "\n");
      AvoidConcat(c, line, ManifestTextFrom(fns, exts, i + 1));
    }
  }

  lemma AvoidConcat(c: char, a: string, b: string)
    requires c !in a && c !in b
    ensures c !in a + b
  {
    forall j | 0 <= j < |a + b|
      ensures (a + b)[j] != c
    {
      if j < |a| {
        assert (a + b)[j] == a[j];
      } else {
        assert (a + b)[j] == b[j - |a|];
      }
    }
  }

  /** A written record ends in its only newline. */
  lemma ManifestLineIsLine(i: nat, fn: string, ext: string)
    requires '\n' !in fn && '\n' !in ext
    ensures IsLine(ManifestLine(i, fn, ext))
  {
    var body := ImageField(i, fn, ext) + "," + FilterField(fn);
    NoCharInFields(i, fn, ext, '\n');
    var line := ManifestLine(i, fn, ext);
    assert line == body + "\n";
    assert line[..|line| - 1] == body;
  }

  /** A character that appears in no base name and no extension, and is
      none of the fixed characters, appears in no field. */
  lemma NoCharInFields(i: nat, fn: string, ext: string, c: char)
    requires c !in fn && c !in ext
    requires c !in "reg_h.mat,x"
    ensures c !in ImageField(i, fn, ext) + "," + FilterField(fn)
    ensures c != ','
  {
    var s := ImageField(i, fn, ext) + "," + FilterField(fn);
    forall j | 0 <= j < |s|
      ensures s[j] != c
    {
    }
  }

  /** Each written line parses back into the fields it was written from. */
  lemma ParseManifestLine(i: nat, fn: string, ext: string)
    requires ',' !in fn && ',' !in ext && '\n' !in fn && '\n' !in ext
    ensures ParseLine(ManifestLine(i, fn, ext)) == Ok(Entry(ImageField(i, fn, ext), FilterField(fn)))
  {
    var a := ImageField(i, fn, ext);
    var b := FilterField(fn);
    var line := ManifestLine(i, fn, ext);
    assert line[..|line| - 1] == a + [','] + b;
    assert ',' !in a by {
      forall j | 0 <= j < |a| ensures a[j] != ',' { }
    }
    assert ',' !in b by {
      forall j | 0 <= j < |b| ensures b[j] != ',' { }
    }
    SplitAfter(a, ',', b);
    SplitAbsent(b, ',');
  }

  /** The round trip of the working-directory protocol: for base names and
      extensions without commas or line breaks, reading the manifest that
      preprocessing writes yields, for every view in order, the name of its
      registered volume and the name of its filter file. */
  lemma ManifestRoundTrip(fns: seq<string>, exts: seq<string>)
    requires |fns| == |exts|
    requires forall k :: 0 <= k < |fns| ==> PlainName(fns[k]) && PlainName(exts[k])
    ensures var parsed := ParseAll(ReadLines(ManifestText(fns, exts)));
      && parsed.Ok? && |parsed.value| == |fns|
      && forall k :: 0 <= k < |fns| ==>
        parsed.value[k] == Entry(Prefix(k) + fns[k] + "_x" + exts[k], "h_" + fns[k] + ".mat")
  {
    ManifestTextLines(fns, exts, 0);
    var lines := ReadLines(ManifestText(fns, exts));
    forall k | 0 <= k < |fns|
      ensures ParseLine(lines[k]) == Ok(Entry(ImageField(k, fns[k], exts[k]), FilterField(fns[k])))
    {
      ManifestLinesFromAt(fns, exts, 0, k);
      ParseManifestLine(k, fns[k], exts[k]);
    }
    ParseAllLines(lines);
  }

  /** The manifest of at least one view is never read as empty. */
  lemma ManifestNotEmpty(fns: seq<string>, exts: seq<string>)
    requires |fns| == |exts| >= 1
    requires forall k :: 0 <= k < |fns| ==> PlainName(fns[k]) && PlainName(exts[k])
    ensures ParseAll(ReadLines(ManifestText(fns, exts))) != Ok([])
  {
    ManifestRoundTrip(fns, exts);
  }

  /** A name part that survives the manifest: no field separator and no
      line break of any kind. */
  predicate PlainName(s: string) {
    ',' !in s && '\n' !in s && '\r' !in s
  }

  /** Preprocessing followed by reconstruction: the manifest written for
      one or more views is read without error, and gives every view's
      registered-volume name and filter name in order. */
  method ReadWrittenManifest(fns: seq<string>, exts: seq<string>) returns (r: Result<(seq<string>, seq<string>)>)
    requires |fns| == |exts| >= 1
    requires forall k :: 0 <= k < |fns| ==> PlainName(fns[k]) && PlainName(exts[k])
    ensures r.Ok? && |r.value.0| == |r.value.1| == |fns|
    ensures forall k :: 0 <= k < |fns| ==>
      r.value.0[k] == Prefix(k) + fns[k] + "_x" + exts[k] && r.value.1[k] == "h_" + fns[k] + ".mat"
  {
    ManifestRoundTrip(fns, exts);
    r := ReadManifest(true, Some(ManifestText(fns, exts)));
  }

  /** The text starts with the first base name. */
  lemma FirstLineSplit(fns: seq<string>, exts: seq<string>) returns (tail: string)
    requires |fns| == |exts| >= 1
    ensures ManifestText(fns, exts) == fns[0] + tail
  {
    var more := ManifestTextFrom(fns, exts, 1);
    var after := RecordAfterName(fns[0], exts[0]);
    assert ManifestText(fns, exts) == ManifestLine(0, fns[0], exts[0]) + more;
    tail := after + more;
    StringAssoc(fns[0], after, more);
  }

  /** The first record starts with the base name itself. */
  lemma RecordAfterName(fn: string, ext: string) returns (after: string)
    ensures ManifestLine(0, fn, ext) == fn + after
  {
    after := "_x" + ext + "," + FilterField(fn) + "\n";
    assert ImageField(0, fn, ext) == fn + "_x" + ext;
  }

  lemma StringAssoc(a: string, b: string, c: string)
    ensures (a + b) + c == a + (b + c)
  {
  }

  lemma Regroup(a: string, b: string, tail: string)
    ensures (a + "\r" + b) + tail == a + ("\r" + (b + tail))
  {
  }

  /** A carriage return in the first base name ends the first line read
      early: that line holds no comma and reconstruction stops, although
      preprocessing wrote a well-formed record. */
  lemma ReturnInNameBreaksManifest(fns: seq<string>, exts: seq<string>, a: string, b: string)
    requires |fns| == |exts| >= 1
    requires fns[0] == a + "\r" + b && ',' !in a && '\n' !in a && '\r' !in a
    ensures ParseAll(ReadLines(ManifestText(fns, exts))).Fail?
  {
    var text := ManifestText(fns, exts);
    var tail := FirstLineSplit(fns, exts);
    var rest := b + tail;
    Regroup(a, b, tail);
    TranslatePlainPrefix(a, "\r" + rest);
    TranslateReturn(rest);
    var t := Translate(if |rest| > 0 && rest[0] == '\n' then rest[1..] else rest);
    assert Translate(text) == a + "\n" + t;
    LinesCons(a, t);
    var lines := ReadLines(text);
    var first := a + "\n";
    assert lines[0] == first;
    assert first[..|first| - 1] == a;
    LineFails(lines, 0);
  }
}
