/** How preprocessing takes each input path apart into a directory, a base
    name and an extension (preprocess.py:73-82), using the POSIX reading of
    `pathlib.PurePosixPath` and `str.partition('.')`. */
module InputNames {
  import opened Strings

  /** The components `PurePosixPath` keeps: empty components (from repeated
      or trailing slashes) and `.` components are dropped. */
  function Parts(pieces: seq<string>): (r: seq<string>)
    decreases |pieces|
  {
    if pieces == [] then []
    else (if pieces[0] == "" || pieces[0] == "." then [] else [pieces[0]]) + Parts(pieces[1..])
  }

  predicate Proper(piece: string) {
    piece != "" && piece != "."
  }

  lemma {:induction false} PartsOfProper(pieces: seq<string>)
    requires forall k :: 0 <= k < |pieces| ==> Proper(pieces[k])
    ensures Parts(pieces) == pieces
    decreases |pieces|
  {
    if pieces != [] {
      PartsOfProper(pieces[1..]);
      assert pieces == [pieces[0]] + pieces[1..];
    }
  }

  function Components(path: string): seq<string>
  {
    Parts(Split(path, '/'))
  }

  /** Kept components are never empty, never `.`, and hold no slash. */
  lemma {:induction false} PartsShape(pieces: seq<string>, c: char)
    requires forall j :: 0 <= j < |pieces| ==> c !in pieces[j]
    ensures forall k :: 0 <= k < |Parts(pieces)| ==> Proper(Parts(pieces)[k]) && c !in Parts(pieces)[k]
    decreases |pieces|
  {
    if pieces != [] {
      PartsShape(pieces[1..], c);
    }
  }

  lemma ComponentsShape(path: string)
    ensures forall k :: 0 <= k < |Components(path)| ==>
      Proper(Components(path)[k]) && '/' !in Components(path)[k]
  {
    PartsShape(Split(path, '/'), '/');
  }

  predicate IsAbsolute(path: string) {
    |path| > 0 && path[0] == '/'
  }

  /** `PurePosixPath(path).name`: the last kept component, or "" if none. */
  function Name(path: string): string
  {
    var parts := Components(path);
    if |parts| == 0 then "" else parts[|parts| - 1]
  }

  lemma NameHasNoSlash(path: string)
    ensures '/' !in Name(path)
  {
    ComponentsShape(path);
  }

  /** `str(PurePosixPath(path).parent)`. */
  function Parent(path: string): string
  {
    ParentOf(Components(path), IsAbsolute(path))
  }

  /** The parent of the kept components `parts`. */
  function ParentOf(parts: seq<string>, absolute: bool): string
  {
    if |parts| <= 1 then (if absolute then "/" else ".")
    else (if absolute then "/" else "") + Join(parts[..|parts| - 1], '/')
  }

  /** The directory as preprocessing records it: the parent, with a `/`
      appended unless it already ends in one. */
  function Directory(path: string): string
  {
    var p := Parent(path);
    if |p| > 0 && p[|p| - 1] == '/' then p else p + "/"
  }

  /** One input file as preprocessing records it in `img_path`, `img_fn`
      and `img_ext`. */
  datatype InputName = InputName(dir: string, base: string, ext: string)

  /** `base, _, rest = name.partition('.')`: the text before the first dot
      and the text after it; with no dot, the whole name and "". */
  function PartitionDot(name: string): (r: (string, string))
    ensures '.' !in r.0
    ensures '.' in name ==> name == r.0 + "." + r.1
    ensures '.' !in name ==> r.0 == name && r.1 == ""
  {
    var i := FirstIndex(name, '.');
    if i == |name| then
      assert name[..i] == name;
      (name, "")
    else
      assert name == name[..i] + "." + name[i + 1..];
      (name[..i], name[i + 1..])
  }

  lemma NoSlashInPartition(name: string)
    requires '/' !in name
    ensures '/' !in PartitionDot(name).0 && '/' !in "." + PartitionDot(name).1
  {
    var parted := PartitionDot(name);
    if '.' in name {
      assert forall j :: 0 <= j < |parted.0| ==> parted.0[j] == name[j];
      assert forall j :: 0 <= j < |parted.1| ==> parted.1[j] == name[|parted.0| + 1 + j];
    }
  }

  /** The entry preprocessing records for one input path. */
  function SplitInputPath(path: string): InputName
  {
    var parted := PartitionDot(Name(path));
    InputName(Directory(path), parted.0, "." + parted.1)
  }

  /** The recorded directory ends in `/`; the base is the file name up to
      its first dot and holds neither a dot nor a slash; the extension is a
      dot followed by the rest of the name, so base and extension spell the
      name again, and a name without a dot gets the whole name as base and
      a lone `.` as extension. */
  lemma InputNameShape(path: string)
    ensures var r := SplitInputPath(path);
      && |r.dir| > 0 && r.dir[|r.dir| - 1] == '/'
      && '.' !in r.base && '/' !in r.base
      && |r.ext| >= 1 && r.ext[0] == '.' && '/' !in r.ext
      && ('.' in Name(path) ==> r.base + r.ext == Name(path))
      && ('.' !in Name(path) ==> r.base == Name(path) && r.ext == ".")
  {
    NameHasNoSlash(path);
    NameParts(Name(path));
    DirectoryEndsWithSlash(path);
  }

  /** What the partition of a file name yields. */
  lemma NameParts(name: string)
    requires '/' !in name
    ensures var parted := PartitionDot(name); var ext := "." + parted.1;
      && '.' !in parted.0 && '/' !in parted.0
      && |ext| >= 1 && ext[0] == '.' && '/' !in ext
      && ('.' in name ==> parted.0 + ext == name)
      && ('.' !in name ==> parted.0 == name && ext == ".")
  {
    NoSlashInPartition(name);
    var parted := PartitionDot(name);
    if '.' in name {
      assert parted.0 + ("." + parted.1) == parted.0 + "." + parted.1;
    }
  }

  lemma DirectoryEndsWithSlash(path: string)
    ensures var d := Directory(path); |d| > 0 && d[|d| - 1] == '/'
  {
    var p := Parent(path);
    if !(|p| > 0 && p[|p| - 1] == '/') {
      assert Directory(path) == p + "/";
      assert (p + "/")[|p|] == '/';
    }
  }

  /** The entries recorded for a list of input paths, one per path. */
  function SplitAll(flist: seq<string>): (r: seq<InputName>)
    ensures |r| == |flist|
  {
    if |flist| == 0 then [] else SplitAll(flist[..|flist| - 1]) + [SplitInputPath(flist[|flist| - 1])]
  }

  lemma {:induction false} SplitAllAt(flist: seq<string>, k: nat)
    requires k < |flist|
    ensures SplitAll(flist)[k] == SplitInputPath(flist[k])
  {
    if k < |flist| - 1 {
      SplitAllAt(flist[..|flist| - 1], k);
    }
  }

  /** The loop of preprocess.py:73-82, appending to three lists: entry `i`
      of each list comes from input path `i`. */
  method SplitInputs(flist: seq<string>) returns (imgPath: seq<string>, imgFn: seq<string>, imgExt: seq<string>)
    ensures |imgPath| == |imgFn| == |imgExt| == |flist|
    ensures forall i :: 0 <= i < |flist| ==>
      InputName(imgPath[i], imgFn[i], imgExt[i]) == SplitInputPath(flist[i])
  {
    imgPath, imgFn, imgExt := [], [], [];
    for i := 0 to |flist|
      invariant |imgPath| == |imgFn| == |imgExt| == i
      invariant forall j :: 0 <= j < i ==>
        InputName(imgPath[j], imgFn[j], imgExt[j]) == SplitAll(flist[..i])[j]
    {
      assert flist[..i + 1][..i] == flist[..i];
      var r := SplitInputPath(flist[i]);
      imgPath, imgFn, imgExt := imgPath + [r.dir], imgFn + [r.base], imgExt + [r.ext];
    }
    assert flist[..|flist|] == flist;
    forall i | 0 <= i < |flist|
      ensures InputName(imgPath[i], imgFn[i], imgExt[i]) == SplitInputPath(flist[i])
    {
      SplitAllAt(flist, i);
    }
  }

  lemma SplitHasTwoPieces(s: string, c: char)
    requires c in s
    ensures |Split(s, c)| >= 2
  {
    var i := FirstIndex(s, c);
    var j :| 0 <= j < |s| && s[j] == c;
    assert i <= j;
  }

  lemma FirstPieceEmptyIffAbsolute(path: string)
    requires |path| > 0
    ensures Split(path, '/')[0] == "" <==> IsAbsolute(path)
  {
    var i := FirstIndex(path, '/');
    assert Split(path, '/')[0] == path[..i];
    assert IsAbsolute(path) ==> i == 0;
  }

  /** The suffix of a join is its last part. */
  lemma JoinLastChar(parts: seq<string>, c: char)
    requires |parts| >= 1 && |parts[|parts| - 1]| > 0
    ensures var j := Join(parts, c); var l := parts[|parts| - 1];
      |j| > 0 && j[|j| - 1] == l[|l| - 1]
  {
    var n := |parts|;
    if n > 1 {
      assert parts == parts[..n - 1] + [parts[n - 1]];
      JoinAppend(parts[..n - 1], c, parts[n - 1]);
    }
  }

  /** Below a kept directory part, the parent is the join of all kept
      parts but the last, and the directory adds one slash to it. */
  lemma DirectoryOfDeepPath(path: string, parts: seq<string>, lead: string)
    requires parts == Components(path) && |parts| >= 2
    requires lead == (if IsAbsolute(path) then "/" else "")
    ensures Directory(path) + Name(path) == lead + Join(parts, '/')
  {
    ComponentsShape(path);
    JoinWithSlash(parts, lead);
    DeepDirectory(path, parts, lead);
  }

  lemma DeepDirectory(path: string, parts: seq<string>, lead: string)
    requires parts == Components(path) && |parts| >= 2
    requires lead == (if IsAbsolute(path) then "/" else "")
    requires var p := lead + Join(parts[..|parts| - 1], '/'); |p| > 0 && p[|p| - 1] != '/'
    ensures Directory(path) == lead + Join(parts[..|parts| - 1], '/') + "/"
    ensures Name(path) == parts[|parts| - 1]
  {
    assert ParentOf(parts, IsAbsolute(path)) == lead + Join(parts[..|parts| - 1], '/');
  }

  lemma JoinWithSlash(parts: seq<string>, lead: string)
    requires |parts| >= 2
    requires forall k :: 0 <= k < |parts| ==> Proper(parts[k]) && '/' !in parts[k]
    ensures var p := lead + Join(parts[..|parts| - 1], '/');
      && |p| > 0 && p[|p| - 1] != '/'
      && p + "/" + parts[|parts| - 1] == lead + Join(parts, '/')
  {
    var m := |parts|;
    JoinLastChar(parts[..m - 1], '/');
    assert parts == parts[..m - 1] + [parts[m - 1]];
    JoinAppend(parts[..m - 1], '/', parts[m - 1]);
  }

  /** An absolute path without redundant components: its kept components
      are the pieces after the leading empty one, and it is `/` followed
      by their join. */
  lemma AbsoluteComponents(path: string)
    requires '/' in path
    requires Split(path, '/')[0] == ""
    requires forall k :: 1 <= k < |Split(path, '/')| ==> Proper(Split(path, '/')[k])
    ensures var parts := Split(path, '/')[1..];
      && |parts| >= 1 && IsAbsolute(path)
      && Components(path) == parts
      && path == "/" + Join(parts, '/')
  {
    var pieces := Split(path, '/');
    SplitHasTwoPieces(path, '/');
    JoinSplit(path, '/');
    FirstPieceEmptyIffAbsolute(path);
    var parts := pieces[1..];
    assert forall k :: 0 <= k < |parts| ==> parts[k] == pieces[k + 1];
    PartsOfProper(parts);
    PartsDropEmpty(pieces);
    JoinHead(pieces, '/');
  }

  lemma PartsDropEmpty(pieces: seq<string>)
    requires |pieces| >= 1 && pieces[0] == ""
    ensures Parts(pieces) == Parts(pieces[1..])
  {
    assert Parts(pieces) == [] + Parts(pieces[1..]);
  }

  lemma JoinHead(parts: seq<string>, c: char)
    requires |parts| >= 2
    ensures Join(parts, c) == parts[0] + [c] + Join(parts[1..], c)
  {
  }

  lemma AbsoluteDirectoryThenName(path: string)
    requires '/' in path
    requires Split(path, '/')[0] == ""
    requires forall k :: 1 <= k < |Split(path, '/')| ==> Proper(Split(path, '/')[k])
    ensures Directory(path) + Name(path) == path
  {
    AbsoluteComponents(path);
    var parts := Split(path, '/')[1..];
    if |parts| >= 2 {
      DirectoryOfDeepPath(path, parts, "/");
    } else {
      TopLevelName(path, parts);
    }
  }

  /** A file directly below the root. */
  lemma TopLevelName(path: string, parts: seq<string>)
    requires IsAbsolute(path) && Components(path) == parts && |parts| == 1
    requires path == "/" + Join(parts, '/')
    ensures Directory(path) + Name(path) == path
  {
    assert Parent(path) == "/";
    assert Directory(path) == "/";
    assert Name(path) == parts[0];
  }

  lemma RelativeDirectoryThenName(path: string)
    requires '/' in path
    requires forall k :: 0 <= k < |Split(path, '/')| ==> Proper(Split(path, '/')[k])
    ensures Directory(path) + Name(path) == path
  {
    var pieces := Split(path, '/');
    SplitHasTwoPieces(path, '/');
    JoinSplit(path, '/');
    FirstPieceEmptyIffAbsolute(path);
    PartsOfProper(pieces);
    DirectoryOfDeepPath(path, pieces, "");
  }

  /** For a path written without redundant separators or `.` components
      and holding a dotted file name below some directory, the recorded
      directory, base and extension spell the path again: the input volume
      name built at preprocess.py:89 is the path that was given. */
  lemma RebuildInputPath(path: string)
    requires '/' in path
    requires Split(path, '/')[0] != "."
    requires forall k :: 1 <= k < |Split(path, '/')| ==> Proper(Split(path, '/')[k])
    requires '.' in Name(path)
    ensures var r := SplitInputPath(path); r.dir + r.base + r.ext == path
  {
    var r := SplitInputPath(path);
    DirectoryThenName(path);
    BaseThenExtension(path);
    Reassemble(r.dir, r.base, r.ext, Name(path), path);
  }

  lemma Reassemble(dir: string, base: string, ext: string, name: string, path: string)
    requires base + ext == name && dir + name == path
    ensures dir + base + ext == path
  {
    assert dir + base + ext == dir + (base + ext);
  }

  lemma DirectoryThenName(path: string)
    requires '/' in path
    requires Split(path, '/')[0] != "."
    requires forall k :: 1 <= k < |Split(path, '/')| ==> Proper(Split(path, '/')[k])
    ensures Directory(path) + Name(path) == path
  {
    if Split(path, '/')[0] == "" {
      AbsoluteDirectoryThenName(path);
    } else {
      RelativeDirectoryThenName(path);
    }
  }

  lemma BaseThenExtension(path: string)
    requires '.' in Name(path)
    ensures var r := SplitInputPath(path); r.dir == Directory(path) && r.base + r.ext == Name(path)
  {
    InputNameShape(path);
  }
}
