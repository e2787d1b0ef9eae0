/** The string operations the scripts lean on: Python's `str.split`,
    `str.join`, and the way iterating over a text file yields lines. */
module Strings {

  /** The position of the first `c` in `s`, or `|s|` when there is none. */
  function FirstIndex(s: string, c: char): (i: nat)
    ensures i <= |s|
    ensures i < |s| ==> s[i] == c
    ensures forall j :: 0 <= j < i ==> s[j] != c
  {
    if s == [] then 0
    else if s[0] == c then 0
    else 1 + FirstIndex(s[1..], c)
  }

  lemma FirstIndexAfter(a: string, c: char, b: string)
    requires c !in a
    ensures FirstIndex(a + [c] + b, c) == |a|
  {
    assert forall j :: 0 <= j < |a| ==> (a + [c] + b)[j] == a[j];
    assert (a + [c] + b)[|a|] == c;
  }

  lemma FirstIndexAbsent(s: string, c: char)
    requires c !in s
    ensures FirstIndex(s, c) == |s|
  {
  }

  /** `s.split(c)` for a one-character separator: the pieces between
      separators, always at least one. */
  function Split(s: string, c: char): (r: seq<string>)
    ensures |r| >= 1
    ensures forall k :: 0 <= k < |r| ==> c !in r[k]
    decreases |s|
  {
    var i := FirstIndex(s, c);
    if i == |s| then [s] else [s[..i]] + Split(s[i + 1..], c)
  }

  /** `c.join(parts)`. */
  function Join(parts: seq<string>, c: char): string
  {
    if |parts| == 0 then ""
    else if |parts| == 1 then parts[0]
    else parts[0] + [c] + Join(parts[1..], c)
  }

  /** Splitting and joining again on the same separator gives back the string. */
  lemma {:induction false} JoinSplit(s: string, c: char)
    ensures Join(Split(s, c), c) == s
    decreases |s|
  {
    var i := FirstIndex(s, c);
    if i < |s| {
      var rest := s[i + 1..];
      JoinSplit(rest, c);
      assert Split(s, c) == [s[..i]] + Split(rest, c);
      assert (Split(s, c))[1..] == Split(rest, c);
      assert s == s[..i] + [c] + rest;
    }
  }

  lemma SplitAbsent(s: string, c: char)
    requires c !in s
    ensures Split(s, c) == [s]
  {
    FirstIndexAbsent(s, c);
  }

  lemma SplitAfter(a: string, c: char, b: string)
    requires c !in a
    ensures Split(a + [c] + b, c) == [a] + Split(b, c)
  {
    var s := a + [c] + b;
    FirstIndexAfter(a, c, b);
    assert s[..|a|] == a;
    assert s[|a| + 1..] == b;
  }

  lemma JoinAppend(parts: seq<string>, c: char, last: string)
    requires |parts| >= 1
    ensures Join(parts + [last], c) == Join(parts, c) + [c] + last
    decreases |parts|
  {
    var whole := parts + [last];
    if |parts| > 1 {
      var rest := parts[1..];
      assert whole[1..] == rest + [last];
      JoinAppend(rest, c, last);
      assert Join(whole, c) == parts[0] + [c] + Join(rest + [last], c);
      assert Join(parts, c) == parts[0] + [c] + Join(rest, c);
    } else {
      assert whole[1..] == [last];
      assert Join(whole, c) == parts[0] + [c] + Join([last], c);
    }
  }

  /** Text cut after every `\n`: each piece keeps its terminating newline;
      only the last may lack one. It is how iteration over a text file
      splits the text once its newlines are translated (see ReadLines). */
  function Lines(s: string): (r: seq<string>)
    ensures forall k :: 0 <= k < |r| ==> |r[k]| > 0
    decreases |s|
  {
    if s == [] then []
    else
      var i := FirstIndex(s, '\n');
      if i == |s| then [s]
      else [s[..i + 1]] + Lines(s[i + 1..])
  }

  /** The universal-newline translation of a file opened in text mode with
      the default `newline=None`: `\r\n` and a lone `\r` are each read as
      `\n`; every other character is read as it is. */
  function Translate(s: string): (r: string)
    ensures |r| <= |s|
    decreases |s|
  {
    if s == [] then []
    else if s[0] == '\r' then "\n" + Translate(if |s| > 1 && s[1] == '\n' then s[2..] else s[1..])
    else [s[0]] + Translate(s[1..])
  }

  /** No carriage return survives the translation. */
  lemma {:induction false} TranslateRemovesReturns(s: string)
    ensures '\r' !in Translate(s)
    decreases |s|
  {
    if s != [] {
      if s[0] == '\r' {
        TranslateRemovesReturns(if |s| > 1 && s[1] == '\n' then s[2..] else s[1..]);
      } else {
        TranslateRemovesReturns(s[1..]);
      }
    }
  }

  /** Text without carriage returns is read exactly as it is written. */
  lemma {:induction false} TranslateKeepsPlainText(s: string)
    requires '\r' !in s
    ensures Translate(s) == s
    decreases |s|
  {
    if s != [] {
      TranslateKeepsPlainText(s[1..]);
      assert s == [s[0]] + s[1..];
    }
  }

  /** Translating twice is translating once. */
  lemma TranslateIdempotent(s: string)
    ensures Translate(Translate(s)) == Translate(s)
  {
    TranslateRemovesReturns(s);
    TranslateKeepsPlainText(Translate(s));
  }

  /** A prefix without carriage returns is read as it is, whatever follows. */
  lemma {:induction false} TranslatePlainPrefix(a: string, b: string)
    requires '\r' !in a
    ensures Translate(a + b) == a + Translate(b)
    decreases |a|
  {
    if a != [] {
      assert (a + b)[1..] == a[1..] + b;
      TranslatePlainPrefix(a[1..], b);
      assert a == [a[0]] + a[1..];
    } else {
      assert a + b == b;
    }
  }

  /** A carriage return, alone or before a newline, is read as one
      newline. */
  lemma TranslateReturn(b: string)
    ensures var rest := if |b| > 0 && b[0] == '\n' then b[1..] else b;
      Translate("\r" + b) == "\n" + Translate(rest)
  {
    var s := "\r" + b;
    assert s[0] == '\r';
    if |b| > 0 {
      assert s[1] == b[0];
      assert s[2..] == b[1..];
    }
    assert s[1..] == b;
  }

  /** The lines Python yields when iterating over a file opened in text
      mode (recon.py:65-66): the translated text, cut after each newline. */
  function ReadLines(s: string): (r: seq<string>)
    ensures forall k :: 0 <= k < |r| ==> |r[k]| > 0
  {
    Lines(Translate(s))
  }

  /** The lines read spell the translated text, hold no carriage return,
      and all but the last end in their only newline. */
  lemma ReadLinesShape(s: string)
    ensures Concat(ReadLines(s)) == Translate(s)
    ensures var r := ReadLines(s);
      && (forall k :: 0 <= k < |r| ==> '\r' !in r[k])
      && (forall k :: 0 <= k < |r| - 1 ==> r[k][|r[k]| - 1] == '\n')
      && (forall k :: 0 <= k < |r| ==> '\n' !in r[k][..|r[k]| - 1])
  {
    LinesConcat(Translate(s));
    LinesEnd(Translate(s));
    TranslateRemovesReturns(s);
    LinesAvoid(Translate(s), '\r');
  }

  /** A character absent from the text is absent from every line. */
  lemma {:induction false} LinesAvoid(s: string, c: char)
    requires c !in s
    ensures forall k :: 0 <= k < |Lines(s)| ==> c !in Lines(s)[k]
    decreases |s|
  {
    if s != [] {
      var i := FirstIndex(s, '\n');
      if i < |s| {
        LinesAvoid(s[i + 1..], c);
        LinesSplitOff(s, i);
        assert c !in s[..i + 1];
        ConsAvoid(s[..i + 1], Lines(s[i + 1..]), c);
      } else {
        assert Lines(s) == [s];
      }
    }
  }

  lemma ConsAvoid(head: string, tail: seq<string>, c: char)
    requires c !in head && forall k :: 0 <= k < |tail| ==> c !in tail[k]
    ensures forall k :: 0 <= k < |[head] + tail| ==> c !in ([head] + tail)[k]
  {
    var r := [head] + tail;
    assert forall k :: 1 <= k < |r| ==> r[k] == tail[k - 1];
  }

  /** The lines spell the text again. */
  lemma {:induction false} LinesConcat(s: string)
    ensures Concat(Lines(s)) == s
    decreases |s|
  {
    if s != [] {
      var i := FirstIndex(s, '\n');
      if i < |s| {
        LinesConcat(s[i + 1..]);
        LinesConcatStep(s, i);
      } else {
        LinesConcatLast(s);
      }
    }
  }

  lemma LinesConcatStep(s: string, i: nat)
    requires s != [] && i == FirstIndex(s, '\n') && i < |s|
    requires Concat(Lines(s[i + 1..])) == s[i + 1..]
    ensures Concat(Lines(s)) == s
  {
    LinesSplitOff(s, i);
    SplitAt(s, i + 1);
    Glue(s, s[..i + 1], s[i + 1..], Lines(s), Lines(s[i + 1..]));
  }

  lemma SplitAt(s: string, n: nat)
    requires n <= |s|
    ensures s == s[..n] + s[n..]
  {
  }

  lemma LinesConcatLast(s: string)
    requires s != [] && FirstIndex(s, '\n') == |s|
    ensures Concat(Lines(s)) == s
  {
    assert Lines(s) == [s];
    Glue(s, s, [], Lines(s), []);
  }

  /** Concatenation of a split-off head and the rest. */
  lemma Glue(s: string, head: string, rest: string, whole: seq<string>, tail: seq<string>)
    requires whole == [head] + tail && Concat(tail) == rest && s == head + rest
    ensures Concat(whole) == s
  {
    ConcatCons(head, tail);
  }

  lemma LinesSplitOff(s: string, i: nat)
    requires s != [] && i == FirstIndex(s, '\n') && i < |s|
    ensures Lines(s) == [s[..i + 1]] + Lines(s[i + 1..])
  {
  }

  lemma ConcatCons(head: string, rest: seq<string>)
    ensures Concat([head] + rest) == head + Concat(rest)
  {
    assert ([head] + rest)[1..] == rest;
  }

  /** Every line but the last ends in its only newline. */
  lemma {:induction false} LinesEnd(s: string)
    ensures var r := Lines(s);
      && (forall k :: 0 <= k < |r| - 1 ==> r[k][|r[k]| - 1] == '\n')
      && (forall k :: 0 <= k < |r| ==> '\n' !in r[k][..|r[k]| - 1])
    decreases |s|
  {
    if s != [] {
      var i := FirstIndex(s, '\n');
      if i < |s| {
        LinesEnd(s[i + 1..]);
        LinesEndStep(s, i);
      } else {
        assert Lines(s) == [s];
        assert s[..|s| - 1] == s[..i - 1];
      }
    }
  }

  /** The shape LinesEnd states, for a list of lines. */
  predicate EndsShaped(r: seq<string>) {
    && (forall k :: 0 <= k < |r| ==> |r[k]| > 0)
    && (forall k :: 0 <= k < |r| - 1 ==> r[k][|r[k]| - 1] == '\n')
    && (forall k :: 0 <= k < |r| ==> '\n' !in r[k][..|r[k]| - 1])
  }

  lemma LinesEndStep(s: string, i: nat)
    requires s != [] && i == FirstIndex(s, '\n') && i < |s|
    requires var r := Lines(s[i + 1..]);
      && (forall k :: 0 <= k < |r| - 1 ==> r[k][|r[k]| - 1] == '\n')
      && (forall k :: 0 <= k < |r| ==> '\n' !in r[k][..|r[k]| - 1])
    ensures var r := Lines(s);
      && (forall k :: 0 <= k < |r| - 1 ==> r[k][|r[k]| - 1] == '\n')
      && (forall k :: 0 <= k < |r| ==> '\n' !in r[k][..|r[k]| - 1])
  {
    var head := s[..i + 1];
    LinesSplitOff(s, i);
    assert head[..|head| - 1] == s[..i];
    assert IsLine(head);
    ConsShaped(head, Lines(s[i + 1..]));
  }

  lemma ConsShaped(head: string, tail: seq<string>)
    requires IsLine(head) && EndsShaped(tail)
    ensures EndsShaped([head] + tail)
  {
    var r := [head] + tail;
    assert forall k :: 1 <= k < |r| ==> r[k] == tail[k - 1];
  }

  /** The texts of `parts` one after the other. */
  function Concat(parts: seq<string>): string
  {
    if parts == [] then "" else parts[0] + Concat(parts[1..])
  }

  /** A line as file iteration yields it, when a newline follows: it ends
      in its only newline. */
  predicate IsLine(l: string) {
    |l| > 0 && l[|l| - 1] == '\n' && '\n' !in l[..|l| - 1]
  }

  /** Text made of newline-terminated lines is read back as those lines. */
  lemma {:induction false} LinesOfConcat(ls: seq<string>)
    requires forall k :: 0 <= k < |ls| ==> IsLine(ls[k])
    ensures Lines(Concat(ls)) == ls
  {
    if ls != [] {
      var l := ls[0];
      LinesOfConcat(ls[1..]);
      assert l == l[..|l| - 1] + "\n";
      LinesCons(l[..|l| - 1], Concat(ls[1..]));
      assert ls == [l] + ls[1..];
    }
  }

  /** A line terminated by its only newline is split off the front. */
  lemma LinesCons(line: string, rest: string)
    requires '\n' !in line
    ensures Lines(line + "\n" + rest) == [line + "\n"] + Lines(rest)
  {
    var s := line + "\n" + rest;
    FirstIndexAfter(line, '\n', rest);
    assert s[..|line| + 1] == line + "\n";
    assert s[|line| + 1..] == rest;
  }
}
