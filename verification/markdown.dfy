/** The line structure of the Markdown documents the formatters produce: text made
    of "\n"-terminated lines, the parser that splits it back into lines, and the
    outline of its headings. */
module Markdown {
  import opened Text
  import Seqs

  predicate SingleLine(s: string) { '\n' !in s }

  /** A line that does not begin with `#`, so it can never be read as a heading. */
  predicate NoHeading(s: string) { |s| == 0 || s[0] != '#' }

  /** A line of prose: it has no line break and does not begin with Markdown
      syntax of its own (a heading's `#`, emphasis's `*`, a fence's backquote). */
  predicate Plain(s: string) { SingleLine(s) && (|s| == 0 || s[0] !in {'#', '*', '`'}) }

  /** Every line of the list is a single line. */
  predicate AllSingle(ls: seq<string>)
  {
    forall i :: 0 <= i < |ls| ==> SingleLine(ls[i])
  }


  lemma AllSingleTail(a: seq<string>)
    requires AllSingle(a) && |a| > 0
    ensures AllSingle(a[1..]) && SingleLine(a[0])
  {
    forall i | 0 <= i < |a| - 1
      ensures SingleLine(a[1..][i])
    {
      assert a[1..][i] == a[i + 1];
    }
  }

  lemma AllSingleAppend(a: seq<string>, b: seq<string>)
    requires AllSingle(a) && AllSingle(b)
    ensures AllSingle(a + b)
  {
    forall i | 0 <= i < |a + b|
      ensures SingleLine((a + b)[i])
    {
      if i >= |a| {
        assert (a + b)[i] == b[i - |a|];
      }
    }
  }

  /** The lines, each followed by "\n". */
  function Unlines(ls: seq<string>): string
    decreases |ls|
  {
    if |ls| == 0 then "" else ls[0] + "\n" + Unlines(ls[1..])
  }

  lemma {:induction false} UnlinesAppend(a: seq<string>, b: seq<string>)
    ensures Unlines(a + b) == Unlines(a) + Unlines(b)
    decreases |a|
  {
    if |a| == 0 {
      assert a + b == b;
    } else {
      UnlinesAppend(a[1..], b);
      assert (a + b)[1..] == a[1..] + b;
    }
  }

  /** `ls.join(sep)`. */
  function Join(ls: seq<string>, sep: string): string
    decreases |ls|
  {
    if |ls| == 0 then ""
    else if |ls| == 1 then ls[0]
    else ls[0] + sep + Join(ls[1..], sep)
  }

  /** Position of the first line break. */
  function FirstNewline(s: string): (i: nat)
    requires '\n' in s
    ensures i < |s| && s[i] == '\n' && '\n' !in s[..i]
    decreases |s|
  {
    if s[0] == '\n' then 0
    else
      var j := FirstNewline(s[1..]);
      assert s[..j + 1] == [s[0]] + s[1..][..j];
      j + 1
  }

  /** Splits text at each "\n" into the lines between; a final "\n" ends the last
      line rather than opening an empty one. */
  function Lines(s: string): seq<string>
    decreases |s|
  {
    if |s| == 0 then []
    else if '\n' in s then
      var i := FirstNewline(s);
      [s[..i]] + Lines(s[i + 1..])
    else [s]
  }

  lemma AppendAssoc(a: string, b: string, c: string)
    ensures (a + b) + c == a + (b + c)
  {
  }

  /** The first line of `l + "\n" + rest` is `l`. */
  lemma LinesCons(l: string, rest: string)
    requires SingleLine(l)
    ensures Lines(l + "\n" + rest) == [l] + Lines(rest)
  {
    var s := l + "\n" + rest;
    assert s[|l|] == '\n';
    var i := FirstNewline(s);
    assert i == |l|;
    assert s[..i] == l;
    assert s[i + 1..] == rest;
  }

  /** Splitting undoes terminating: the lines of `Unlines(a) + t` are `a`, then the
      lines of `t`. */
  lemma {:induction false} LinesOfUnlines(a: seq<string>, t: string)
    requires AllSingle(a)
    ensures Lines(Unlines(a) + t) == a + Lines(t)
    decreases |a|
  {
    if |a| == 0 {
      assert Unlines(a) + t == t;
      assert a + Lines(t) == Lines(t);
    } else {
      var tail := a[1..];
      var rest := Lines(t);
      AllSingleTail(a);
      var x := Lines(Unlines(tail) + t);
      assert Lines(Unlines(a) + t) == [a[0]] + x by {
        FirstLineOfUnlines(a, t);
      }
      assert x == tail + rest by {
        LinesOfUnlines(tail, t);
      }
      assert [a[0]] + (tail + rest) == a + rest by {
        ConsAssoc(a[0], tail, rest);
        assert [a[0]] + tail == a;
      }
    }
  }

  lemma ConsAssoc<T>(x: T, s: seq<T>, r: seq<T>)
    ensures [x] + (s + r) == ([x] + s) + r
  {
  }

  /** The first terminated line of `Unlines(a) + t` is `a[0]`. */
  lemma FirstLineOfUnlines(a: seq<string>, t: string)
    requires |a| > 0 && SingleLine(a[0])
    ensures Lines(Unlines(a) + t) == [a[0]] + Lines(Unlines(a[1..]) + t)
  {
    var u := Unlines(a[1..]);
    assert Unlines(a) + t == a[0] + "\n" + (u + t) by {
      assert Unlines(a) == a[0] + "\n" + u;
      AppendAssoc(a[0] + "\n", u, t);
    }
    LinesCons(a[0], u + t);
  }

  /** Splitting undoes terminating. */
  lemma LinesUnlines(a: seq<string>)
    requires AllSingle(a)
    ensures Lines(Unlines(a)) == a
  {
    LinesOfUnlines(a, "");
    assert Unlines(a) + "" == Unlines(a);
  }

  /** A one-line heading, a blank line and a body: the heading, an empty line,
      then the lines of the body. */
  lemma HeadedLines(heading: string, body: string)
    requires SingleLine(heading)
    ensures Lines(heading + "\n\n" + body) == [heading, ""] + Lines(body)
  {
    var head := [heading, ""];
    assert AllSingle(head);
    assert Unlines(head) == heading + "\n\n" by {
      assert head[1..] == [""];
      assert Unlines([""]) == "" + "\n" + Unlines([]);
    }
    LinesOfUnlines(head, body);
  }

  /** Two runs of terminated lines read back as one. */
  lemma LinesOfPair(a: seq<string>, b: seq<string>)
    requires AllSingle(a) && AllSingle(b)
    ensures Lines(Unlines(a) + Unlines(b)) == a + b
  {
    LinesOfUnlines(a, Unlines(b));
    LinesUnlines(b);
  }

  /** A text that does not end in a line break, followed by one: its lines come
      out as its own lines, then the lines of what follows. */
  lemma {:induction false} LinesOfText(x: string, rest: string)
    requires |x| > 0 && x[|x| - 1] != '\n'
    ensures Lines(x + "\n" + rest) == Lines(x) + Lines(rest)
    decreases |x|
  {
    if '\n' !in x {
      assert Lines(x + "\n" + rest) == [x] + Lines(rest) by {
        LinesCons(x, rest);
      }
      assert Lines(x) == [x];
    } else {
      var i := FirstNewline(x);
      var l, tail := x[..i], x[i + 1..];
      assert x == l + "\n" + tail by {
        assert x == x[..i] + [x[i]] + x[i + 1..];
      }
      assert |tail| > 0 && tail[|tail| - 1] != '\n' by {
        assert i + 1 < |x|;
        assert tail[|tail| - 1] == x[|x| - 1];
      }
      var lt, lr := Lines(tail), Lines(rest);
      assert Lines(x + "\n" + rest) == [l] + Lines(tail + "\n" + rest) by {
        assert x + "\n" + rest == l + "\n" + (tail + "\n" + rest);
        LinesCons(l, tail + "\n" + rest);
      }
      assert Lines(tail + "\n" + rest) == lt + lr by {
        LinesOfText(tail, rest);
      }
      assert Lines(x) == [l] + lt by {
        LinesCons(l, tail);
      }
      ConsAssoc(l, lt, lr);
    }
  }

  /** Splitting undoes joining with "\n", provided no line is empty. */
  lemma {:induction false} LinesOfJoin(ls: seq<string>)
    requires forall i :: 0 <= i < |ls| ==> SingleLine(ls[i]) && |ls[i]| > 0
    ensures Lines(Join(ls, "\n")) == ls
    decreases |ls|
  {
    if |ls| == 1 {
      assert Lines(ls[0]) == [ls[0]];
    } else if |ls| > 1 {
      LinesOfJoin(ls[1..]);
      LinesCons(ls[0], Join(ls[1..], "\n"));
      assert ls == [ls[0]] + ls[1..];
    }
  }

  /** The `#` run and space that open a Markdown heading of the given level. */
  function HeadingMark(level: nat): string
  {
    seq(level, _ => '#') + " "
  }

  predicate IsHeading(line: string, level: nat)
  {
    StartsWith(line, HeadingMark(level))
  }

  /** The test "is a heading of this level", as a value to filter with. */
  function HeadingOf(level: nat): string -> bool
  {
    l => IsHeading(l, level)
  }

  /** The headings of one level, in document order. */
  function Outline(text: string, level: nat): seq<string>
  {
    Seqs.Filter(Lines(text), HeadingOf(level))
  }

  lemma HeadingMarks()
    ensures HeadingMark(1) == "# "
    ensures HeadingMark(2) == "## "
    ensures HeadingMark(3) == "### "
  {
  }

  /** A line opened by a heading mark is a heading of that level and no other. */
  lemma HeadingLevel(k: nat, rest: string, level: nat)
    ensures IsHeading(HeadingMark(k) + rest, level) <==> k == level
  {
    var line := HeadingMark(k) + rest;
    if k < level {
      assert line[k] == ' ' && HeadingMark(level)[k] == '#';
    } else if k > level {
      assert line[level] == '#' && HeadingMark(level)[level] == ' ';
    } else {
      assert line[..|HeadingMark(level)|] == HeadingMark(level);
    }
  }

  /** The same, for any line that begins with the mark of level `k`. */
  lemma HeadingByPrefix(line: string, k: nat, level: nat)
    requires StartsWith(line, HeadingMark(k))
    ensures IsHeading(line, level) <==> k == level
  {
    assert line == HeadingMark(k) + line[|HeadingMark(k)|..];
    HeadingLevel(k, line[|HeadingMark(k)|..], level);
  }

  /** A line that does not begin with `#` is not a heading. */
  lemma NoHeadingIsNotHeading(s: string, level: nat)
    requires NoHeading(s) && level > 0
    ensures !IsHeading(s, level)
  {
    if |s| > 0 {
      assert HeadingMark(level)[0] == '#';
    }
  }

  /** Lines none of which begins with `#` hold no headings. */
  lemma {:induction false} NoHeadingsInOutline(ls: seq<string>, level: nat)
    requires level > 0
    requires forall i :: 0 <= i < |ls| ==> NoHeading(ls[i])
    ensures Seqs.Filter(ls, HeadingOf(level)) == []
  {
    forall i | 0 <= i < |ls|
      ensures !HeadingOf(level)(ls[i])
    {
      NoHeadingIsNotHeading(ls[i], level);
    }
    Seqs.FilterNone(ls, HeadingOf(level));
  }
}
