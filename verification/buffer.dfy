/**
 `linesToBuffer`: the list of lines written back out as one text, the lines
 separated by a single newline and no newline after the last one.
 */
module Buffer {

  import opened Text

  /** The lines joined by `'\n'`; the empty list gives the empty text. */
  function Join(lines: seq<Line>): (text: string)
    ensures |lines| == 1 ==> text == lines[0]
    decreases |lines|
  {
    if |lines| == 0 then ""
    else if |lines| == 1 then lines[0]
    else lines[0] + "\n" + Join(lines[1..])
  }

  /** The inverse of `Join` on lines that hold no newline of their own: the
      text cut at every newline, so a text with `n` newlines gives `n + 1`
      lines. */
  function Split(text: string): (lines: seq<Line>)
    ensures |lines| >= 1
    decreases |text|
  {
    if |text| == 0 then [""]
    else
      var rest := Split(text[1..]);
      if text[0] == '\n' then [""] + rest
      else [[text[0]] + rest[0]] + rest[1..]
  }

  predicate NoNewline(line: Line) {
    '\n' !in line
  }

  /** Every line cut at its own newlines, in order: what reading the written
      text back line by line yields. */
  function SplitAll(lines: seq<Line>): (r: seq<Line>)
    ensures |r| >= |lines|
    decreases |lines|
  {
    if |lines| == 0 then []
    else Split(lines[0]) + SplitAll(lines[1..])
  }

  /** A newline-free line is one line of text. */
  lemma {:induction false} SplitLine(line: Line)
    requires NoNewline(line)
    ensures Split(line) == [line]
    decreases |line|
  {
    if |line| > 0 {
      assert line[0] in line && forall c :: c in line[1..] ==> c in line;
      SplitLine(line[1..]);
      assert line == [line[0]] + line[1..];
    }
  }

  /** A separator line is written as an empty line followed by the line break
      that ends it: it reads back as two empty lines. */
  lemma SplitMarker()
    ensures Split(Marker) == ["", ""]
  {
    assert Marker[1..] == "";
  }

  /** A text with a newline cut at that newline. */
  lemma {:induction false} SplitAppend(a: string, b: string)
    ensures Split(a + "\n" + b) == Split(a) + Split(b)
    decreases |a|
  {
    var t := a + "\n" + b;
    if |a| == 0 {
      assert t == "\n" + b && t[1..] == b;
    } else {
      assert t[1..] == a[1..] + "\n" + b;
      SplitAppend(a[1..], b);
    }
  }

  /** Reading the joined text back line by line yields the lines, each cut at
      the newlines it carries. */
  lemma {:induction false} SplitJoin(lines: seq<Line>)
    requires |lines| >= 1
    ensures Split(Join(lines)) == SplitAll(lines)
    decreases |lines|
  {
    if |lines| == 1 {
      assert SplitAll(lines[1..]) == [];
    } else {
      SplitAppend(lines[0], Join(lines[1..]));
      SplitJoin(lines[1..]);
    }
  }

  /** Lines without newlines of their own come back unchanged. */
  lemma {:induction false} SplitAllPlain(lines: seq<Line>)
    requires forall k :: 0 <= k < |lines| ==> NoNewline(lines[k])
    ensures SplitAll(lines) == lines
    decreases |lines|
  {
    if |lines| > 0 {
      SplitLine(lines[0]);
      SplitAllPlain(lines[1..]);
      assert lines == [lines[0]] + lines[1..];
    }
  }

  /** One pass of the loop of `linesToBuffer`: writing line `i`, and the
      newline after it unless it is the last, keeps the text written so far
      a prefix of the joined lines. */
  lemma WriteStep(buf: string, lines: seq<Line>, i: nat)
    requires i < |lines| && buf + Join(lines[i..]) == Join(lines)
    ensures i + 1 == |lines| ==> buf + lines[i] == Join(lines)
    ensures i + 1 < |lines| ==> buf + lines[i] + "\n" + Join(lines[i + 1..]) == Join(lines)
  {
    if i + 1 < |lines| {
      JoinTail(lines, i);
      Regroup(buf, lines[i], "\n", Join(lines[i + 1..]));
    } else {
      assert lines[i..] == [lines[i]];
    }
  }

  /** The joined suffix from `i` starts with line `i` and its newline. */
  lemma JoinTail(lines: seq<Line>, i: nat)
    requires i + 1 < |lines|
    ensures Join(lines[i..]) == lines[i] + "\n" + Join(lines[i + 1..])
  {
    assert lines[i..][1..] == lines[i + 1..];
  }

  /** Concatenation regrouped, the shape `WriteStep` needs. */
  lemma Regroup(a: string, b: string, c: string, d: string)
    ensures a + b + c + d == a + (b + c + d)
  {
  }

  /** `linesToBuffer`: each line is written, and a newline after it unless it
      is the last one. */
  method LinesToBuffer(lines: seq<Line>) returns (buf: string)
    ensures buf == Join(lines)
    ensures |lines| >= 1 ==> Split(buf) == SplitAll(lines)
    ensures |lines| >= 1 && (forall k :: 0 <= k < |lines| ==> NoNewline(lines[k])) ==> Split(buf) == lines
  {
    buf := "";
    var i := 0;
    while i < |lines|
      invariant 0 <= i <= |lines|
      invariant i < |lines| ==> buf + Join(lines[i..]) == Join(lines)
      invariant i == |lines| ==> buf == Join(lines)
      decreases |lines| - i
    {
      WriteStep(buf, lines, i);
      buf := buf + lines[i];
      i := i + 1;
      if i == |lines| {
        break;
      }
      buf := buf + "\n";
    }
    if |lines| >= 1 {
      SplitJoin(lines);
      if forall k :: 0 <= k < |lines| ==> NoNewline(lines[k]) {
        SplitAllPlain(lines);
      }
    }
  }
}
