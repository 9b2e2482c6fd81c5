/**
 The import grouper proper: finding an `import (` block and splitting its
 lines into the standard-library, local and third-party groups, each closed
 by a separator line. The file is a sequence of lines; a list element is an
 index into it.
 */
module Grouper {

  import opened Wrappers
  import opened Text
  import opened ImportPkg

  /** The three groups, in the order they are laid out. */
  datatype Group = Std | Local | ThirdParty

  /** The `switch` of `sortImport`: membership in the standard-library set is
      decided before the local prefix is looked at. */
  function Classify(pkg: string, stdPkgs: set<string>, localPrefix: string): (g: Group)
    ensures g == Std <==> pkg in stdPkgs
    ensures g == Local <==> pkg !in stdPkgs && HasPrefix(pkg, localPrefix)
    ensures g == ThirdParty <==> pkg !in stdPkgs && !HasPrefix(pkg, localPrefix)
    ensures localPrefix == [] ==> g != ThirdParty
  {
    if pkg in stdPkgs then Std
    else if HasPrefix(pkg, localPrefix) then Local
    else ThirdParty
  }

  /** The group of one line of a block: `getImportPkg` on the line, then the
      `switch` on the path it extracts. */
  function LineGroup(line: Line, stdPkgs: set<string>, localPrefix: string): (g: Group)
    ensures g == Std <==> GetImportPkg(line) in stdPkgs
    ensures g == Local <==> GetImportPkg(line) !in stdPkgs && HasPrefix(GetImportPkg(line), localPrefix)
    ensures g == ThirdParty <==> GetImportPkg(line) !in stdPkgs && !HasPrefix(GetImportPkg(line), localPrefix)
  {
    Classify(GetImportPkg(line), stdPkgs, localPrefix)
  }

  /** The classifier `sortImport` applies, as a value. The partition below is
      stated for any classifier and instantiated with this one. */
  function GroupOf(stdPkgs: set<string>, localPrefix: string): Line -> Group {
    line => LineGroup(line, stdPkgs, localPrefix)
  }

  /** The line starts a parenthesised import block: its first eight
      characters are `import (`. Such a line never closes a block and is
      never a separator. */
  predicate OpensBlock(line: Line): (b: bool)
    ensures b <==> |ImportMultiPrefix| <= |line| && forall k :: 0 <= k < |ImportMultiPrefix| ==> line[k] == ImportMultiPrefix[k]
    ensures b ==> !ClosesBlock(line) && line != Marker
  {
    HasPrefixChars(line, ImportMultiPrefix);
    HasPrefix(line, ImportMultiPrefix)
  }

  /** The line ends a block: anything whose first character is `)`. A
      separator never does. */
  predicate ClosesBlock(line: Line): (b: bool)
    ensures b <==> |line| > 0 && line[0] == ')'
    ensures line == Marker ==> !b
  {
    HasPrefixChars(line, ImportEnd);
    HasPrefix(line, ImportEnd)
  }

  /** `findImportLine`: the first line at or after `start` that opens a
      parenthesised import block; `start == |lines|` is the nil element. */
  function FindImportLine(lines: seq<Line>, start: nat): (r: Option<nat>)
    requires start <= |lines|
    ensures r.Some? ==> start <= r.value < |lines| && OpensBlock(lines[r.value])
    ensures r.Some? ==> forall k {:trigger OpensBlock(lines[k])} :: start <= k < r.value ==> !OpensBlock(lines[k])
    ensures r.None? ==> forall k {:trigger OpensBlock(lines[k])} :: start <= k < |lines| ==> !OpensBlock(lines[k])
    decreases |lines| - start
  {
    if start == |lines| then None
    else if OpensBlock(lines[start]) then Some(start)
    else FindImportLine(lines, start + 1)
  }

  /** A single-line `import "path"` never opens a block: only the
      parenthesised form is looked for. */
  lemma SingleImportIgnored(line: Line, path: string)
    requires line == "import \"" + path
    ensures !OpensBlock(line)
  {
    if |ImportMultiPrefix| <= |line| {
      assert line[..|ImportMultiPrefix|][7] != ImportMultiPrefix[7];
    }
  }

  /** Where the loop of `sortImport` stops: the first line at or after `head`
      that starts with `)`, or `|lines|` when the list runs out first. */
  function FindClose(lines: seq<Line>, head: nat): (close: nat)
    requires head <= |lines|
    ensures head <= close <= |lines|
    ensures close < |lines| ==> ClosesBlock(lines[close])
    ensures forall k {:trigger ClosesBlock(lines[k])} :: head <= k < close ==> !ClosesBlock(lines[k])
    decreases |lines| - head
  {
    if head == |lines| then head
    else if ClosesBlock(lines[head]) then head
    else FindClose(lines, head + 1)
  }

  /** The lines of `region` that fall in group `g`, in their original order. */
  function Select(region: seq<Line>, g: Group, groupOf: Line -> Group): (r: seq<Line>)
    ensures |r| <= |region|
    decreases |region|
  {
    if |region| == 0 then []
    else
      var last := region[|region| - 1];
      Select(region[..|region| - 1], g, groupOf)
        + (if groupOf(last) == g then [last] else [])
  }

  /** Every selected line belongs to the group it was selected for. */
  lemma {:induction false} SelectInGroup(region: seq<Line>, g: Group, groupOf: Line -> Group)
    ensures forall x :: x in Select(region, g, groupOf) ==> groupOf(x) == g
    decreases |region|
  {
    if |region| > 0 {
      SelectInGroup(region[..|region| - 1], g, groupOf);
    }
  }

  /** A block region rewritten: three groups, each followed by a separator. */
  function Layout(pre: seq<Line>, std: seq<Line>, local: seq<Line>, third: seq<Line>, rest: seq<Line>): seq<Line> {
    pre + std + [Marker] + local + [Marker] + third + [Marker] + rest
  }

  /** The list while `sortImport` runs: the lines of `lines[head..i]` have
      been moved into their groups, the lines from `i` on are untouched. */
  function SortState(lines: seq<Line>, head: nat, i: nat, groupOf: Line -> Group): (r: seq<Line>)
    requires head <= i <= |lines|
    ensures |r| == |lines| + 3
  {
    var region := lines[head..i];
    SelectSizes(region, groupOf);
    Layout(lines[..head],
           Select(region, Std, groupOf),
           Select(region, Local, groupOf),
           Select(region, ThirdParty, groupOf),
           lines[i..])
  }

  /** The lines before `head` and from `i` on are left where they were, the
      latter three places further down. */
  lemma SortStateFrame(lines: seq<Line>, head: nat, i: nat, groupOf: Line -> Group)
    requires head <= i <= |lines|
    ensures SortState(lines, head, i, groupOf)[..head] == lines[..head]
    ensures SortState(lines, head, i, groupOf)[i + 3..] == lines[i..]
  {
    var region := lines[head..i];
    SelectSizes(region, groupOf);
    LayoutFrame(lines[..head], Select(region, Std, groupOf), Select(region, Local, groupOf),
                Select(region, ThirdParty, groupOf), lines[i..]);
  }

  /** The lines before the groups and those after the last separator keep
      their places at the two ends of a layout. */
  lemma LayoutFrame(pre: seq<Line>, std: seq<Line>, local: seq<Line>, third: seq<Line>, rest: seq<Line>)
    ensures Layout(pre, std, local, third, rest)[..|pre|] == pre
    ensures Layout(pre, std, local, third, rest)[|pre| + |std| + |local| + |third| + 3..] == rest
  {
    var mid := std + [Marker] + local + [Marker] + third + [Marker];
    assert Layout(pre, std, local, third, rest) == pre + mid + rest;
  }

  /** `sortImport` leaves the lines up to the block alone, and those from the
      `)` on only move down by the three separators. */
  lemma RewriteFrame(lines: seq<Line>, head: nat, groupOf: Line -> Group)
    requires head < |lines|
    ensures Rewrite(lines, head, groupOf)[..head] == lines[..head]
    ensures FindClose(lines, head) < |lines| ==>
              Rewrite(lines, head, groupOf)[FindClose(lines, head) + 3..] == lines[FindClose(lines, head)..]
  {
    SortStateFrame(lines, head, FindClose(lines, head), groupOf);
  }

  /** `sortImport` returns the first `)` line of the rewritten list, found
      exactly when the input has a `)` line from `head` on. */
  lemma CloseFound(lines: seq<Line>, head: nat, groupOf: Line -> Group)
    requires head < |lines|
    ensures var close := FindClose(lines, head);
            && (close < |lines| <==> exists k :: head <= k < |lines| && ClosesBlock(lines[k]))
            && (close < |lines| ==> head + 3 <= close + 3 < |lines| + 3 && ClosesBlock(Rewrite(lines, head, groupOf)[close + 3]))
  {
    var close := FindClose(lines, head);
    if close < |lines| {
      RewriteFrame(lines, head, groupOf);
      assert Rewrite(lines, head, groupOf)[close + 3] == lines[close] by {
        assert Rewrite(lines, head, groupOf)[close + 3..][0] == lines[close..][0];
      }
    }
  }

  /** Every line of a region lands in exactly one of the three groups. */
  lemma {:induction false} SelectSizes(region: seq<Line>, groupOf: Line -> Group)
    ensures |Select(region, Std, groupOf)| + |Select(region, Local, groupOf)|
            + |Select(region, ThirdParty, groupOf)| == |region|
    decreases |region|
  {
    if |region| > 0 {
      SelectSizes(region[..|region| - 1], groupOf);
    }
  }

  /** The three groups together hold exactly the lines of the region: no line
      is lost, duplicated or invented by the split. */
  lemma {:induction false} SelectPartition(region: seq<Line>, groupOf: Line -> Group)
    ensures multiset(Select(region, Std, groupOf)) + multiset(Select(region, Local, groupOf))
            + multiset(Select(region, ThirdParty, groupOf)) == multiset(region)
    decreases |region|
  {
    if |region| > 0 {
      var init, last := region[..|region| - 1], region[|region| - 1];
      SelectPartition(init, groupOf);
      assert multiset(region) == multiset(init) + multiset{last} by {
        assert region == init + [last];
      }
      SelectLastBag(region, Std, groupOf);
      SelectLastBag(region, Local, groupOf);
      SelectLastBag(region, ThirdParty, groupOf);
      AddToOneBag(multiset(Select(init, Std, groupOf)), multiset(Select(init, Local, groupOf)),
                  multiset(Select(init, ThirdParty, groupOf)), multiset(init), last, groupOf(last));
    }
  }

  /** Adding a line to the bag of one of three groups adds it to their sum. */
  lemma AddToOneBag(S: multiset<Line>, L: multiset<Line>, T: multiset<Line>, R: multiset<Line>, x: Line, g: Group)
    requires S + L + T == R
    ensures (S + (if g == Std then multiset{x} else multiset{}))
            + (L + (if g == Local then multiset{x} else multiset{}))
            + (T + (if g == ThirdParty then multiset{x} else multiset{})) == R + multiset{x}
  {
  }

  /** The last line of a region adds itself to the bag of its own group only. */
  lemma SelectLastBag(region: seq<Line>, g: Group, groupOf: Line -> Group)
    requires |region| > 0
    ensures var last := region[|region| - 1];
            multiset(Select(region, g, groupOf))
            == multiset(Select(region[..|region| - 1], g, groupOf)) + (if groupOf(last) == g then multiset{last} else multiset{})
  {
    var init, last := region[..|region| - 1], region[|region| - 1];
    var S := Select(init, g, groupOf);
    if groupOf(last) == g {
      assert multiset(S + [last]) == multiset(S) + multiset{last};
    } else {
      assert S + [] == S;
    }
  }

  /** Selection distributes over concatenation, so each group keeps the
      relative order its lines had in the block. */
  lemma {:induction false} SelectAppend(a: seq<Line>, b: seq<Line>, g: Group, groupOf: Line -> Group)
    ensures Select(a + b, g, groupOf) == Select(a, g, groupOf) + Select(b, g, groupOf)
    decreases |b|
  {
    if |b| == 0 {
      assert a + b == a;
    } else {
      var init := b[..|b| - 1];
      assert (a + b)[..|a + b| - 1] == a + init;
      SelectAppend(a, init, g, groupOf);
    }
  }

  /** A region whose lines all fall in `g` is selected whole. */
  lemma {:induction false} SelectAll(region: seq<Line>, g: Group, groupOf: Line -> Group)
    requires forall k :: 0 <= k < |region| ==> groupOf(region[k]) == g
    ensures Select(region, g, groupOf) == region
    decreases |region|
  {
    if |region| > 0 {
      var init, last := region[..|region| - 1], region[|region| - 1];
      forall k | 0 <= k < |init| ensures groupOf(init[k]) == g {
        assert init[k] == region[k];
      }
      SelectAll(init, g, groupOf);
      assert region == init + [last];
    }
  }

  /** A region with none of its lines in `g` contributes nothing to it. */
  lemma {:induction false} SelectNone(region: seq<Line>, g: Group, groupOf: Line -> Group)
    requires forall k :: 0 <= k < |region| ==> groupOf(region[k]) != g
    ensures Select(region, g, groupOf) == []
    decreases |region|
  {
    if |region| > 0 {
      var init := region[..|region| - 1];
      forall k | 0 <= k < |init| ensures groupOf(init[k]) != g {
        assert init[k] == region[k];
      }
      SelectNone(init, g, groupOf);
    }
  }

  /** Apart from the three separator lines, the rewritten list holds exactly
      the lines of the input. */
  lemma SortStatePreservesLines(lines: seq<Line>, head: nat, i: nat, groupOf: Line -> Group)
    requires head <= i <= |lines|
    ensures multiset(SortState(lines, head, i, groupOf)) == multiset(lines) + multiset{Marker, Marker, Marker}
  {
    var region := lines[head..i];
    var S, L, T := Select(region, Std, groupOf), Select(region, Local, groupOf), Select(region, ThirdParty, groupOf);
    calc {
      multiset(SortState(lines, head, i, groupOf));
      multiset(Layout(lines[..head], S, L, T, lines[i..]));
      { MultisetLayout(lines[..head], S, L, T, lines[i..]); }
      multiset(lines[..head]) + (multiset(S) + multiset(L) + multiset(T)) + multiset(lines[i..]) + multiset{Marker, Marker, Marker};
      { SelectPartition(region, groupOf); }
      multiset(lines[..head]) + multiset(region) + multiset(lines[i..]) + multiset{Marker, Marker, Marker};
      { assert lines == lines[..head] + region + lines[i..]; }
      multiset(lines) + multiset{Marker, Marker, Marker};
    }
  }

  /** The bag of a layout: its five parts and the three separators. */
  lemma MultisetLayout(pre: seq<Line>, std: seq<Line>, local: seq<Line>, third: seq<Line>, rest: seq<Line>)
    ensures multiset(Layout(pre, std, local, third, rest))
            == multiset(pre) + (multiset(std) + multiset(local) + multiset(third)) + multiset(rest) + multiset{Marker, Marker, Marker}
  {
  }

  /** A group holds only lines of its region. */
  lemma {:induction false} SelectWithin(region: seq<Line>, g: Group, groupOf: Line -> Group)
    ensures forall x :: x in Select(region, g, groupOf) ==> x in region
    decreases |region|
  {
    if |region| > 0 {
      var init := region[..|region| - 1];
      SelectWithin(init, g, groupOf);
      assert forall x :: x in init ==> x in region;
    }
  }

  /** Between `head` and the unscanned rest, the rewritten list holds only
      separators and lines of the scanned region. */
  lemma SortStateRegion(lines: seq<Line>, head: nat, i: nat, groupOf: Line -> Group)
    requires head <= i <= |lines|
    ensures forall j :: head <= j < i + 3 ==>
              SortState(lines, head, i, groupOf)[j] == Marker || SortState(lines, head, i, groupOf)[j] in lines[head..i]
  {
    var region := lines[head..i];
    var S, L, T := Select(region, Std, groupOf), Select(region, Local, groupOf), Select(region, ThirdParty, groupOf);
    SelectWithin(region, Std, groupOf);
    SelectWithin(region, Local, groupOf);
    SelectWithin(region, ThirdParty, groupOf);
    SelectSizes(region, groupOf);
    LayoutRegion(lines[..head], S, L, T, lines[i..], region);
  }

  /** The middle of a layout holds only separators and lines of the groups. */
  lemma LayoutRegion(pre: seq<Line>, std: seq<Line>, local: seq<Line>, third: seq<Line>, rest: seq<Line>,
                     region: seq<Line>)
    requires forall x :: x in std || x in local || x in third ==> x in region
    ensures forall j :: |pre| <= j < |pre| + |std| + |local| + |third| + 3 ==>
              Layout(pre, std, local, third, rest)[j] == Marker || Layout(pre, std, local, third, rest)[j] in region
  {
    var mid := std + [Marker] + local + [Marker] + third + [Marker];
    var all := Layout(pre, std, local, third, rest);
    assert all == pre + mid + rest;
    forall j | |pre| <= j < |pre| + |mid|
      ensures all[j] == Marker || all[j] in region
    {
      assert all[j] == mid[j - |pre|];
      assert mid[j - |pre|] in mid;
    }
  }

  /** With an empty local prefix, as `dealLines` calls it, every line that is
      not in the standard library counts as local: the third group stays
      empty. */
  lemma NoThirdPartyWithoutPrefix(region: seq<Line>, stdPkgs: set<string>)
    ensures Select(region, ThirdParty, GroupOf(stdPkgs, "")) == []
  {
    var groupOf := GroupOf(stdPkgs, "");
    assert forall k :: 0 <= k < |region| ==> groupOf(region[k]) != ThirdParty by {
      forall k | 0 <= k < |region| ensures groupOf(region[k]) != ThirdParty {
        assert groupOf(region[k]) == Classify(GetImportPkg(region[k]), stdPkgs, "");
      }
    }
    SelectNone(region, ThirdParty, groupOf);
  }

  /** A commented-out import inside a block is not skipped: the path is
      taken from its first quote on, past the comment marker, so the line is
      grouped by the path it comments out. */
  lemma CommentedImportIsStd(line: Line, path: string, stdPkgs: set<string>)
    requires line == "\t// \"" + path + "\"" && '"' !in path
    ensures GetImportPkg(line) == path
    ensures path in stdPkgs ==> GroupOf(stdPkgs, "")(line) == Std
  {
    var lead, none := "\t// ", "";
    assert line == lead + "\"" + path + "\"" + none;
    SpecLinePath(lead, path, none);
  }

  /** A line that opens a block, with none before it from `start` on, is
      the one `FindImportLine` finds. */
  lemma FindImportLineIs(lines: seq<Line>, start: nat, k: nat)
    requires start <= k < |lines| && OpensBlock(lines[k])
    requires forall j :: start <= j < k ==> !OpensBlock(lines[j])
    ensures FindImportLine(lines, start) == Some(k)
  {
  }

  /** A closing line, with none before it from `head` on, is the one
      `FindClose` stops at. */
  lemma FindCloseIs(lines: seq<Line>, head: nat, c: nat)
    requires head <= c < |lines| && ClosesBlock(lines[c])
    requires forall j :: head <= j < c ==> !ClosesBlock(lines[j])
    ensures FindClose(lines, head) == c
  {
  }

  /** After the rewrite the loop of `sortImport` would stop at the same `)`
      line, now three places further down: neither the separators nor the
      moved lines start with `)`. */
  lemma FindCloseAfterSort(lines: seq<Line>, head: nat, groupOf: Line -> Group)
    requires head <= |lines|
    ensures var close := FindClose(lines, head);
            close < |lines| ==> FindClose(SortState(lines, head, close, groupOf), head) == close + 3
  {
    var close := FindClose(lines, head);
    if close < |lines| {
      var out := SortState(lines, head, close, groupOf);
      SortStateRegion(lines, head, close, groupOf);
      forall x | x in lines[head..close]
        ensures !ClosesBlock(x)
      {
        var m :| 0 <= m < close - head && lines[head..close][m] == x;
        assert x == lines[head + m];
      }
      assert !ClosesBlock(Marker) by {
        assert Marker[..|ImportEnd|][0] != ImportEnd[0];
      }
      assert out[close + 3] == lines[close] by {
        assert out[close + 3..][0] == lines[close..][0];
      }
      FindCloseIs(out, head, close + 3);
    }
  }

  // container/list operations on the sequence of lines.

  /** `InsertBefore(v, mark)`: `v` becomes the element just before `mark`. */
  function InsertBefore(s: seq<Line>, v: Line, mark: nat): (r: seq<Line>)
    requires mark < |s|
    ensures |r| == |s| + 1 && r[mark] == v
    ensures r[..mark] == s[..mark] && r[mark + 1..] == s[mark..]
  {
    s[..mark] + [v] + s[mark..]
  }

  /** `MoveBefore(e, mark)`: element `e` is unlinked and relinked just before
      `mark`; moving an element before itself changes nothing. */
  function MoveBefore(s: seq<Line>, e: nat, mark: nat): (r: seq<Line>)
    requires e < |s| && mark < |s|
    ensures |r| == |s|
  {
    if e == mark then s
    else if mark < e then s[..mark] + [s[e]] + s[mark..e] + s[e + 1..]
    else s[..e] + s[e + 1..mark] + [s[e]] + s[mark..]
  }

  /** Moving a later element in front of an earlier mark, in one piece. */
  lemma MoveBackward(s: seq<Line>, a: seq<Line>, b: seq<Line>, x: Line, rest: seq<Line>, e: nat, mark: nat)
    requires |b| > 0 && s == a + b + [x] + rest
    requires e == |a| + |b| && mark == |a|
    ensures e < |s| && mark < |s|
    ensures MoveBefore(s, e, mark) == a + [x] + b + rest
  {
    assert s[..mark] == a;
    assert s[mark..e] == b;
    assert s[e] == x;
    assert s[e + 1..] == rest;
  }

  /** Moving the current line in front of the std separator appends it to
      the std group. */
  lemma MoveIntoStd(pre: seq<Line>, std: seq<Line>, local: seq<Line>, third: seq<Line>, x: Line, rest: seq<Line>,
                    before: seq<Line>, e: nat, mark: nat)
    requires before == Layout(pre, std, local, third, [x] + rest)
    requires e == |pre| + |std| + |local| + |third| + 3 && mark == |pre| + |std|
    ensures e < |before| && mark < |before|
    ensures MoveBefore(before, e, mark) == Layout(pre, std + [x], local, third, rest)
  {
    var A, B := pre + std, [Marker] + local + [Marker] + third + [Marker];
    assert before == A + B + [x] + rest;
    MoveBackward(before, A, B, x, rest, e, mark);
    assert A + [x] + B + rest == Layout(pre, std + [x], local, third, rest);
  }

  /** Moving the current line in front of the local separator appends it to
      the local group. */
  lemma MoveIntoLocal(pre: seq<Line>, std: seq<Line>, local: seq<Line>, third: seq<Line>, x: Line, rest: seq<Line>,
                      before: seq<Line>, e: nat, mark: nat)
    requires before == Layout(pre, std, local, third, [x] + rest)
    requires e == |pre| + |std| + |local| + |third| + 3 && mark == |pre| + |std| + 1 + |local|
    ensures e < |before| && mark < |before|
    ensures MoveBefore(before, e, mark) == Layout(pre, std, local + [x], third, rest)
  {
    var A, B := pre + std + [Marker] + local, [Marker] + third + [Marker];
    assert before == A + B + [x] + rest;
    MoveBackward(before, A, B, x, rest, e, mark);
    assert A + [x] + B + rest == Layout(pre, std, local + [x], third, rest);
  }

  /** Moving the current line in front of the third-party separator appends it
      to the third-party group. */
  lemma MoveIntoThirdParty(pre: seq<Line>, std: seq<Line>, local: seq<Line>, third: seq<Line>, x: Line, rest: seq<Line>,
                           before: seq<Line>, e: nat, mark: nat)
    requires before == Layout(pre, std, local, third, [x] + rest)
    requires e == |pre| + |std| + |local| + |third| + 3 && mark == |pre| + |std| + |local| + |third| + 2
    ensures e < |before| && mark < |before|
    ensures MoveBefore(before, e, mark) == Layout(pre, std, local, third + [x], rest)
  {
    var A, B := pre + std + [Marker] + local + [Marker] + third, [Marker];
    assert before == A + B + [x] + rest;
    MoveBackward(before, A, B, x, rest, e, mark);
    assert A + [x] + B + rest == Layout(pre, std, local, third + [x], rest);
  }

  /** Index of the separator that closes group `g` in `SortState(lines, head, i, ..)`. */
  function GroupMark(lines: seq<Line>, head: nat, i: nat, g: Group, groupOf: Line -> Group): nat
    requires head <= i <= |lines|
  {
    var region := lines[head..i];
    match g
    case Std => head + |Select(region, Std, groupOf)|
    case Local => head + |Select(region, Std, groupOf)| + 1 + |Select(region, Local, groupOf)|
    case ThirdParty => i + 2
  }

  /** Growing the scanned region by one line appends that line to its own
      group and leaves the other two groups alone. */
  lemma SelectExtend(lines: seq<Line>, head: nat, i: nat, g: Group, groupOf: Line -> Group)
    requires head <= i < |lines|
    ensures Select(lines[head..i + 1], g, groupOf)
            == Select(lines[head..i], g, groupOf)
               + (if groupOf(lines[i]) == g then [lines[i]] else [])
  {
    assert lines[head..i + 1][..i - head] == lines[head..i];
  }

  /** One iteration of the loop of `sortImport`: moving line `i` in front of
      the separator of its group turns the state before `i` into the state
      after it. */
  lemma SortStep(lines: seq<Line>, head: nat, i: nat, groupOf: Line -> Group)
    requires head <= i < |lines|
    ensures var g := groupOf(lines[i]);
            MoveBefore(SortState(lines, head, i, groupOf), i + 3, GroupMark(lines, head, i, g, groupOf))
            == SortState(lines, head, i + 1, groupOf)
  {
    match groupOf(lines[i])
    case Std => SortStepStd(lines, head, i, groupOf);
    case Local => SortStepLocal(lines, head, i, groupOf);
    case ThirdParty => SortStepThirdParty(lines, head, i, groupOf);
  }

  /** The state before line `i`, with that line split off the untouched rest. */
  lemma StateAt(lines: seq<Line>, head: nat, i: nat, groupOf: Line -> Group)
    requires head <= i < |lines|
    ensures var region := lines[head..i];
            SortState(lines, head, i, groupOf)
            == Layout(lines[..head], Select(region, Std, groupOf), Select(region, Local, groupOf),
                      Select(region, ThirdParty, groupOf), [lines[i]] + lines[i + 1..])
            && i + 3 == head + |Select(region, Std, groupOf)| + |Select(region, Local, groupOf)| + |Select(region, ThirdParty, groupOf)| + 3
  {
    assert lines[i..] == [lines[i]] + lines[i + 1..];
    SelectSizes(lines[head..i], groupOf);
  }

  /** The state after line `i`: the line appended to its own group. */
  lemma StateAfter(lines: seq<Line>, head: nat, i: nat, groupOf: Line -> Group)
    requires head <= i < |lines|
    ensures var region, pre, x, rest := lines[head..i], lines[..head], lines[i], lines[i + 1..];
            var S, L, T := Select(region, Std, groupOf), Select(region, Local, groupOf), Select(region, ThirdParty, groupOf);
            && (groupOf(x) == Std ==> SortState(lines, head, i + 1, groupOf) == Layout(pre, S + [x], L, T, rest))
            && (groupOf(x) == Local ==> SortState(lines, head, i + 1, groupOf) == Layout(pre, S, L + [x], T, rest))
            && (groupOf(x) == ThirdParty ==> SortState(lines, head, i + 1, groupOf) == Layout(pre, S, L, T + [x], rest))
  {
    var region, x := lines[head..i], lines[i];
    var S, L, T := Select(region, Std, groupOf), Select(region, Local, groupOf), Select(region, ThirdParty, groupOf);
    SelectExtend(lines, head, i, Std, groupOf);
    SelectExtend(lines, head, i, Local, groupOf);
    SelectExtend(lines, head, i, ThirdParty, groupOf);
    match groupOf(x)
    case Std => assert L + [] == L && T + [] == T;
    case Local => assert S + [] == S && T + [] == T;
    case ThirdParty => assert S + [] == S && L + [] == L;
  }

  lemma SortStepStd(lines: seq<Line>, head: nat, i: nat, groupOf: Line -> Group)
    requires head <= i < |lines| && groupOf(lines[i]) == Std
    ensures MoveBefore(SortState(lines, head, i, groupOf), i + 3, GroupMark(lines, head, i, Std, groupOf))
            == SortState(lines, head, i + 1, groupOf)
  {
    var region := lines[head..i];
    StateAt(lines, head, i, groupOf);
    StateAfter(lines, head, i, groupOf);
    assert |lines[..head]| == head;
    MoveIntoStd(lines[..head], Select(region, Std, groupOf), Select(region, Local, groupOf),
      Select(region, ThirdParty, groupOf), lines[i], lines[i + 1..],
      SortState(lines, head, i, groupOf), i + 3, GroupMark(lines, head, i, Std, groupOf));
  }

  lemma SortStepLocal(lines: seq<Line>, head: nat, i: nat, groupOf: Line -> Group)
    requires head <= i < |lines| && groupOf(lines[i]) == Local
    ensures MoveBefore(SortState(lines, head, i, groupOf), i + 3, GroupMark(lines, head, i, Local, groupOf))
            == SortState(lines, head, i + 1, groupOf)
  {
    var region := lines[head..i];
    StateAt(lines, head, i, groupOf);
    StateAfter(lines, head, i, groupOf);
    assert |lines[..head]| == head;
    MoveIntoLocal(lines[..head], Select(region, Std, groupOf), Select(region, Local, groupOf),
      Select(region, ThirdParty, groupOf), lines[i], lines[i + 1..],
      SortState(lines, head, i, groupOf), i + 3, GroupMark(lines, head, i, Local, groupOf));
  }

  lemma SortStepThirdParty(lines: seq<Line>, head: nat, i: nat, groupOf: Line -> Group)
    requires head <= i < |lines| && groupOf(lines[i]) == ThirdParty
    ensures MoveBefore(SortState(lines, head, i, groupOf), i + 3, GroupMark(lines, head, i, ThirdParty, groupOf))
            == SortState(lines, head, i + 1, groupOf)
  {
    var region := lines[head..i];
    StateAt(lines, head, i, groupOf);
    StateAfter(lines, head, i, groupOf);
    assert |lines[..head]| == head;
    MoveIntoThirdParty(lines[..head], Select(region, Std, groupOf), Select(region, Local, groupOf),
      Select(region, ThirdParty, groupOf), lines[i], lines[i + 1..],
      SortState(lines, head, i, groupOf), i + 3, GroupMark(lines, head, i, ThirdParty, groupOf));
  }

  /** The separator a line of group `g` is moved in front of. */
  function SeparatorFor(g: Group, std: nat, local: nat, thirdparty: nat): nat {
    match g
    case Std => std
    case Local => local
    case ThirdParty => thirdparty
  }

  /** The marks of `SortState` after one more line: the line's own group and
      every group after it end one place later. */
  lemma GroupMarkStep(lines: seq<Line>, head: nat, i: nat, groupOf: Line -> Group)
    requires head <= i < |lines|
    ensures var g := groupOf(lines[i]);
            && GroupMark(lines, head, i + 1, Std, groupOf) == GroupMark(lines, head, i, Std, groupOf) + (if g == Std then 1 else 0)
            && GroupMark(lines, head, i + 1, Local, groupOf) == GroupMark(lines, head, i, Local, groupOf) + (if g != ThirdParty then 1 else 0)
            && GroupMark(lines, head, i, Std, groupOf) < GroupMark(lines, head, i, Local, groupOf) < GroupMark(lines, head, i, ThirdParty, groupOf)
  {
    SelectExtend(lines, head, i, Std, groupOf);
    SelectExtend(lines, head, i, Local, groupOf);
    SelectSizes(lines[head..i], groupOf);
  }

  /** The separators of `SortState` come in the order std, local, third party. */
  lemma GroupMarkOrder(lines: seq<Line>, head: nat, i: nat, groupOf: Line -> Group)
    requires head <= i <= |lines|
    ensures GroupMark(lines, head, i, Std, groupOf) < GroupMark(lines, head, i, Local, groupOf) < GroupMark(lines, head, i, ThirdParty, groupOf)
  {
    SelectSizes(lines[head..i], groupOf);
  }

  /** Lines 210-212 of `sortImport`: the std, local and third-party
      separators are inserted, in that order, in front of `head`; this is the
      state in which no line has been moved yet. */
  method InsertSeparators(lines: seq<Line>, head: nat, groupOf: Line -> Group)
    returns (out: seq<Line>, std: nat, local: nat, thirdparty: nat)
    requires head < |lines|
    ensures out == SortState(lines, head, head, groupOf)
    ensures std == head && local == head + 1 && thirdparty == head + 2
  {
    out := InsertBefore(lines, Marker, head);
    std := head;
    out := InsertBefore(out, Marker, head + 1);
    local := head + 1;
    out := InsertBefore(out, Marker, head + 2);
    thirdparty := head + 2;
    assert lines[head..head] == [];
    assert out == lines[..head] + [Marker] + [Marker] + [Marker] + lines[head..];
  }

  /** The loop of `sortImport` at line `cur - 3` of the input: the list is
      `SortState` of the lines before it and the separators sit where
      `GroupMark` says. */
  ghost predicate LoopState(lines: seq<Line>, head: nat, groupOf: Line -> Group,
                            out: seq<Line>, cur: nat, std: nat, local: nat, thirdparty: nat)
  {
    && head + 3 <= cur <= |lines| + 3
    && cur - 3 <= FindClose(lines, head)
    && std == GroupMark(lines, head, cur - 3, Std, groupOf)
    && local == GroupMark(lines, head, cur - 3, Local, groupOf)
    && thirdparty == cur - 1
    && out == SortState(lines, head, cur - 3, groupOf)
  }

  /** One turn of the loop of `sortImport` on the list: the current line is
      moved in front of the separator of its group, and the separators
      behind that place shift down by one. */
  method SortNext(ghost lines: seq<Line>, ghost head: nat, groupOf: Line -> Group,
                  out: seq<Line>, cur: nat, std: nat, local: nat, thirdparty: nat)
    returns (out': seq<Line>, std': nat, local': nat, thirdparty': nat)
    requires LoopState(lines, head, groupOf, out, cur, std, local, thirdparty)
    requires cur < |out| && !ClosesBlock(out[cur])
    ensures LoopState(lines, head, groupOf, out', cur + 1, std', local', thirdparty')
  {
    StepLink(lines, head, cur - 3, groupOf);
    match groupOf(out[cur])
    case Std =>
      out' := MoveBefore(out, cur, std);
      std', local', thirdparty' := std + 1, local + 1, thirdparty + 1;
    case Local =>
      out' := MoveBefore(out, cur, local);
      std', local', thirdparty' := std, local + 1, thirdparty + 1;
    case ThirdParty =>
      out' := MoveBefore(out, cur, thirdparty);
      std', local', thirdparty' := std, local, thirdparty + 1;
  }

  /** One turn of the loop of `sortImport`, stated on `SortState`: line `i`
      sits at `i + 3`, is not the closing line, and moving it in front of the
      separator of its group gives the state after `i`. */
  lemma StepLink(lines: seq<Line>, head: nat, i: nat, groupOf: Line -> Group)
    requires head <= i < |lines| && i < FindClose(lines, head)
    ensures var out := SortState(lines, head, i, groupOf);
            var std, local := GroupMark(lines, head, i, Std, groupOf), GroupMark(lines, head, i, Local, groupOf);
            var g := groupOf(out[i + 3]);
            && std < local < i + 2
            && !ClosesBlock(out[i + 3])
            && SortState(lines, head, i + 1, groupOf) == MoveBefore(out, i + 3, SeparatorFor(g, std, local, i + 2))
            && GroupMark(lines, head, i + 1, Std, groupOf) == std + (if g == Std then 1 else 0)
            && GroupMark(lines, head, i + 1, Local, groupOf) == local + (if g != ThirdParty then 1 else 0)
  {
    var out := SortState(lines, head, i, groupOf);
    assert out[i + 3] == lines[i] by {
      assert out[i + 3..][0] == lines[i..][0];
    }
    SortStep(lines, head, i, groupOf);
    GroupMarkStep(lines, head, i, groupOf);
  }

  /** The list after one call of `sortImport` with its head at `head`: the
      region from `head` up to the closing line, or to the end of the list,
      replaced by its three groups. */
  function Rewrite(lines: seq<Line>, head: nat, groupOf: Line -> Group): (r: seq<Line>)
    requires head < |lines|
    ensures |r| == |lines| + 3
  {
    SortState(lines, head, FindClose(lines, head), groupOf)
  }

  /** A block region holding a single standard-library line comes out as
      that line followed by the three separators. */
  lemma OneStdLine(lines: seq<Line>, head: nat, groupOf: Line -> Group)
    requires head < |lines| && groupOf(lines[head]) == Std
    ensures SortState(lines, head, head + 1, groupOf) == lines[..head + 1] + [Marker, Marker, Marker] + lines[head + 1..]
  {
    var x, pre, rest := lines[head], lines[..head], lines[head + 1..];
    var region := lines[head..head + 1];
    assert region == [x];
    SelectAll(region, Std, groupOf);
    SelectNone(region, Local, groupOf);
    SelectNone(region, ThirdParty, groupOf);
    assert SortState(lines, head, head + 1, groupOf) == Layout(pre, [x], [], [], rest);
    assert lines[..head + 1] == pre + [x];
  }

  /** The loop of `sortImport`, replaying its list operations for any
      classifier: three separator lines are inserted before `head`, then each
      line up to the closing `)` is moved in front of the separator of its
      group. The result is the partition `SortState` describes, up to the
      first closing line. */
  method SortBlock(lines: seq<Line>, head: nat, groupOf: Line -> Group)
    returns (out: seq<Line>, next: Option<nat>)
    requires head < |lines|
    ensures out == Rewrite(lines, head, groupOf)
    ensures next == if FindClose(lines, head) < |lines| then Some(FindClose(lines, head) + 3) else None
  {
    var std, local, thirdparty;
    out, std, local, thirdparty := InsertSeparators(lines, head, groupOf);
    var cur := head + 3;
    while cur < |out| && !ClosesBlock(out[cur])
      invariant LoopState(lines, head, groupOf, out, cur, std, local, thirdparty)
      decreases |lines| + 3 - cur
    {
      out, std, local, thirdparty := SortNext(lines, head, groupOf, out, cur, std, local, thirdparty);
      cur := cur + 1;
    }
    LoopExit(lines, head, groupOf, out, cur, std, local, thirdparty);
    next := if cur < |out| then Some(cur) else None;
  }

  /** The loop of `sortImport` stops exactly at the closing line of the
      block, or at the end of the list when there is none, and the list is
      then the rewritten one. */
  lemma LoopExit(lines: seq<Line>, head: nat, groupOf: Line -> Group,
                 out: seq<Line>, cur: nat, std: nat, local: nat, thirdparty: nat)
    requires head < |lines| && LoopState(lines, head, groupOf, out, cur, std, local, thirdparty)
    requires cur < |out| ==> ClosesBlock(out[cur])
    ensures cur == FindClose(lines, head) + 3
    ensures out == Rewrite(lines, head, groupOf)
  {
    if cur < |out| {
      SortStateFrame(lines, head, cur - 3, groupOf);
      assert out[cur] == lines[cur - 3] by {
        assert out[cur..][0] == lines[cur - 3..][0];
      }
    }
  }

  /** `sortImport` with its own classifier: the standard-library set first,
      then the local prefix. It returns the first `)` line of the block,
      three places further down, or nil when the list runs out first. */
  method SortImport(lines: seq<Line>, head: nat, stdPkgs: set<string>, localPrefix: string)
    returns (out: seq<Line>, next: Option<nat>)
    requires head < |lines|
    ensures out == Rewrite(lines, head, GroupOf(stdPkgs, localPrefix))
    ensures next.Some? <==> exists k :: head <= k < |lines| && ClosesBlock(lines[k])
    ensures next.Some? ==> head + 3 <= next.value < |out| && ClosesBlock(out[next.value])
    ensures next == if FindClose(lines, head) < |lines| then Some(FindClose(lines, head) + 3) else None
    ensures next.Some? ==> next.value == FindClose(out, head)
  {
    out, next := SortBlock(lines, head, GroupOf(stdPkgs, localPrefix));
    CloseFound(lines, head, GroupOf(stdPkgs, localPrefix));
    FindCloseAfterSort(lines, head, GroupOf(stdPkgs, localPrefix));
  }
}
