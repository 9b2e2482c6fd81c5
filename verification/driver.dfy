/**
 `dealLines`: the loop that finds each `import (` block of the file and hands
 it to `sortImport` with an empty local prefix.
 */
module Driver {

  import opened Wrappers
  import opened Text
  import opened Grouper

  /** How a run over the list ends: with the rewritten lines, with the nil
      dereference of `InsertBefore(newline, nil)` when `import (` is the last
      line, or, for the fuel-bounded model of a loop that need not stop,
      without an answer. */
  datatype Outcome = Done(lines: seq<Line>) | Panic | OutOfFuel

  /** `after` is `before` with some whole number of triples of separator lines
      added and nothing else changed in content. */
  predicate AddsSeparators(before: seq<Line>, after: seq<Line>) {
    && |before| <= |after|
    && (|after| - |before|) % 3 == 0
    && Bag(after) == Bag(before) + Markers(|after| - |before|)
  }

  /** The lines of `s` as a bag, counted one line at a time from the end. */
  function Bag(s: seq<Line>): multiset<Line>
    decreases |s|
  {
    if |s| == 0 then multiset{} else Bag(s[..|s| - 1]) + multiset{s[|s| - 1]}
  }

  /** `Bag` is the multiset of the sequence. */
  lemma {:induction false} BagIsMultiset(s: seq<Line>)
    ensures Bag(s) == multiset(s)
    decreases |s|
  {
    if |s| > 0 {
      BagIsMultiset(s[..|s| - 1]);
      assert s == s[..|s| - 1] + [s[|s| - 1]];
    }
  }

  /** `n` separator lines. */
  function Markers(n: nat): (m: multiset<Line>)
    ensures |m| == n
  {
    multiset{}[Marker := n]
  }

  /** The first block of the file is closed: the search from the front finds
      an `import (` line and a `)` line follows it. */
  predicate FirstBlockClosed(lines: seq<Line>) {
    match FindImportLine(lines, 0)
    case None => false
    case Some(k) => FindClose(lines, k + 1) < |lines|
  }

  /** One call of `sortImport` adds one triple of separators and keeps the
      last line of the file where it is whenever a `)` was found. */
  lemma SortRound(lines: seq<Line>, head: nat, groupOf: Line -> Group, out: seq<Line>)
    requires head < |lines| && out == Rewrite(lines, head, groupOf)
    ensures AddsSeparators(lines, out) && head <= |out| && out[..head] == lines[..head]
    ensures FindClose(lines, head) < |lines| ==> out[|out| - 1] == lines[|lines| - 1]
  {
    var close := FindClose(lines, head);
    RewriteFrame(lines, head, groupOf);
    SortRoundBag(lines, head, groupOf, out);
    if close < |lines| {
      assert out[|out| - 1] == out[close + 3..][|lines| - 1 - close];
    }
  }

  /** The content half of `SortRound`: the three separators are the only
      lines added. */
  lemma SortRoundBag(lines: seq<Line>, head: nat, groupOf: Line -> Group, out: seq<Line>)
    requires head < |lines| && out == Rewrite(lines, head, groupOf)
    ensures AddsSeparators(lines, out)
  {
    SortStatePreservesLines(lines, head, FindClose(lines, head), groupOf);
    BagIsMultiset(lines);
    BagIsMultiset(out);
    assert multiset{Marker, Marker, Marker} == Markers(3);
  }

  /** Two steps that each add separators add separators together. */
  lemma AddsSeparatorsTrans(a: seq<Line>, b: seq<Line>, c: seq<Line>)
    requires AddsSeparators(a, b) && AddsSeparators(b, c)
    ensures AddsSeparators(a, c)
  {
    assert Markers(|b| - |a|) + Markers(|c| - |b|) == Markers(|c| - |a|);
  }

  /** Agreement on the first `m` lines gives agreement on the first `n`. */
  lemma PrefixOfPrefix(a: seq<Line>, b: seq<Line>, n: nat, m: nat)
    requires n <= m <= |a| && m <= |b| && a[..m] == b[..m]
    ensures a[..n] == b[..n]
  {
    assert a[..n] == a[..m][..n];
    assert b[..n] == b[..m][..n];
  }

  /** The rewritten list again opens its first block at `k` and closes it
      three lines further down, so the search from the front finds the same
      block once more. */
  lemma RescanFindsSameBlock(lines: seq<Line>, groupOf: Line -> Group)
    requires FirstBlockClosed(lines)
    ensures var k := FindImportLine(lines, 0).value;
            var close := FindClose(lines, k + 1);
            && k + 1 < |lines|
            && FindImportLine(Rewrite(lines, k + 1, groupOf), 0) == Some(k)
            && FindClose(Rewrite(lines, k + 1, groupOf), k + 1) == close + 3
            && FirstBlockClosed(Rewrite(lines, k + 1, groupOf))
  {
    var k := FindImportLine(lines, 0).value;
    var close := FindClose(lines, k + 1);
    var out := Rewrite(lines, k + 1, groupOf);
    assert forall j :: 0 <= j <= k ==> out[j] == lines[j] by {
      assert out[..k + 1] == lines[..k + 1];
      forall j | 0 <= j <= k ensures out[j] == lines[j] {
        assert out[..k + 1][j] == lines[..k + 1][j];
      }
    }
    FindImportLineIs(out, 0, k);
    FindCloseAfterSort(lines, k + 1, groupOf);
  }

  /** `dealLines` as written: every round searches for `import (` from the
      front of the list again. */
  function DealLinesAsWritten(lines: seq<Line>, groupOf: Line -> Group, fuel: nat): (r: Outcome)
    ensures fuel > 0 && !FirstBlockClosed(lines) ==> !r.OutOfFuel?
    decreases fuel, 1
  {
    if fuel == 0 then OutOfFuel else AsWrittenRound(lines, groupOf, fuel)
  }

  /** One pass of the loop of `dealLines` as written: find the first
      `import (` of the list, sort the block after it, and go round again
      unless nothing was found or no `)` ended the block. Only a closed
      first block sends it round again. */
  function AsWrittenRound(lines: seq<Line>, groupOf: Line -> Group, fuel: nat): (r: Outcome)
    requires fuel > 0
    ensures !FirstBlockClosed(lines) ==> !r.OutOfFuel?
    decreases fuel, 0
  {
    match FindImportLine(lines, 0)
    case None => Done(lines)
    case Some(k) =>
      if k + 1 == |lines| then Panic
      else
        var out := Rewrite(lines, k + 1, groupOf);
        if FindClose(lines, k + 1) == |lines| then Done(out)
        else DealLinesAsWritten(out, groupOf, fuel - 1)
  }

  /** Whatever the loop as written returns holds the lines of the input and
      some triples of separators; it panics only on a file whose last line
      opens a block. It can return only when the first block it meets is
      left open, and then it returns what the corrected loop returns. */
  lemma AsWrittenAddsSeparators(lines: seq<Line>, groupOf: Line -> Group, fuel: nat)
    ensures Sound(lines, 0, DealLinesAsWritten(lines, groupOf, fuel))
  {
    if fuel > 0 {
      if FirstBlockClosed(lines) {
        AsWrittenDiverges(lines, groupOf, fuel);
      } else {
        AsWrittenAgrees(lines, groupOf, fuel);
        DealFromSound(lines, 0, groupOf);
      }
    }
  }

  /** Once the first block of the file is closed, the loop as written sorts
      that block again in every round and never stops, whatever the fuel. */
  lemma {:induction false} AsWrittenDiverges(lines: seq<Line>, groupOf: Line -> Group, fuel: nat)
    requires FirstBlockClosed(lines)
    ensures DealLinesAsWritten(lines, groupOf, fuel) == OutOfFuel
    decreases fuel
  {
    if fuel > 0 {
      var out := AsWrittenRescans(lines, groupOf, fuel);
      AsWrittenDiverges(out, groupOf, fuel - 1);
    }
  }

  /** A round of the loop as written on a file whose first block is closed
      leaves a file whose first block is closed. */
  lemma AsWrittenRescans(lines: seq<Line>, groupOf: Line -> Group, fuel: nat) returns (out: seq<Line>)
    requires FirstBlockClosed(lines) && fuel > 0
    ensures FirstBlockClosed(out)
    ensures AsWrittenRound(lines, groupOf, fuel) == DealLinesAsWritten(out, groupOf, fuel - 1)
  {
    var k := FindImportLine(lines, 0).value;
    out := Rewrite(lines, k + 1, groupOf);
    RescanFindsSameBlock(lines, groupOf);
  }

  /** Until the search from the front meets a closed block, the loop as
      written and the corrected one take the same single round. */
  lemma AsWrittenAgrees(lines: seq<Line>, groupOf: Line -> Group, fuel: nat)
    requires !FirstBlockClosed(lines) && fuel > 0
    ensures AsWrittenRound(lines, groupOf, fuel) == DealFrom(lines, 0, groupOf)
  {
    match FindImportLine(lines, 0)
    case None =>
    case Some(k) =>
      if k + 1 < |lines| {
        assert FindClose(lines, k + 1) == |lines|;
      }
  }

  /** `dealLines` as evidently intended: after a block, the search for the next
      `import (` goes on from the `)` that ended it. */
  function DealFrom(lines: seq<Line>, start: nat, groupOf: Line -> Group): (r: Outcome)
    requires start <= |lines|
    ensures !r.OutOfFuel?
    decreases |lines| - start, 1
  {
    match FindImportLine(lines, start)
    case None => Done(lines)
    case Some(k) => if k + 1 == |lines| then Panic else DealRound(lines, start, k, groupOf)
  }

  /** One round of the corrected loop on the block opened at line `k`: sort
      it, then resume the search at its `)`, if there is one. */
  function DealRound(lines: seq<Line>, start: nat, k: nat, groupOf: Line -> Group): (r: Outcome)
    requires start <= k && k + 1 < |lines|
    ensures !r.OutOfFuel?
    decreases |lines| - start, 0
  {
    var close := FindClose(lines, k + 1);
    var out := Rewrite(lines, k + 1, groupOf);
    if close == |lines| then Done(out) else DealFrom(out, close + 3, groupOf)
  }

  /** The corrected loop run on `a` from line `i` ends exactly as it does on
      `b` from line `j`. */
  predicate SameRun(a: seq<Line>, i: nat, b: seq<Line>, j: nat, groupOf: Line -> Group)
    requires i <= |a| && j <= |b|
  {
    DealFrom(a, i, groupOf) == DealFrom(b, j, groupOf)
  }

  /** What a run of the loop from `start` may return on `lines`: the lines
      with some triples of separators added and those before `start` left
      alone, or the panic on a file whose last line opens a block. */
  predicate Sound(lines: seq<Line>, start: nat, r: Outcome)
    requires start <= |lines|
  {
    && (r.Done? ==> AddsSeparators(lines, r.lines) && |r.lines| >= start && r.lines[..start] == lines[..start])
    && (r.Panic? ==> |lines| > 0 && OpensBlock(lines[|lines| - 1]))
  }

  /** Whatever the corrected loop returns is sound for its input. */
  lemma {:induction false} DealFromSound(lines: seq<Line>, start: nat, groupOf: Line -> Group)
    requires start <= |lines|
    ensures Sound(lines, start, DealFrom(lines, start, groupOf))
    decreases |lines| - start, 1
  {
    var found := FindImportLine(lines, start);
    if found.None? || found.value + 1 == |lines| {
      NoRoundSound(lines, start, groupOf);
    } else {
      var k := found.value;
      if FindClose(lines, k + 1) == |lines| {
        var out := RoundOpen(lines, start, k, groupOf);
        PrefixOfPrefix(out, lines, start, k + 1);
      } else {
        ClosedRoundSound(lines, start, k, groupOf);
      }
    }
  }

  /** A run that meets a closed block is sound when the run it resumes is. */
  lemma {:induction false} ClosedRoundSound(lines: seq<Line>, start: nat, k: nat, groupOf: Line -> Group)
    requires start <= |lines| && FindImportLine(lines, start) == Some(k) && k + 1 < |lines|
    requires FindClose(lines, k + 1) < |lines|
    ensures Sound(lines, start, DealFrom(lines, start, groupOf))
    decreases |lines| - start, 0
  {
    var out, next := RoundClosed(lines, start, k, groupOf);
    DealFromSound(out, next, groupOf);
    ResumedSound(lines, out, start, k + 1, next, groupOf);
  }

  /** A sound run resumed in the sorted list makes the original run sound. */
  lemma ResumedSound(lines: seq<Line>, out: seq<Line>, start: nat, keep: nat, next: nat, groupOf: Line -> Group)
    requires AddsSeparators(lines, out) && |lines| > 0 && out[|out| - 1] == lines[|lines| - 1]
    requires start <= keep <= |lines| && keep <= next <= |out| && out[..keep] == lines[..keep]
    requires SameRun(lines, start, out, next, groupOf)
    requires Sound(out, next, DealFrom(out, next, groupOf))
    ensures Sound(lines, start, DealFrom(lines, start, groupOf))
  {
    SoundStep(lines, out, start, keep, next, DealFrom(out, next, groupOf));
  }

  /** A run that finds no block, or finds one opened by the last line, is
      sound: it returns the lines unchanged, or panics on that last line. */
  lemma NoRoundSound(lines: seq<Line>, start: nat, groupOf: Line -> Group)
    requires start <= |lines|
    requires FindImportLine(lines, start).None? || FindImportLine(lines, start).value + 1 == |lines|
    ensures Sound(lines, start, DealFrom(lines, start, groupOf))
  {
    if FindImportLine(lines, start).None? {
      assert DealFrom(lines, start, groupOf) == Done(lines);
      assert Markers(0) == multiset{};
    } else {
      assert DealFrom(lines, start, groupOf) == Panic;
    }
  }

  /** A round of the corrected loop on a block opened at line `k` that no
      `)` ends: the run ends with the sorted list, which keeps the lines up
      to `k` and adds three separators. */
  lemma RoundOpen(lines: seq<Line>, start: nat, k: nat, groupOf: Line -> Group) returns (out: seq<Line>)
    requires start <= |lines| && FindImportLine(lines, start) == Some(k) && k + 1 < |lines|
    requires FindClose(lines, k + 1) == |lines|
    ensures AddsSeparators(lines, out) && k + 1 <= |out| && out[..k + 1] == lines[..k + 1]
    ensures DealFrom(lines, start, groupOf) == Done(out)
  {
    out := Rewrite(lines, k + 1, groupOf);
    SortRound(lines, k + 1, groupOf, out);
    DealFromResumes(lines, start, k, groupOf, out);
  }

  /** A round of the corrected loop on a block opened at line `k` and closed
      by a `)`: the sorted list keeps the lines up to `k` and the last line,
      adds three separators, and the run goes on in it from `next`, nearer
      to the end. */
  lemma RoundClosed(lines: seq<Line>, start: nat, k: nat, groupOf: Line -> Group) returns (out: seq<Line>, next: nat)
    requires start <= |lines| && FindImportLine(lines, start) == Some(k) && k + 1 < |lines|
    requires FindClose(lines, k + 1) < |lines|
    ensures AddsSeparators(lines, out) && k + 1 <= |out| && out[..k + 1] == lines[..k + 1]
    ensures out[|out| - 1] == lines[|lines| - 1]
    ensures k + 1 <= next <= |out| && |out| - next < |lines| - start
    ensures SameRun(lines, start, out, next, groupOf)
  {
    out := Rewrite(lines, k + 1, groupOf);
    next := FindClose(lines, k + 1) + 3;
    SortRound(lines, k + 1, groupOf, out);
    ResumeMeasure(lines, start, k, groupOf, out, next);
    ResumeGoes(lines, start, k, groupOf, out, next);
  }

  /** Soundness carries back over a step that adds separators, keeps the
      last line and keeps the lines before `keep`. */
  lemma SoundStep(lines: seq<Line>, out: seq<Line>, start: nat, keep: nat, next: nat, r: Outcome)
    requires AddsSeparators(lines, out) && |lines| > 0 && out[|out| - 1] == lines[|lines| - 1]
    requires start <= keep <= |lines| && keep <= next <= |out| && out[..keep] == lines[..keep]
    requires Sound(out, next, r)
    ensures Sound(lines, start, r)
  {
    if r.Done? {
      AddsSeparatorsTrans(lines, out, r.lines);
      PrefixOfPrefix(r.lines, out, keep, next);
      PrefixOfPrefix(r.lines, lines, start, keep);
    }
  }

  /** The smallest file that shows the difference: one closed block. The
      loop as written never ends on it, whatever the classifier. */
  lemma ClosedBlockDiverges(lines: seq<Line>, groupOf: Line -> Group, fuel: nat)
    requires lines == ["import (", "\t\"fmt\"", ")"]
    ensures DealLinesAsWritten(lines, groupOf, fuel) == OutOfFuel
  {
    ClosedBlockBounds(lines);
    AsWrittenDiverges(lines, groupOf, fuel);
  }

  /** On the same file the corrected loop returns the block with its three
      separators behind the line, for any classifier that puts the line in
      the standard-library group. */
  lemma ClosedBlockSorted(lines: seq<Line>, groupOf: Line -> Group)
    requires lines == ["import (", "\t\"fmt\"", ")"]
    requires groupOf(lines[1]) == Std
    ensures DealFrom(lines, 0, groupOf) == Done(["import (", "\t\"fmt\"", Marker, Marker, Marker, ")"])
  {
    ClosedBlockBounds(lines);
    var out := Rewrite(lines, 1, groupOf);
    DealFromResumes(lines, 0, 0, groupOf, out);
    ClosedBlockRewrite(lines, groupOf);
    ClosingLineEndsRun(out, groupOf);
  }

  /** A list whose last line is the `)` of a block: the search from that
      line finds nothing more, so the run ends with the list as it is. */
  lemma ClosingLineEndsRun(lines: seq<Line>, groupOf: Line -> Group)
    requires |lines| > 0 && lines[|lines| - 1] == ImportEnd
    ensures DealFrom(lines, |lines| - 1, groupOf) == Done(lines)
  {
    assert !OpensBlock(lines[|lines| - 1]);
  }

  /** The example with the classifier of `dealLines`: `fmt` is a
      standard-library path. */
  lemma ClosedBlockExample(lines: seq<Line>, stdPkgs: set<string>, fuel: nat)
    requires lines == ["import (", "\t\"fmt\"", ")"]
    requires "fmt" in stdPkgs
    ensures DealLinesAsWritten(lines, GroupOf(stdPkgs, ""), fuel) == OutOfFuel
    ensures DealFrom(lines, 0, GroupOf(stdPkgs, "")) == Done(["import (", "\t\"fmt\"", Marker, Marker, Marker, ")"])
  {
    ClosedBlockDiverges(lines, GroupOf(stdPkgs, ""), fuel);
    FmtLineIsStd(lines[1], stdPkgs);
    ClosedBlockSorted(lines, GroupOf(stdPkgs, ""));
  }

  /** The block of the example opens at line 0 and closes at line 2. */
  lemma ClosedBlockBounds(lines: seq<Line>)
    requires lines == ["import (", "\t\"fmt\"", ")"]
    ensures FindImportLine(lines, 0) == Some(0)
    ensures FindClose(lines, 1) == 2
    ensures FirstBlockClosed(lines)
  {
    assert lines[0][..|ImportMultiPrefix|] == ImportMultiPrefix;
    FindImportLineIs(lines, 0, 0);
    assert lines[2][..|ImportEnd|] == ImportEnd;
    assert !ClosesBlock(lines[1]) by {
      assert lines[1][..|ImportEnd|][0] != ImportEnd[0];
    }
    FindCloseIs(lines, 1, 2);
  }

  /** `sortImport` on the example, for any classifier that puts its one
      line in the standard-library group. */
  lemma ClosedBlockRewrite(lines: seq<Line>, groupOf: Line -> Group)
    requires lines == ["import (", "\t\"fmt\"", ")"]
    requires groupOf(lines[1]) == Std
    ensures SortState(lines, 1, 2, groupOf) == ["import (", "\t\"fmt\"", Marker, Marker, Marker, ")"]
  {
    OneStdLine(lines, 1, groupOf);
    assert lines[..2] == ["import (", "\t\"fmt\""] && lines[2..] == [")"];
  }

  /** `fmt` is a standard-library path: its import line is classified so. */
  lemma FmtLineIsStd(line: Line, stdPkgs: set<string>)
    requires line == "\t\"fmt\""
    requires "fmt" in stdPkgs
    ensures GroupOf(stdPkgs, "")(line) == Std
  {
    var tab, name, none := "\t", "fmt", "";
    assert line == tab + "\"" + name + "\"" + none;
    ImportPkg.SpecLinePath(tab, name, none);
  }

  /** One round of the corrected loop, unfolded: the outcome of the whole
      run is the sorted list when no `)` ends the block, and otherwise that
      of the run resumed at the `)`. */
  lemma DealFromResumes(lines: seq<Line>, start: nat, k: nat, groupOf: Line -> Group, out: seq<Line>)
    requires start <= |lines| && FindImportLine(lines, start) == Some(k) && k + 1 < |lines|
    requires out == Rewrite(lines, k + 1, groupOf)
    ensures FindClose(lines, k + 1) == |lines| ==> DealFrom(lines, start, groupOf) == Done(out)
    ensures FindClose(lines, k + 1) < |lines| ==>
              FindClose(lines, k + 1) + 3 <= |out| && SameRun(lines, start, out, FindClose(lines, k + 1) + 3, groupOf)
  {
    assert DealFrom(lines, start, groupOf) == DealRound(lines, start, k, groupOf);
    DealRoundResumes(lines, start, k, groupOf);
  }

  /** `DealRound` unfolded once, for the two ways a block can end. */
  lemma DealRoundResumes(lines: seq<Line>, start: nat, k: nat, groupOf: Line -> Group)
    requires start <= k && k + 1 < |lines|
    ensures var close := FindClose(lines, k + 1);
            var out := Rewrite(lines, k + 1, groupOf);
            && (close == |lines| ==> DealRound(lines, start, k, groupOf) == Done(out))
            && (close < |lines| ==> close + 3 <= |out| && DealRound(lines, start, k, groupOf) == DealFrom(out, close + 3, groupOf))
  {
  }

  /** One pass of the corrected loop of `dealLines`: either the run ends
      here with its outcome, or it goes on from a later point of a longer
      list with the same outcome ahead. */
  method DealStep(cur: seq<Line>, start: nat, groupOf: Line -> Group)
    returns (ended: Option<Outcome>, cur': seq<Line>, start': nat)
    requires start <= |cur|
    ensures ended.Some? ==> ended.value == DealFrom(cur, start, groupOf)
    ensures ended.None? ==> && start' <= |cur'| && |cur'| - start' < |cur| - start
                            && SameRun(cur, start, cur', start', groupOf)
  {
    cur', start' := cur, start;
    var found := FindImportLine(cur, start);
    if found.None? {
      return Some(Done(cur)), cur', start';
    }
    var k := found.value;
    if k + 1 == |cur| {
      return Some(Panic), cur', start';
    }
    if FindClose(cur, k + 1) == |cur| {
      var out := LastRound(cur, start, k, groupOf);
      return Some(Done(out)), cur', start';
    }
    ended := None;
    cur', start' := NextRound(cur, start, k, groupOf);
  }

  /** The block opened at line `k` runs to the end of the list: its sorted
      list is the outcome of the run. */
  method LastRound(cur: seq<Line>, start: nat, k: nat, groupOf: Line -> Group) returns (out: seq<Line>)
    requires start <= |cur| && FindImportLine(cur, start) == Some(k) && k + 1 < |cur|
    requires FindClose(cur, k + 1) == |cur|
    ensures DealFrom(cur, start, groupOf) == Done(out)
  {
    out := Rewrite(cur, k + 1, groupOf);
    DealFromResumes(cur, start, k, groupOf, out);
  }

  /** The block opened at line `k` is closed: the run goes on in the sorted
      list at the `)` line itself, the element `sortImport` returned. */
  method NextRound(cur: seq<Line>, start: nat, k: nat, groupOf: Line -> Group) returns (cur': seq<Line>, start': nat)
    requires start <= |cur| && FindImportLine(cur, start) == Some(k) && k + 1 < |cur|
    requires FindClose(cur, k + 1) < |cur|
    ensures cur' == Rewrite(cur, k + 1, groupOf) && start' == FindClose(cur, k + 1) + 3
    ensures start' < |cur'| && ClosesBlock(cur'[start'])
    ensures start' <= |cur'| && |cur'| - start' < |cur| - start
    ensures SameRun(cur, start, cur', start', groupOf)
  {
    cur' := Rewrite(cur, k + 1, groupOf);
    start' := FindClose(cur, k + 1) + 3;
    CloseFound(cur, k + 1, groupOf);
    ResumeMeasure(cur, start, k, groupOf, cur', start');
    ResumeGoes(cur, start, k, groupOf, cur', start');
  }

  /** `DealFromResumes` for a closed block, with the resumption point named:
      the run goes on in the sorted list at the `)` line. */
  lemma ResumeGoes(cur: seq<Line>, start: nat, k: nat, groupOf: Line -> Group, out: seq<Line>, next: nat)
    requires start <= |cur| && FindImportLine(cur, start) == Some(k) && k + 1 < |cur|
    requires out == Rewrite(cur, k + 1, groupOf)
    requires FindClose(cur, k + 1) < |cur| && next == FindClose(cur, k + 1) + 3
    ensures next <= |out| && SameRun(cur, start, out, next, groupOf)
  {
    DealFromResumes(cur, start, k, groupOf, out);
  }

  /** The resumption point lies past the opening line, inside the sorted
      list, and leaves fewer lines to scan than the round started with. */
  lemma ResumeMeasure(cur: seq<Line>, start: nat, k: nat, groupOf: Line -> Group, out: seq<Line>, next: nat)
    requires start <= |cur| && FindImportLine(cur, start) == Some(k) && k + 1 < |cur|
    requires out == Rewrite(cur, k + 1, groupOf)
    requires FindClose(cur, k + 1) < |cur| && next == FindClose(cur, k + 1) + 3
    ensures k + 1 <= next <= |out| && |out| - next < |cur| - start
  {
  }

  /** `dealLines`, with the search for the next block resumed at the `)`
      that `sortImport` returns. */
  method DealLines(lines: seq<Line>, stdPkgs: set<string>) returns (r: Outcome)
    ensures r == DealFrom(lines, 0, GroupOf(stdPkgs, ""))
    ensures Sound(lines, 0, r)
  {
    DealFromSound(lines, 0, GroupOf(stdPkgs, ""));
    var cur: seq<Line>, start: nat := lines, 0;
    while true
      invariant start <= |cur|
      invariant SameRun(lines, 0, cur, start, GroupOf(stdPkgs, ""))
      decreases |cur| - start
    {
      var ended;
      ended, cur, start := DealStep(cur, start, GroupOf(stdPkgs, ""));
      if ended.Some? {
        return ended.value;
      }
    }
  }
}
