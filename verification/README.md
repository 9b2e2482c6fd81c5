# gogimport: the line-based import grouper

`gogimport` regroups the imports of a Go source file into three groups:
standard library, local packages and third-party packages. The
implementation in `main.go` works on the file as a list of lines:

- `dealLines` looks for a line that starts with `import (`.
- `sortImport` inserts three separator lines (`"\n"`) in front of the first
  line of the block: one closing the standard-library group, one closing the
  local group, one closing the third-party group.
- It then moves each line of the block, up to the first line that starts
  with `)`, in front of the separator of its group.
- A line's group is decided by `getImportPkg`, which extracts the quoted path
  (or, without quotes, the whole trimmed line). The path is looked up in
  the standard-library set first and matched against the local prefix second.
- `linesToBuffer` joins the lines with newlines.

This project models that engine in Dafny:

- `Text`: the byte-slice helpers it relies on (`bytes.HasPrefix`,
  `bytes.Index`, `bytes.TrimSpace`, `bytes.Trim`) and its three constants.
- `ImportPkg`: `getImportPkg`.
- `Grouper`:
  - `findImportLine` and `sortImport`;
  - the `container/list` operations, replayed on a sequence;
  - a declarative description of the result (`SortState`, `Rewrite`) that the
    replay is proved equal to.
- `Driver`: `dealLines`, both as written and with the resumption point the
  code evidently intends (see Findings).
- `Buffer`: `linesToBuffer` and its inverse, splitting a text at newlines.

A list element is an index into the sequence of lines. A nil argument of
`findImportLine` is the index `|lines|`. A nil element returned by
`findImportLine` or `sortImport` is `None`. Where the code dereferences nil,
the outcome is `Outcome.Panic`.

Two kinds of result are proved:

- The replay of `sortImport` equals the declarative rewrite. That rewrite keeps
  every line and adds exactly three separators. The groups come in the order
  standard library, local, third party. Each group keeps the order its lines
  had in the block. The lines before the block stay where they were, and
  the lines from the closing `)` on move down by exactly three places.
- `dealLines` as written never ends on a file with a closed block. The
  corrected loop always ends. It returns the input with triples of
  separators added, or it panics; a panic happens only when the file's
  last line opens a block, so `sortImport` is handed a nil head.

The classifier of `sortImport` is `GroupOf(stdPkgs, localPrefix)`. Most
grouping facts are stated for an arbitrary classifier `Line -> Group` and
then instantiated with it.

## Model

| member | source | states |
|---|---|---|
| Text.HasPrefixChars | main.go:201 | `bytes.HasPrefix` (also at main.go:215, and `strings.HasPrefix` at main.go:221) holds exactly when the prefix fits and matches character by character; the empty prefix always matches |
| Text.TrimSpace | main.go:234 | `bytes.TrimSpace` (also at main.go:236) leaves no whitespace at either end; an all-whitespace text gives the empty text; a text without whitespace is unchanged |
| Text.IndexOf | main.go:232 | the position of the first occurrence of the character, and -1 exactly when the character does not occur |
| Text.LeadingCut | main.go:234 | the length of the longest prefix made only of cutset characters |
| Text.TrimLeft | main.go:234 | drops only cutset characters from the front, and what remains does not start with one |
| Text.TrimRight | main.go:234 | drops only cutset characters from the back, and what remains does not end with one |
| Text.Trim | main.go:234 | the result neither starts nor ends with a cutset character; an all-cutset text gives the empty text; a text without cutset characters comes back unchanged |
| Text.TrimOf | main.go:234 | trimming a core that is framed by cutset characters on both sides yields exactly the core |
| Text.TrimWithout | main.go:234 | trimming never introduces a character that was absent |
| Text.TrimQuotes | main.go:234 | the result has no quote at either end, and a quote-free text is unchanged |
| ImportPkg.PkgStart | main.go:232-236 | the path text starts at the first quote when one exists past column 0; it starts at column 0 when there is no quote or the quote is in column 0 |
| ImportPkg.GetImportPkg | main.go:231-237 | the path is no longer than the line and has no quote at either end; a line without quotes gives the line with whitespace trimmed |
| ImportPkg.SpecLinePath | main.go:231-237 | a line made of a quote-free lead (an indent, an alias or both), then `"path"`, then trailing whitespace, yields exactly `path` |
| ImportPkg.QuotedPathStart | main.go:232-235 | a quote-free lead followed by a quote makes the extraction start at that quote |
| ImportPkg.UnquotedLine | main.go:236 | a line without quotes yields its body with whitespace trimmed, alias and all |
| ImportPkg.BlankLineHasEmptyPkg | main.go:236 | a blank line, a separator line in particular, yields the empty path |
| ImportPkg.AliasedPathExample | main_test.go:20-23 | `alias "byte"` gives `byte` |
| ImportPkg.UnquotedAliasExample | main_test.go:25-28 | `alias byte` gives `alias byte` |
| ImportPkg.BareQuotedPathExample | main_test.go:30-33 | `"byte"` gives `byte` |
| ImportPkg.IndentedPathExample | main_test.go:35-38 | a tab followed by `"byte"` gives `byte` |
| ImportPkg.BareWordExample | main_test.go:40-43 | `byte` gives `byte` |
| Grouper.Classify | main.go:218-225 | the group is Std exactly when the path is in the standard-library set, so that test comes first; Local exactly when it is not and has the local prefix; ThirdParty exactly when it is neither; never ThirdParty when the prefix is empty |
| Grouper.CommentedImportIsStd | main.go:232-234 | a commented-out `// "path"` line inside a block yields `path`, so it is grouped by that path: standard library whenever the path is in the set |
| Grouper.LineGroup | main.go:217-225 | `getImportPkg` followed by the `switch` (the classifier `Grouper.GroupOf` applies it to each line): Std exactly when the extracted path is in the standard-library set, Local exactly when it is not and has the local prefix, ThirdParty exactly when it is neither |
| Grouper.OpensBlock | main.go:201 | a line opens a block exactly when its first eight characters are `import (`; such a line never closes a block and is never a separator |
| Grouper.ClosesBlock | main.go:215 | a line closes a block exactly when its first character is `)`; a separator never does |
| Grouper.FindImportLine | main.go:200-205 | the first line from `start` that starts with `import (`, or None when no such line exists |
| Grouper.FindImportLineIs | main.go:200-205 | a line opening a block, with no opening line before it, is the one found |
| Grouper.SingleImportIgnored | main.go:157 | a single-line `import "path"` never opens a block |
| Grouper.FindClose | main.go:215 | the loop stops at the first line from `head` that starts with `)`, or at the end of the list |
| Grouper.FindCloseIs | main.go:215 | a closing line, with no closing line before it, is where the loop stops |
| Grouper.InsertBefore | main.go:210-212 | `InsertBefore(v, mark)` puts `v` at the place of `mark` and shifts the rest by one |
| Grouper.MoveBackward | main.go:220-224 | `MoveBefore(e, mark)` with `mark` earlier than `e` takes `e` out and puts it just before `mark` |
| Grouper.InsertSeparators | main.go:210-212 | the three separators, inserted in front of `head` in the order std, local, third party, give the state in which no line has moved yet |
| Grouper.SortStep | main.go:215-226 | moving line `i` in front of the separator of its group turns the state before `i` into the state after it |
| Grouper.StepLink | main.go:215-226 | line `i` is at `i + 3`, is not a closing line, and one iteration yields the next state with the separator positions updated |
| Grouper.MoveIntoStd | main.go:219-220 | moving the current line in front of the std separator appends it to the standard-library group and leaves the other groups alone |
| Grouper.MoveIntoLocal | main.go:221-222 | moving the current line in front of the local separator appends it to the local group and leaves the other groups alone |
| Grouper.MoveIntoThirdParty | main.go:223-224 | moving the current line in front of the third-party separator appends it to the third-party group and leaves the other groups alone |
| Grouper.GroupMarkOrder | main.go:210-212 | the std separator precedes the local one, which precedes the third-party one |
| Grouper.SortNext | main.go:216-225 | one loop iteration, the current line moved in front of the separator of its group, keeps the loop state: the list is the declarative state one line further on, with the separators where that state has them |
| Grouper.LoopExit | main.go:215 | the loop stops at the first closing line, or at the end of the list, with the rewritten list in hand |
| Grouper.SortBlock | main.go:209-228 | replaying the list operations for any classifier gives the declarative rewrite, and the returned element is the `)` line or nil |
| Grouper.SortImport | main.go:209-229 | `sortImport` produces the declarative rewrite; it returns an element exactly when some line from `head` on starts with `)`, and that element is the first line from `head` of the new list that starts with `)`, the input's first closing line three places further down |
| Grouper.CloseFound | main.go:215-227 | the returned element exists exactly when a closing line exists, and it is the same line three places further down |
| Grouper.SortState | main.go:209-226 | the list while the loop runs: the scanned lines of the block in three groups, each closed by a separator, between the untouched lines before `head` and the unscanned rest; three lines longer than the input |
| Grouper.Rewrite | main.go:209-226 | the list after `sortImport`: the block up to its first `)`, or to the end of the list, in three groups; three lines longer than the input |
| Grouper.SortStateFrame | main.go:209-226 | the lines before `head` stay in place, and the lines from the scan point on move down by exactly three |
| Grouper.RewriteFrame | main.go:209-226 | the lines up to the block stay in place, and the lines from the `)` on only move down by the three separators |
| Grouper.SelectInGroup | main.go:218-225 | each group holds only lines of that group |
| Grouper.SelectSizes | main.go:218-225 | the three group sizes add up to the block size |
| Grouper.SelectPartition | main.go:218-225 | the three groups together are a permutation of the block: no line is lost, duplicated or invented |
| Grouper.SelectAppend | main.go:215-226 | grouping distributes over concatenation, so each group keeps the order its lines had in the block |
| Grouper.SelectAll | main.go:218-225 | a block whose lines all belong to one group ends up whole in that group |
| Grouper.SelectNone | main.go:218-225 | a group that none of the lines belongs to stays empty |
| Grouper.SelectWithin | main.go:218-225 | each group holds only lines of the block |
| Grouper.SortStatePreservesLines | main.go:209-226 | the rewritten list is a permutation of the input plus exactly three separator lines |
| Grouper.SortStateRegion | main.go:209-226 | between `head` and the unscanned rest there are only separators and lines of the scanned block |
| Grouper.NoThirdPartyWithoutPrefix | main.go:192 | with the empty local prefix that `dealLines` passes, the third-party group is always empty |
| Grouper.FindCloseAfterSort | main.go:215 | rescanning the rewritten list from `head` stops at the same `)`, three lines later |
| Grouper.OneStdLine | main.go:209-226 | a block holding one standard-library line becomes that line followed by three separators |
| Driver.BagIsMultiset | main.go:209-226 | helper: the line-by-line bag of a list is its multiset, which links `Driver.AddsSeparators` to the multiset result of `Grouper.SortStatePreservesLines` |
| Driver.AddsSeparatorsTrans | main.go:185-198 | two rounds that each add separator triples together add separator triples |
| Driver.SortRound | main.go:192 | one call of `sortImport` adds one triple of separators, leaves the lines before the block alone, and keeps the last line last when a `)` was found |
| Driver.RescanFindsSameBlock | main.go:188-192 | after a closed block is sorted, the search from the front finds the same `import (` line again, and its first `)` is the old one three places further down |
| Driver.DealLinesAsWritten | main.go:185-198 | `dealLines` as written, bounded by fuel: on a file whose first block is open or missing, it returns an answer at once |
| Driver.AsWrittenRound | main.go:187-196 | one pass of the loop as written, searching from the front: only a closed first block sends it round again |
| Driver.AsWrittenRescans | main.go:187-196 | a round of the loop as written on a file with a closed first block leaves a file with a closed first block |
| Driver.AsWrittenDiverges | main.go:187-196 | once the first block is closed, the loop as written never ends, however much fuel it has |
| Driver.AsWrittenAgrees | main.go:187-196 | when the first block is open or missing, a round of the loop as written gives what the corrected loop gives |
| Driver.AsWrittenAddsSeparators | main.go:185-198 | whatever the loop as written returns is the input plus separator triples, and it panics only when the last line opens a block |
| Driver.DealFrom | main.go:185-198 | the corrected loop always gives an answer |
| Driver.DealRound | main.go:192-195 | one corrected round on a found block always yields an answer, whether it ends with the sorted list or resumes at the `)` (the two cases are unfolded by `Driver.DealFromResumes`) |
| Driver.DealFromSound | main.go:185-198 | the corrected loop returns the input plus separator triples, leaving the lines before its start alone, or it panics, and only on a file whose last line opens a block |
| Driver.RoundOpen | main.go:192-195 | for a block that no `)` closes, the run ends with the sorted list |
| Driver.RoundClosed | main.go:192-195 | for a closed block, the run goes on in the sorted list with fewer lines left to scan and the same outcome ahead |
| Driver.SoundStep | main.go:187-196 | soundness carries back over a round that adds separators and keeps the lines before the block |
| Driver.DealFromResumes | main.go:192-195 | one corrected round ends the run with the sorted list when the block is open, and otherwise resumes it at the `)` |
| Driver.ResumeGoes | main.go:192-195 | for a closed block, the run resumes at the `)` of the sorted list with the same outcome ahead |
| Driver.ResumeMeasure | main.go:192-195 | the resumption point is past the opening line and leaves fewer lines to scan |
| Driver.DealStep | main.go:187-196 | one pass either ends with the run's outcome or hands on a state with the same outcome ahead and fewer lines to scan |
| Driver.LastRound | main.go:192-195 | an open block ends the run with its sorted list |
| Driver.NextRound | main.go:192-195 | a closed block hands the run on to the sorted list, resuming at the `)` line itself, which closes the block there, with fewer lines left to scan and the same outcome ahead |
| Driver.DealLines | main.go:185-198 | the corrected `dealLines` returns the reference outcome: the input plus separator triples, or a panic, which happens only on a file whose last line opens a block |
| Driver.ClosingLineEndsRun | main.go:200-205 | a search that starts at a closing last line finds nothing, so the run ends there |
| Driver.ClosedBlockBounds | main.go:200-205 | the example block opens at line 0 and closes at line 2 |
| Driver.ClosedBlockRewrite | main.go:209-226 | `sortImport` on the example puts three separators after its one line |
| Driver.FmtLineIsStd | main.go:217-220 | a `fmt` line is classified as standard library |
| Driver.ClosedBlockDiverges | main.go:188 | the loop as written never ends on `import (`, `"fmt"`, `)` |
| Driver.ClosedBlockSorted | main.go:185-198 | the corrected loop on the same file returns it with three separators after the `fmt` line |
| Driver.ClosedBlockExample | main.go:185-198 | with the classifier of `dealLines`, the loop as written diverges on the example and the corrected one sorts it |
| Buffer.Split | main.go:239-251 | splitting a text at its newlines always gives at least one line |
| Buffer.SplitLine | main.go:239-251 | a line without newlines reads back as itself |
| Buffer.SplitMarker | main.go:207 | a separator line is written as a line break of its own, so it reads back as two empty lines |
| Buffer.SplitAppend | main.go:239-251 | a newline in the middle of a text splits it into the lines of the two halves |
| Buffer.SplitJoin | main.go:239-251 | reading the joined text back gives each line cut at its own newlines |
| Buffer.SplitAllPlain | main.go:239-251 | lines without newlines come back unchanged |
| Buffer.WriteStep | main.go:242-249 | writing a line, followed by a newline unless it is the last, keeps the text written a prefix of the join |
| Buffer.LinesToBuffer | main.go:239-251 | the written text is the lines joined by single newlines, with no trailing newline; an empty list gives the empty text, and the text splits back into the lines |

## Left out

- `initStdPkg` (main.go:54-108) builds the standard-library set by listing the Go toolchain's packages. The model takes the set as the parameter `stdPkgs`.
- `main` and its flags (main.go:26-52) are command-line handling. It calls `sortFile` on each file argument and discards the result, so the rewritten text is never written back.
- `sortFile` and `scannFileLines` (main.go:160-172, 176-183) read the file through `bufio.Scanner`. The model starts from the list of lines `dealLines` receives.
- `format.Source` (main.go:171) is the gofmt pass over the result. It is a foreign call; in particular it is what turns the doubled newlines into single blank lines and sorts within groups.
- `sortFromIOl` (main.go:174) is declared without a body.
- The commented-out `Sorter` code (main.go:110-154) is not compiled.
- `importOnePrefix` (main.go:156) is declared but never read.
- `Test_formatFromIO` (main_test.go:54-139) formats whole files through gofmt and the toolchain's package list, both of which are outside this model.
- Lines are modelled as strings of characters, not byte slices. `bytes.TrimSpace` is modelled by its rune predicate, with the lines taken as already decoded.
- Element identity in `container/list` is modelled by positions. `Grouper.MoveBefore` itself states only that the length is kept; the effect of each move the code makes is stated by `Grouper.MoveBackward`, `Grouper.MoveIntoStd`, `Grouper.MoveIntoLocal` and `Grouper.MoveIntoThirdParty`.
- Driver.DealLinesAsWritten: bounded by fuel, because the loop as written need not end. Running out of fuel is the outcome `OutOfFuel`, and no statement is made about termination beyond `Driver.AsWrittenDiverges`.

## Notes on main.go

- The standard-library set is consulted before the local prefix.
- Nothing is sorted within a group; gofmt does that later.
- Three separators are always inserted, even for empty groups.
- The required `-local` flag (main.go:26, 38-41) is never used after its length check, because `dealLines` passes `""` as the local prefix (main.go:192).
- Blank and comment lines inside a block are not dropped: they are classified by the path `getImportPkg` extracts from them. A blank line gives the empty path, which is local under the empty prefix `dealLines` passes unless `""` is in the standard-library set. A commented-out `// "fmt"` gives `fmt`, which is standard library whenever `fmt` is in the set (`Grouper.CommentedImportIsStd`).

## Findings

| source | as written | input that shows it | evidently intended | confidence | as-written member | corrected member |
|---|---|---|---|---|---|---|
| main.go:188 | every round searches for `import (` from `lines.Front()` again, so after the first block is sorted the same block is found and sorted again, forever, adding three separators each time | the three lines `import (`, `"fmt"` (tab-indented), `)` | the search resumes at the `)` element that `sortImport` returned in the previous round, so each block is sorted once and the loop ends | not executed | Driver.DealLinesAsWritten, Driver.ClosedBlockDiverges | Driver.DealLines, Driver.ClosedBlockSorted |
