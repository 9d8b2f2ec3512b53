# Mutation Judge: a verified model

Mutation Judge is a mutation tester for Go. It discovers small source edits (mutants), runs `go test`
on each, and reports which ones the tests notice. This project models the algorithms inside it that
carry real obligations, in Dafny, and proves those obligations for all inputs, all runs and all
interleavings. `dafny verify dfyconfig.toml` checks everything.

The model has five parts.

1. **Running mutants in order.** `OrderedWindow` is the sliding-window executor as a transition system:
   a coordinator, several workers, two bounded channels, a ring of early outcomes and a cancel flag, one
   atomic action at a time. `Coordinator` is the coordinator's own code, a class with an array ring, proved
   against that system while the others interfere. `ParallelExecutor` is the executor that stores results by
   index; `Executors` is the sequential one, the agreement of the three, the score and the report checks.
2. **Equivalent mutants that are never run.** `GoCore` is a small Go-like language with a fuel-indexed
   semantics (closures excepted: assignments, operators that may panic, multi-result calls, arbitrary
   external calls on an arbitrary heap, recursion, loops). `Detectors` and `Discarded` transcribe the three
   syntactic detectors; `Suppression` proves that any number of suppressed edits at once, anywhere in a
   program, cannot be observed.
3. **Discovery order.** `Sorting`, `Heap` and `Merge` hold the list algorithms; `Discovery` is the in-memory
   discovery and the bounded top-K selection; `DiskDiscovery` is the base-16 carry of sorted runs, the merge
   passes, duplicate IDs by external sorting, and discovery to disk.
4. **Text protocols.** `Lines`, `Decimal` and `UnifiedDiff` print the patch of a mutation; `PatchRead` and
   `PatchApply` read and apply it strictly; `DiffOldText` is the comparison tool's reader. `GitDiff` is the
   parser of zero-context git diffs as a line machine, and `GitGrammar` the grammar of exactly the texts it
   accepts. `JsonStream`, `JsonEventStream` and `StreamTheorems` are the bounded incremental consumer of test
   events, `TestEvents` the batch classifier it has to agree with, `StreamLoss` what is left of the agreement
   once something was lost, and `StreamRetains` what is kept of an output besides the verdict.
5. **Evidence.** `CoverRows` reads the rows of a coverage profile, and `Coverage` loads the profile with its index
   of path suffixes; `TestSelection` narrows a run by coverage; `Cache` is the verdict cache shared by concurrent
   analyses.

Definitions that the code and its specification share are tied to a second description that does not use them:
the order of mutations to offsets and characters, numerals to the places of their digits, call sites to a count
of identifiers, collected results to the set of stored mutants, what is cached to the names of the verdicts.

## What was found

Some statements about the code hold only on part of the inputs; each has its exact condition or a concrete
counterexample in the model.

- The patch printed for a mutation is a well-formed patch exactly when the file is not empty, the span does not
  delete the whole file and, if the span takes the newline at its end and lines follow, the new text ends with a
  newline again (`PatchApply.PatchApplies`). For an insertion the last condition always holds.
- A KILLED of the streaming classifier is certain exactly when nothing was lost or a failure was recorded. In that
  case the events say KILLED; in the other, where only tests in flight speak for it, another output has the same
  outcome and its events say INVALID (`StreamLoss.KilledIsCertain`; that there are such outputs is
  `StreamLoss.LossHappens`, and `StreamLoss.LostPass` is one story). The converse asks that the decoder reads some
  lines over the limit, as one does that skips white space.
- The streamed and the batch classifier give every failing test the same name exactly when no first failure of a
  test comes from a package with a NUL byte in its name (`StreamTheorems.NamesByTest`); then the lists hold the same
  names (`StreamTheorems.SameNames`). For an output with one fail event the lists agree exactly when its package has
  no NUL (`StreamTheorems.NamesMayDiffer`). They also differ in form: the batch lists one name for each failing
  test, the stream each name once.
- The joined text of a toolchain, which is part of a cache key, determines the toolchain exactly when none of its
  fields contains the separator `|` (`Cache.ToolchainKeyUnique`), and among the toolchains in which only the flags
  contain it exactly when it is one of these: every joined text belongs to one of them
  (`Cache.ToolchainKeyExactly`). The cache theorems ask for this form. `Cache.ToolchainKeysCollide` is a made-up pair
  that shows a collision; it is not output of a real `go env`.
- On a context that is done beforehand the three executors give the same answer exactly when there are mutants:
  no results, incomplete, no error (`Executors.DoneBeforehand`). Without mutants the sequential and the parallel
  one call themselves complete, and the windowed one does not (`Executors.NoMutants`).

## Model

| member | source | states |
|---|---|---|
| OrderedWindow.SetupIsValid | internal/analysis/ordered_window.go:24-36 | the loop starts exactly for a positive count and at least one worker, with min(workers, count) workers and a window of min(4 * workers, count); a count of zero is answered at once, complete exactly on a live context, and anything else is refused |
| OrderedWindow.StepKeepsInv | internal/analysis/ordered_window.go:50-151 | every enabled step of every party keeps the whole invariant: conservation of indices, ordered log, control, and causes of errors |
| OrderedWindow.GuardNeverFires | internal/analysis/ordered_window.go:110-115 | the duplicate or out-of-window guard cannot fire, because indices inside the window are distinct modulo its size |
| OrderedWindow.SendsNeverBlock | internal/analysis/ordered_window.go:52-73 | whenever the coordinator may queue or a worker is inside run, the channel it will send on has room |
| OrderedWindow.EveryReachableState | internal/analysis/ordered_window.go:57-131 | in every interleaving each queued index is in exactly one place, the log is results 0,1,2,... once each, at most `window` are outstanding and `workers` in work, drops only follow a cancellation, and a hard error has cancelled the rest or its worker is about to |
| OrderedWindow.RankFalls | internal/analysis/ordered_window.go:57-151 | every step, cancellation included, strictly lowers a rank |
| OrderedWindow.Progress | internal/analysis/ordered_window.go:57-151 | a state that has not returned has an enabled step of the coordinator or a worker |
| OrderedWindow.EveryRunEnds | internal/analysis/ordered_window.go:57-151 | no run has more than 9 * count + 7 steps, and one that only the caller's context could continue has returned |
| OrderedWindow.ReturnedResult | internal/analysis/ordered_window.go:132-151 | a hard error of a worker and a refused record surface as an error, an error has a cause, and without one the call is complete unless the caller cancelled |
| OrderedWindow.FailuresSurface | internal/analysis/ordered_window.go:88-150 | in every interleaving the call returns an error exactly when some read, some record or some run failed in it |
| OrderedWindow.ErrorIsReported | internal/analysis/ordered_window.go:88-150 | the error is one that a worker sent, or that of a read or record step that failed in the run, with the index it failed on and its text |
| OrderedWindow.NothingStarts | internal/analysis/ordered_window.go:62-100 | once the inner context is done nothing is queued and no mutant starts to run any more |
| OrderedWindow.UndisturbedRun | internal/analysis/ordered_window.go:16-151 | whatever the completion order, an undisturbed run records f(0), ..., f(count-1) and is complete |
| Coordinator.Window.FillWindow | internal/analysis/ordered_window.go:88-101 | the queueing loop, under interference, stops at a candidate that cannot be read, which becomes the error, or because the window is full, the candidates are used up or the context is done; then it goes on to wait unless nothing is outstanding |
| Coordinator.Window.Receive | internal/analysis/ordered_window.go:103-116 | a received item becomes a hard error or is parked in its slot of the array ring, exactly as the transition system says |
| Coordinator.Window.PersistPrefix | internal/analysis/ordered_window.go:117-127 | the log grows by exactly the results that are counted as committed, until there is a gap, all is recorded, or a record fails, which becomes the error |
| Coordinator.Window.Execute | internal/analysis/ordered_window.go:81-151 | whatever the others do, the loops with their array ring run through steps of the transition system and return; the error is there exactly when a read, record or run failed; a failing call of next or record that was made is the error, with its index and text, and any other error was sent by a worker; a complete answer has recorded every index |
| Coordinator.ExecuteSpooled | internal/analysis/stream.go:107-126 | over a spool, a complete answer has one result for each candidate of the spool, whose number is the count; the call is refused exactly when something failed, or when all went well but candidates are left |
| ParallelExecutor.RunKeeps | internal/analysis/analysis.go:867-932 | in every interleaving of dispatcher and workers the statuses, flags and counters stay consistent, and the number of steps is bounded by a rank |
| ParallelExecutor.Answer | internal/analysis/analysis.go:932-957 | once the pool runs, a hard error of any worker is returned; without one the call is complete unless the caller cancelled; it returns one result for each stored mutant, each behind those of the stored mutants below it, also when it was interrupted; the counters count the executed and the unwritten ones among the returned results |
| ParallelExecutor.CollectExactly | internal/analysis/analysis.go:938-948 | for every list of statuses the collected results are as many as the stored mutants, and the result of each stands at the place that counts the stored mutants below it |
| ParallelExecutor.FirstErrorKept | internal/analysis/analysis.go:896-904 | the hard error that is kept is the one that came first |
| ParallelExecutor.Discipline | internal/analysis/analysis.go:881-930 | no more mutants are in work than there are workers, a hard error makes the inner context done, and after that nothing starts and nothing is stored but what had been started |
| ParallelExecutor.EveryRunEnds | internal/analysis/analysis.go:879-932 | at most 5 * n + 4 steps, and until it has returned some worker or the dispatcher can move |
| ParallelExecutor.UndisturbedPool | internal/analysis/analysis.go:871-957 | whatever the interleaving, an undisturbed run returns f(0), ..., f(n-1) and is complete |
| Executors.ExecuteSequential | internal/analysis/analysis.go:800-841 | the run ends at the first look that finds the context done or the first hard error, whichever comes first; the results are those of run up to there, and the hard error is returned |
| Executors.OneSequentialAnswer | internal/analysis/analysis.go:800-841 | that leaves one answer: no hard error that is reached can be swallowed, no result dropped |
| Executors.ExecutorsAgree | internal/analysis/analysis.go:783-957 | the three executors return the same complete list on undisturbed runs, for all numbers of mutants and all interleavings |
| Executors.NoMutants | internal/analysis/analysis.go:850-852 | without mutants the sequential and the parallel executor answer complete in any case, and the windowed one only when the context is not done |
| Executors.DoneBeforehand | internal/analysis/analysis.go:801-957 | on a context that is done beforehand, with mutants, all three answer no results, incomplete, no error; the sequential and the parallel one are complete exactly without mutants |
| Executors.UndisturbedSequence | internal/analysis/analysis.go:800-841 | an undisturbed sequential run returns f(0), ..., f(n-1) and is complete |
| Executors.ScoreCounter.Add | internal/analysis/stream.go:19-39 | the counter's fields always count the verdicts seen so far |
| Executors.Summarize | internal/analysis/analysis.go:1086-1105 | every field counts the results with its verdict |
| Executors.StreamedScore | internal/analysis/stream.go:19-49 | the counter fed with the results in any order and the loop over the list end with the same summary and score |
| Executors.ScoreMeans | internal/analysis/analysis.go:1106-1114 | the kinds add up; there is a score exactly when something was killed or survived; it times those two together is 100 times the killed, lies between 0 and 100, and is 100 exactly when no scored mutant survived |
| Executors.Validate | internal/model/validate.go:202-249 | accepts exactly the reports with discovered >= retained >= completed = number of results, all of them when complete, distinct nonempty IDs and correct counts |
| Executors.WindowOwes | internal/analysis/stream.go:107-113 | what the windowed executor returns are results of its mutants in order, each under its mutant's ID, and all of them when it is complete |
| Executors.PoolOwes | internal/analysis/analysis.go:938-957 | so is what the parallel executor returns, which loses no stored result |
| Executors.SequenceOwes | internal/analysis/analysis.go:800-841 | and what the sequential executor returns |
| Executors.BuildReport | internal/analysis/analysis.go:960-1009 | every report over what an executor owes for mutants with distinct nonempty IDs is one the validator accepts |
| Detectors.NonInterference | internal/frontend/frontend.go:971-984 | an expression that does not mention a variable has the same value, heap and outcome when only that variable differs, calls included |
| Detectors.DetectDeadStoreLiteral | internal/frontend/frontend.go:896-937 | marks exactly the boolean literals that the next statement overwrites on every path without reading |
| Detectors.DeadStoreShapes | internal/frontend/frontend.go:830-963 | a literal is marked exactly in two shapes: v := true or false, and next v = e, or v = a and v = b alone in the two blocks of an if without init, where neither e, a, b nor the condition mentions v |
| Detectors.FlipTwice | internal/frontend/frontend.go:896-937 | the mutant differs from the original, and flipping it again restores the original |
| Detectors.DeadStoreSound | internal/frontend/frontend.go:896-984 | flipping a marked literal leaves the run of its block unchanged: same flow, variables and heap, for arbitrary calls |
| Detectors.SameRead | internal/frontend/frontend.go:773-827 | operands that the syntactic test calls the same and free of effects evaluate to the same value and leave the heap alone |
| Detectors.FreeOfEffects | internal/frontend/frontend.go:773-788 | an operand passes exactly when no part of it is more than a name, literal, selector, element, dereference or parenthesis |
| Detectors.SameIsEqual | internal/frontend/frontend.go:796-827 | two operands that only read are the same exactly when they are equal but for parentheses |
| Detectors.GuardShape | internal/frontend/frontend.go:724-760 | a comparison is marked exactly in one shape: if l != r without init, whose body is only the return of one ordered comparison of l and r, in either order, operands that only read |
| Detectors.ShiftTwice | internal/frontend/frontend.go:664-677 | the mutant of a marked comparison differs from it, is marked, too, and its mutant is the original |
| Detectors.GuardedComparisonSound | internal/frontend/frontend.go:664-677 | under a marked guard, exchanging a strict and a non-strict comparison gives the same result in every state, for every lawful order |
| Discarded.PureEvaluates | internal/frontend/discarded.go:387-406 | a pure result expression always has a value and does not touch the heap |
| Discarded.PureExactly | internal/frontend/discarded.go:382-406 | an expression is taken for pure exactly when no part of it is a call, a read through a selector, element or pointer, a division, shift, equality, address or receive, or anything else that is not an operation |
| Discarded.EligibleExactly | internal/frontend/discarded.go:275-294 | eligible are exactly the functions, not methods, without type parameters, with a body and at least one result, all unnamed, that are not init, main, blank or exported |
| Discarded.ReferencesAreMentions | internal/frontend/frontend.go:971-984 | an expression references a name exactly when an identifier spelled so occurs in it at least once |
| Discarded.ScanFilesCount | internal/frontend/discarded.go:304-380 | the scan of a package counts the identifiers spelled like the function, and gives up exactly when one of them is not the callee of a call statement or of an assignment to as many targets as results with a blank for the claimed one |
| Discarded.DiscardingForms | internal/frontend/discarded.go:324-350 | a call statement and an assignment with the blank in place each count one site; any other target, number of targets or use does not |
| Discarded.ResultDiscarded | internal/frontend/discarded.go:304-380 | true exactly when the package is readable, mentions the name, and every mention is a call that discards the result; the answer then counts the mentions |
| Suppression.SuppressedEditsUnobservable | internal/frontend/discarded.go:410-424 | any number of suppressed edits at once, of all three kinds, nested and side by side, for any number of discarded results of any number of functions, recursion included: every function keeps its heap effect and its results but the claimed ones |
| Suppression.AllFlipsAreEdits | internal/frontend/frontend.go:896-937 | flipping any set of the marked literals of a list at once is such an edit |
| Suppression.MutantsAreEdits | internal/frontend/discarded.go:410-424 | so are the shifted comparison of a marked guard and the return in which a claimed result is replaced, one pure expression for another |
| Suppression.DiscardedResultSound | internal/frontend/discarded.go:277-424 | what the eligibility check and the call-site scan establish, result by result, is enough for that; exported functions, main and init give the very same |
| Suppression.LocalEditsUnobservable | internal/frontend/frontend.go:724-984 | the two local detectors leave every function exactly as it was |
| Lines.NewLineIndex | internal/frontend/frontend.go:1926-1934 | the offsets at which the lines of the text begin |
| Lines.Containing | internal/frontend/frontend.go:1936-1942 | the last line that begins at or before the offset |
| Lines.DiffLines | internal/frontend/frontend.go:1947-1962 | the one way to cut a block into lines that keep their newline |
| UnifiedDiff.Unified | internal/frontend/frontend.go:2013-2059 | the printed text is the patch of the span, an empty one included: up to three context lines, old block, new block, and their counts |
| UnifiedDiff.HunkNumbers | internal/frontend/frontend.go:2013-2059 | the hunk begins up to three lines before the line of the span's first byte, on both sides, and ends up to three lines behind that of its last |
| PatchRead.PatchReads | internal/frontend/frontend.go:1967-2059 | a strict reader gets back the names of both sides, start lines, counts and body of every printed patch |
| PatchRead.PathReads | internal/frontend/frontend.go:1967-1997 | whatever the file is called, quoted or not, the header path is read back as the prefix and the name |
| PatchRead.PathPrints | internal/frontend/frontend.go:1967-1997 | and there is no control character in the header path |
| PatchApply.PatchApplies | internal/frontend/frontend.go:2009-2059 | applied strictly, the printed patch gives source[..start] + replacement + source[end..] exactly when the span is applicable, insertions included, and nothing otherwise |
| DiffOldText.Scan | internal/compare/shift.go:121-137 | the loop that collects the old lines up to the first added one |
| DiffOldText.OldTextRecovered | internal/compare/shift.go:109-137 | whatever the replacement, the reader recovers the lines the span stands on |
| GitDiff.Parse | internal/gitdiff/gitdiff.go:105-271 | the line loop is the machine run over the scanned lines, with the limit on line lengths and the final check |
| GitDiff.Mark | internal/gitdiff/gitdiff.go:229-236 | the loop over the new lines adds exactly the span of the hunk, with the wrap-around of the machine's int |
| GitDiff.SpanIsInterval | internal/gitdiff/gitdiff.go:229-236 | that span is the interval start .. start + count - 1 exactly when it is empty or its last line is representable |
| GitDiff.DecodesExactly | internal/gitdiff/gitdiff.go:73-93 | a header path, unquoted when it is quoted, names nothing when it is /dev/null, and otherwise exactly what follows the prefix, a nonempty relative path |
| Decimal.ParseIsPlaces | internal/gitdiff/gitdiff.go:95-100 | what is read of a numeral is the sum of its digits, each times ten to the number of digits behind it, and nothing but digits is read |
| GitGrammar.HeaderMatches | internal/gitdiff/gitdiff.go:17-17 | every well-formed hunk header is matched with its four numbers |
| GitGrammar.HeaderMatched | internal/gitdiff/gitdiff.go:17-17 | every line the expression matches is such a header |
| GitGrammar.ReadsNumbers | internal/gitdiff/gitdiff.go:213-225 | of a header the start of the new side and both counts are read, by their places, an absent count as one, and a number that does not fit refuses it |
| GitGrammar.SizesCount | internal/gitdiff/gitdiff.go:139-163 | the sizes of a payload count the lines that begin with the sign of the side or a blank |
| GitGrammar.CarriageReturn | internal/gitdiff/gitdiff.go:129-135 | one carriage return before the newline belongs to the end of the line |
| GitGrammar.RunPayload | internal/gitdiff/gitdiff.go:139-163 | a payload of arbitrary signed lines whose sizes are the header's counts is consumed exactly, whatever its lines look like |
| GitGrammar.RunSections | internal/gitdiff/gitdiff.go:105-271 | every text of the grammar is accepted, and the changes found are those its hunks name: as many lines as the number of the new count from the number of the new start |
| GitGrammar.ParsesExactly | internal/gitdiff/gitdiff.go:105-271 | a text that is not blank is accepted with a result exactly when its lines are short enough and form sections of the grammar, hunk payloads matching their headers, that name this result |
| GitGrammar.PrintedParses | internal/gitdiff/gitdiff.go:105-271 | parsing a printed diff gives what its hunks name |
| GitGrammar.PrintedHunk | internal/gitdiff/gitdiff.go:105-271 | in numbers: a printed hunk "@@ -a,b +c,d @@" of a surviving file, with b old and d new payload lines, marks exactly the lines c, ..., c + d - 1 of that file and nothing else |
| GitGrammar.PrintedOneLineHunk | internal/gitdiff/gitdiff.go:95-100 | without counts, "@@ -a +c @@" stands for one line on each side and marks exactly line c |
| GitGrammar.ChangesExactly | internal/gitdiff/gitdiff.go:208-238 | a line of a file is marked exactly when some hunk of a section with that surviving file names it: the number of the line is congruent, in the machine's int, to one of the first new-count numbers from the new start on |
| TestEvents.ClassifyEvents | internal/runner/runner.go:585-643 | the verdict is that of the events; the names are sorted, one for each failing test: that of its first fail event, or the one cut from its key when it is in flight |
| TestEvents.FailedPkgTests | internal/runner/runner.go:656-683 | exactly the tests with a fail event or whose last run, pass, skip or fail event is a run event |
| TestEvents.NameOfKeyExactly | internal/runner/stream.go:193-196 | the name cut from the key of a test is the test's exactly when the package has no NUL in its name |
| JsonStream.FeedConcat | internal/runner/stream.go:78-95 | the state after any sequence of writes depends on the concatenated bytes only |
| JsonStream.FeedIsLines | internal/runner/stream.go:78-125 | every complete line is consumed once and in order, a line over 262144 bytes is dropped whole and recorded as a loss, and what remains is the unfinished line |
| JsonEventStream.BoundedText.Write | internal/runner/stream.go:35-45 | keeps the bytes up to the object's limit and counts all of them modulo 2^64 |
| JsonEventStream.EventStream.Write | internal/runner/stream.go:78-95 | one write of any chunk is the feeding of its bytes one by one, in every field of the object |
| JsonEventStream.EventStream.ConsumeLine | internal/runner/stream.go:110-125 | blank, malformed, oversized and accepted lines each change the state as specified |
| JsonEventStream.EventStream.ObserveEvent | internal/runner/stream.go:127-171 | output, control and evidence updates in the order of the source |
| JsonEventStream.EventStream.End | internal/runner/stream.go:184-189 | an unfinished line is a loss |
| JsonEventStream.EventStream.Classify | internal/runner/stream.go:191-218 | the verdict of the tracked sets and the sorted names without repetition |
| StreamTheorems.StaysBounded | internal/runner/stream.go:17-27 | however long the output, line buffer, display, evidence and the four tracking sets stay within their caps, and so do the keys and package names in the sets |
| StreamTheorems.StreamRefinesBatch | internal/runner/stream.go:127-218 | when nothing was lost, verdict and failing tests are those of the batch classifier |
| StreamTheorems.NamesByTest | internal/runner/stream.go:191-207 | over every sequence of events, each failing test has the same name in both lists exactly when no first failure comes from a package with a NUL in its name |
| StreamTheorems.SameNames | internal/runner/stream.go:191-207 | and then, when nothing was lost, the listed names are the same |
| StreamTheorems.NamesMayDiffer | internal/runner/stream.go:191-207 | for an output with one fail event the lists agree exactly when the package has no NUL in its name |
| StreamTheorems.FailureSticks | internal/runner/stream.go:52-53 | a recorded failure decides for KILLED under every continuation of the output |
| StreamTheorems.FailureIsReal | internal/runner/stream.go:52-53 | a recorded failure is a fail event that was there, whatever was lost |
| StreamTheorems.InvalidIsReal | internal/runner/stream.go:209-216 | INVALID is never returned after a loss, and when it is returned the events say INVALID |
| StreamTheorems.NothingLost | internal/runner/stream.go:97-125 | nothing is lost of an output whose lines fit and decode and that names at most 8192 tests and packages |
| StreamRetains.RetainsExactly | internal/runner/stream.go:110-182 | of every output the display holds the first 64 KiB of what the observed output events wrote, and their total size; the flag is set exactly when one of them is a timeout header; the counter counts the lines that decode; the evidence is every event about a test, unless together they exceed a cap, which the truncation flag says exactly |
| StreamLoss.KilledIsCertain | internal/runner/stream.go:191-218 | a KILLED is right for every output with the same outcome exactly when nothing was lost or a failure is recorded |
| StreamLoss.CertainIsRight | internal/runner/stream.go:52-53 | under that condition the events of the output itself say KILLED |
| StreamLoss.UncertainMayBeWrong | internal/runner/stream.go:97-125 | without it, another output leaves the same sets and the same loss, and its events say INVALID |
| StreamLoss.LossHappens | internal/runner/stream.go:97-125 | there are such outputs |
| StreamLoss.LostPass | internal/runner/stream.go:191-218 | an oversized pass event makes the stream say KILLED where the events say INVALID |
| Sorting.UniqueOrder | internal/frontend/disk_discovery.go:130-165 | without ties there is one sorted order of given elements |
| Merge.MergeRuns | internal/frontend/disk_discovery.go:196-243 | merging sorted runs through the heap gives the sorted list of all their elements, and is given up exactly when one of its looks at the context finds it done; with n elements merged there was a look for every 256 (or 1024) of them |
| Merge.MergePass | internal/frontend/disk_discovery.go:132-159 | one pass keeps the elements, keeps the runs sorted, and leaves a sixteenth of them, rounded up, with the context looked at as often |
| Merge.MergeToFanIn | internal/frontend/disk_discovery.go:130-160 | the passes end, with at most sixteen sorted runs of the same elements; when there were more, the context was looked at as often as in one merge |
| Discovery.MutationOrder | internal/frontend/selection.go:13-20 | the comparison is a strict weak order in which the smaller offset comes first and, at the same offset, the ID with the smaller character where the two first differ, or the proper prefix; only equal offset and ID tie |
| Discovery.IdExactly | internal/frontend/frontend.go:68-75 | an ID is accepted exactly when it is "M-" and twelve hexadecimal digits, and two IDs are one number exactly when they differ at most in the case of their digits |
| Discovery.CheckIds | internal/frontend/frontend.go:66-81 | a file is accepted exactly when every ID is well formed and none repeats an earlier one |
| Discovery.BoundedSelection.Offer | internal/frontend/selection.go:42-54 | the heap holds the K smallest of everything offered, in any order |
| Discovery.BoundedSelection.SortedItems | internal/frontend/selection.go:56-59 | gives them in order |
| Discovery.SelectionIsPrefix | internal/frontend/selection.go:37-59 | which is the first K of the sorted whole |
| Discovery.DiscoverLimited | internal/frontend/frontend.go:52-147 | succeeds exactly on readable files with distinct well-formed IDs, generated files contributing nothing unless asked for; it returns file after file, offsets rising and IDs rising at the same offset, cut at the limit, with the total |
| Discovery.DiscoverPrefix | internal/frontend/frontend.go:52-147 | with a positive limit discovery succeeds exactly when it does without, and returns the first min(limit, total) of the unlimited result and the same total |
| DiskDiscovery.DiscoveryRuns.Add | internal/frontend/disk_discovery.go:250-274 | adds one chunk to a base-16 counter of runs: every level stays below sixteen runs of 16^k chunks, and the elements are kept |
| DiskDiscovery.DiscoveryRuns.TakeAll | internal/frontend/disk_discovery.go:284-291 | hands over every retained run |
| DiskDiscovery.RetainedRuns | internal/frontend/disk_discovery.go:245-291 | after n additions the runs account for n chunks and number at most fifteen for each base-16 digit of n |
| DiskDiscovery.SpoolFile | internal/frontend/disk_discovery.go:64-165 | candidates, chunks, carries, passes and the last merge give the sorted list of the file's candidates, unless a look at the context finds it done; there is a look for every 256 candidates found in the call so far and another for every 256 emitted |
| DiskDiscovery.SortChunks | internal/frontend/id_validation_disk.go:187-217 | sorted chunks of the same IDs, none empty or over 8192 and no more than needed; or a duplicate inside one chunk; or a cancellation, with one look at the context before every chunk and one at the end |
| DiskDiscovery.ValidateIds | internal/frontend/id_validation_disk.go:169-249 | reports a duplicate exactly when the recorded IDs contain one, wherever its copies fall, unless a look at the context finds it done; an answer that none repeats took a look for every 1024 IDs |
| DiskDiscovery.DiscoverToDisk | internal/frontend/disk_discovery.go:28-176 | succeeds exactly when the in-memory check accepts the files and no look at the context, whenever in the call, finds it done; it then emits file after file, offsets rising and IDs rising at the same offset, after a look before every file, for every 256 mutations found and again for every 256 emitted |
| DiskDiscovery.DiscoverBothWays | internal/frontend/disk_discovery.go:28-176 | disk and memory give the same answer, unless a look of the former at the context finds it done |
| Coverage.AddBlock | internal/coverage/coverage.go:55-63 | adds the lines of one executed block, and registers the file in any case |
| CoverRows.RowExactly | internal/coverage/coverage.go:79-138 | a line gives a row exactly when it is three words, the first of them a file, a colon after which no other follows, and line.column,line.column; every number is digits with an optional sign and fits, and each ends up in its own field |
| Coverage.BlockExactly | internal/coverage/coverage.go:79-121 | a row gives a block exactly when its positions are positive, in order and at most 1000000 lines apart, its statements not negative, and its execution count not negative and at most one in mode set; the block has its lines and its execution count |
| Coverage.ModeExactly | internal/coverage/coverage.go:43-49 | the header is "mode: " and set, count or atomic |
| Coverage.Load | internal/coverage/coverage.go:23-74 | a profile loads exactly when no row reaches 2 MiB and, white space around the rows aside, its header and all its rows are valid; then the line sets are those of its executed blocks and the index is built |
| Coverage.SuffixesByParts | internal/coverage/coverage.go:151-153 | splitting and joining yields exactly the suffixes that begin after a separator |
| Coverage.ClaimAdded | internal/coverage/coverage.go:154-165 | one more claim to a suffix keeps the tables right: one owner, or contested for good |
| Coverage.BuildSuffixIndex | internal/coverage/coverage.go:146-167 | for every order of the files, a suffix resolves exactly when one file has it |
| Coverage.QueryIsScan | internal/coverage/coverage.go:180-195 | the indexed query answers what a plain scan of the blocks answers |
| TestSelection.PerTest.CoveringTestsForPackages | internal/coverage/pertest.go:72-107 | conclusive exactly when every test of an observing package knows the file and every such package has a test; then exactly the tests that reach the span |
| TestSelection.PerTest.AlwaysRunForPackages | internal/coverage/pertest.go:49-62 | exactly the examples and fuzz targets of the packages, once each |
| TestSelection.PatternSelects | internal/analysis/analysis.go:284-288 | whatever the names are, the quoted and joined expression, read as an anchored group of literals, matches exactly the names |
| TestSelection.MutantTestRun | internal/analysis/analysis.go:265-289 | narrows exactly when selection is on, no pattern was given, the packages that observe the file's package are known, their profiles are conclusive and some test of theirs reaches the span; then the pattern matches exactly the reaching tests and the always-run units; otherwise it is the given one |
| TestSelection.NoObserverDropped | internal/analysis/analysis.go:265-289 | every observing test's own profile knows the file, a narrowed run's pattern matches every one that has an executed block on the span, and all its packages' always-run units |
| Cache.ToolchainKeyUnique | internal/runner/runner.go:119-123 | a toolchain is the only one with its joined text exactly when none of its fields contains the separator |
| Cache.ToolchainKeyExactly | internal/runner/runner.go:119-123 | a toolchain is the only one with its joined text, among those in which only the flags contain the separator, exactly when it is one of them: each joined text belongs to one such toolchain |
| Cache.ToolchainKeyInjective | internal/runner/runner.go:119-123 | two toolchains in which only the flags contain the separator, and with the same joined fields, are equal |
| Cache.ToolchainKeysCollide | internal/runner/runner.go:119-123 | with the separator in another field two different toolchains have the same joined text: a made-up pair |
| Cache.SameKeySameExecution | internal/analysis/analysis.go:686-724 | as long as no two of the jobs that occur collide in a digest, jobs with the same key give the backend the same execution |
| Cache.SameKeySameJob | internal/analysis/analysis.go:686-724 | and they are the same job: every field that the identity names is told apart by the key |
| Cache.SandboxExactly | internal/workspace/workspace.go:715-745 | a mutation is applied exactly when its original, not empty, stands at its offset; then the replacement stands there instead and everything else is as before |
| Cache.LookupRemembers | internal/cache/cache.go:53-115 | what is found under a key is the result of the last committed put, until the file is lost, spoiled or replaced from outside; a put that does not commit changes nothing |
| Cache.Store.Get | internal/cache/cache.go:53-66 | over the history of the store, a get gives what was remembered; it gives exactly a killed, survived or invalid entry of the current schema under a key of 64 lower-case hexadecimal digits, and only when the store is enabled |
| Cache.Store.PutContext | internal/cache/cache.go:77-115 | a killed, survived or invalid result that nothing disturbs is found by the next get; a timeout, unknown, unsupported or equivalent one is never stored, nor anything once the context is done or the write fails; and when the caller is told of a failure |
| Cache.RunOneMutant | internal/analysis/analysis.go:726-781 | keeps the store sound; a hit is the stable result and changes nothing; a miss runs the backend and puts its result, which is found from then on when it is killed, survived or invalid and nothing disturbs the put, and changes nothing when it is any other |
| Cache.StepKeepsInv | internal/cache/cache.go:53-115 | every step of every worker, cancellation, loss and corruption included, keeps every entry stable |
| Cache.OnlyCommitsWrite | internal/cache/cache.go:111-114 | an entry comes into being only by the commit of a worker that nobody has cancelled, under its key and with its result |
| Cache.CacheIsTransparent | internal/analysis/analysis.go:746-771 | over any history of analyses sharing a store, a hit gives what an uncancelled run gives that ends killed, survived or invalid, as long as no two of the jobs that occur collide in a digest; nothing is assumed of runs that end otherwise |
| Cache.HitsHappen | internal/analysis/analysis.go:746-771 | for every job with a cacheable result there are digests, a second job and a run of two analyses that meet the hypotheses and end with a hit |

## Left out

- Subprocesses, signals, git and `go` invocations, real files, atomic renames and temporary-file cleanup: spools, runs and ID files are sequences, the cache directory is a map with atomic entries.
- JSON decoding, regular expressions, `strconv.Unquote` and path cleaning: uninterpreted functions that are parameters. Error texts are not modelled.
- SHA-256, JSON encoding of identities and the truncated mutation ID: arbitrary functions, of which no collision among the finitely many jobs that occur is assumed.
- Go's `container/heap` is modelled by its sifting loops on a list; `sort.Slice` and `sort.Strings` by their contract, with insertion sort as the body.
- The operator catalogue of the syntax-tree visitor: a file yields an arbitrary finite list of mutations.
- The module-wide scans for linkname, cgo, assembly and exported names: the detected function is taken to have no callers outside the package, and "exported" means an ASCII capital first letter.
- Goroutines, defer, panics with observers, closures that capture variables and calls through function values inside the modelled Go language: the last are arbitrary external calls. A function literal is opaque code with its free identifiers, so no edit and no call site inside one is covered.
- A text is a sequence of characters, and the byte limits count characters.
- Report rendering, history, the journal, command-line and configuration parsing, and the six-way comparison of reports.
- Which of several hard errors of concurrent workers is sent first is left open; the windowed executor returns one that was sent or raised, the parallel one the first.
- The text of the score and its rounding: the score is an exact rational.
- Executors.Validate: source spans, operators, diagnostics, timings and the score text of a report are not modelled.
- ParallelExecutor.Answer: the immediate answer for no mutants is not a step of the machine; it is in Executors.NoMutants.
- Coordinator.Window.Execute: testing the window and sending are one action, as only the coordinator changes what is tested, apart from the cancel flag.
- TestSelection.MutantTestRun: of regular expressions only anchored groups of quoted literals are modelled.
- Cache.RunOneMutant: the coverage note on a result, and flags such as -overlay that switch the cache off, are not modelled.
- Discarded.ResultDiscarded: call sites inside function literals and mentions outside function declarations are not modelled.
