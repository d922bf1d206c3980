# Duration-based test splitting and the preparing test runner

This project models two parts of the GoogleTestAdapter test adapter in Dafny and proves properties of them.

- **`DurationBasedTestsSplitter`** splits the test cases into at most
  `MaxNrOfThreads` lists of roughly equal overall duration.
  1. It sorts the cases by descending duration. The sort is stable.
  2. It fills lists in turn, greedily, up to the target
     `OverallDuration / MaxNrOfThreads`.
  3. It hands each case left over to the list whose durations add up to the least.
- **`PreparingTestRunner`** is the per-thread wrapper around the inner test runner.
  - The constructor derives the thread name (for example `[T03]`), the log prefix and the thread id.
  - `RunTests` runs the setup batch, calls the inner runner once, runs the teardown batch, logs the elapsed time and deletes the thread's test directory.
  - Every failure along the way is logged, never thrown.

Files:

- `wrappers.dfy`: `Option`.
- `formatting.dfy` (module `Formatting`): `int.ToString()`, `PadLeft`, ASCII `ToLower` and substring containment, as far as the runner needs them.
- `splitting_spec.dfy` (module `SplittingSpec`): the splitter as pure functions (`SortDesc`, `Phase1`, `Phase2`, `Split`) and the lemmas about them.
- `scheduling.dfy` (module `Scheduling`): class `DurationBasedTestsSplitter`.
  - Its methods work step by step on mutable sequences, with the source's loops.
  - They are proved equal to `SplittingSpec.Split`.
- `runners.dfy` (module `Runners`): class `PreparingTestRunner`.
  - Everything the runner does to the outside world is appended to a `trace` of events: log entries, batch launches, calls to the inner runner and directory deletions.
  - Each method is proved to append exactly the events of a specification function.
  - Lemmas about those functions state the ordering and "log and continue" guarantees.
  - What the outside world answers is an `Environment` input: whether a file exists, how a batch ends, whether the inner runner throws, the elapsed time, and whether the directory was deleted.

Two behaviours of the code worth knowing:

- With fewer test cases than threads, `SplitTestcases` returns fewer lists, every one of them non-empty. It does not pad the result with empty lists.
- The log levels are the code's own:
  - a batch that exits with code 0 logs at debug-information level;
  - a failed directory deletion logs a debug warning;
  - a missing batch file logs an error whose text carries the batch type in lower case.

## Model

| member | source | states |
|---|---|---|
| Scheduling.DurationBasedTestsSplitter.constructor | GoogleTestExtension/GoogleTestAdapter/Scheduling/DurationBasedTestsSplitter.cs:15-19 | keeps the dictionary and thread count; `OverallDuration` is the sum of all durations |
| Scheduling.DurationBasedTestsSplitter.GetIndexOfListWithShortestDuration | GoogleTestExtension/GoogleTestAdapter/Scheduling/DurationBasedTestsSplitter.cs:57-72 | 0 when there is no list; otherwise the index of a list of least duration sum with every earlier list strictly heavier (ties go to the lowest index) |
| Scheduling.DurationBasedTestsSplitter.TakeNextList | GoogleTestExtension/GoogleTestAdapter/Scheduling/DurationBasedTestsSplitter.cs:32-39 | the `do...while` loop takes the greedy prefix `FirstCut` of the sorted cases; that list is a single case or within the target, and was closed only when nothing remained or the next case would pass the target |
| Scheduling.DurationBasedTestsSplitter.FillLists | GoogleTestExtension/GoogleTestAdapter/Scheduling/DurationBasedTestsSplitter.cs:27-44 | the first `while` loop yields exactly the lists and leftovers of `Phase1` |
| Scheduling.DurationBasedTestsSplitter.DistributeRest | GoogleTestExtension/GoogleTestAdapter/Scheduling/DurationBasedTestsSplitter.cs:46-52 | the second `while` loop yields exactly `Phase2`: each leftover case in turn goes to the shortest list |
| Scheduling.DurationBasedTestsSplitter.SplitTestcases | GoogleTestExtension/GoogleTestAdapter/Scheduling/DurationBasedTestsSplitter.cs:21-55 | the result equals `Split`; it is a permutation of the dictionary's keys, has at most `MaxNrOfThreads` lists and no more lists than cases, and every list is non-empty |
| SplittingSpec.TruncDiv | GoogleTestExtension/GoogleTestAdapter/Scheduling/DurationBasedTestsSplitter.cs:25 | C# integer division: the quotient is rounded toward zero, for negative dividends too |
| SplittingSpec.SortDesc | GoogleTestExtension/GoogleTestAdapter/Scheduling/DurationBasedTestsSplitter.cs:23 | the stable sort by descending duration, as insertion of each case behind all at least as heavy ones; keeps the length (its order, permutation and stability are the three lemmas below) |
| SplittingSpec.SortDescSorts | GoogleTestExtension/GoogleTestAdapter/Scheduling/DurationBasedTestsSplitter.cs:23 | the sorted sequence is a permutation of the keys with non-increasing durations |
| SplittingSpec.SortDescStable | GoogleTestExtension/GoogleTestAdapter/Scheduling/DurationBasedTestsSplitter.cs:23 | for every duration, the cases with that duration keep their input order (`OrderByDescending` is stable) |
| SplittingSpec.SortDescKnown | GoogleTestExtension/GoogleTestAdapter/Scheduling/DurationBasedTestsSplitter.cs:23 | every sorted case is a key of the dictionary, so every lookup of the loops succeeds |
| SplittingSpec.InsertDescStable | GoogleTestExtension/GoogleTestAdapter/Scheduling/DurationBasedTestsSplitter.cs:23 | inserting a case behind all at least as heavy ones puts it after the cases of equal duration |
| SplittingSpec.SumOfPermutation | GoogleTestExtension/GoogleTestAdapter/Scheduling/DurationBasedTestsSplitter.cs:18 | a sum of durations does not depend on the order of the cases |
| SplittingSpec.CutBounds | GoogleTestExtension/GoogleTestAdapter/Scheduling/DurationBasedTestsSplitter.cs:32-39 | the list the loop closes is a single case or within the target, and the next case, if any, would pass the target |
| SplittingSpec.FirstCutBounds | GoogleTestExtension/GoogleTestAdapter/Scheduling/DurationBasedTestsSplitter.cs:32-39 | the same for a list started from the first remaining case |
| SplittingSpec.CutStep | GoogleTestExtension/GoogleTestAdapter/Scheduling/DurationBasedTestsSplitter.cs:39 | proof step of `TakeNextList`'s loop: when the next case fits, the list grows by that case |
| SplittingSpec.CutStop | GoogleTestExtension/GoogleTestAdapter/Scheduling/DurationBasedTestsSplitter.cs:39 | proof step of `TakeNextList`'s loop exit: when no case remains or the next would pass the target, the list ends here |
| SplittingSpec.Phase1Consumes | GoogleTestExtension/GoogleTestAdapter/Scheduling/DurationBasedTestsSplitter.cs:30-44 | the first phase consumes its input in order: its lists, then the leftovers, concatenate to the sorted cases |
| SplittingSpec.Phase1Counts | GoogleTestExtension/GoogleTestAdapter/Scheduling/DurationBasedTestsSplitter.cs:30-44 | at most `n` lists, no more lists than cases, every list non-empty; leftovers remain only when all `n` lists exist |
| SplittingSpec.Phase1WithinTarget | GoogleTestExtension/GoogleTestAdapter/Scheduling/DurationBasedTestsSplitter.cs:32-39 | every first-phase list is a single case or has a duration sum of at most the target |
| SplittingSpec.Phase1ClosedBefore | GoogleTestExtension/GoogleTestAdapter/Scheduling/DurationBasedTestsSplitter.cs:39 | every first-phase list was closed only when nothing remained or the next case, the first of everything after it, would push its sum past the target |
| SplittingSpec.ShortestIndex | GoogleTestExtension/GoogleTestAdapter/Scheduling/DurationBasedTestsSplitter.cs:57-72 | the first list of least duration sum |
| SplittingSpec.ShortestIndexUnique | GoogleTestExtension/GoogleTestAdapter/Scheduling/DurationBasedTestsSplitter.cs:65 | because the comparison is strict, only one index qualifies |
| SplittingSpec.Phase2Unfold | GoogleTestExtension/GoogleTestAdapter/Scheduling/DurationBasedTestsSplitter.cs:49-51 | proof step of `DistributeRest`'s loop: any index the shortest-list search may return gives the same next step of the leftover phase |
| SplittingSpec.Phase2Extends | GoogleTestExtension/GoogleTestAdapter/Scheduling/DurationBasedTestsSplitter.cs:46-52 | the leftover phase keeps the number of lists and only appends to them |
| SplittingSpec.Phase2Places | GoogleTestExtension/GoogleTestAdapter/Scheduling/DurationBasedTestsSplitter.cs:46-52 | the leftover phase places every leftover case exactly once |
| SplittingSpec.Phase2Descending | GoogleTestExtension/GoogleTestAdapter/Scheduling/DurationBasedTestsSplitter.cs:46-52 | placing sorted leftovers no heavier than any list keeps every list sorted |
| SplittingSpec.SplitIsPermutation | GoogleTestExtension/GoogleTestAdapter/Scheduling/DurationBasedTestsSplitter.cs:23-54 | every test case appears in exactly one list, and nothing else does |
| SplittingSpec.SplitKeepsTotal | GoogleTestExtension/GoogleTestAdapter/Scheduling/DurationBasedTestsSplitter.cs:18-54 | the lists together add up to `OverallDuration` |
| SplittingSpec.SplitListCount | GoogleTestExtension/GoogleTestAdapter/Scheduling/DurationBasedTestsSplitter.cs:30-44 | at most `n` lists and at most one per case, all non-empty; an empty dictionary gives no list |
| SplittingSpec.SplitExtendsFirstPhase | GoogleTestExtension/GoogleTestAdapter/Scheduling/DurationBasedTestsSplitter.cs:30-52 | the result extends the first-phase lists, and the leftover phase adds something only when all `n` lists exist |
| SplittingSpec.SplitListsDescending | GoogleTestExtension/GoogleTestAdapter/Scheduling/DurationBasedTestsSplitter.cs:23-52 | within every list, durations never increase |
| Formatting.NatToDecimal | GoogleTestAdapter/Core/Runners/PreparingTestRunner.cs:137 | `ToString()` of a non-negative id: at least one digit, no leading zero, and the digits denote the number |
| Formatting.IntToString | GoogleTestAdapter/Core/Runners/PreparingTestRunner.cs:136 | `ToString()` of any int: a minus sign exactly for negatives, followed by the shortest digits of its magnitude (no leading zero) |
| Formatting.PadLeft | GoogleTestAdapter/Core/Runners/PreparingTestRunner.cs:137 | `PadLeft`: the string right-aligned in at least `totalWidth` characters filled with the pad character, never shortened |
| Formatting.LeadingZeros | GoogleTestAdapter/Core/Runners/PreparingTestRunner.cs:137 | padding with zeros keeps the decimal value |
| Formatting.AsciiLower | GoogleTestAdapter/Core/Runners/PreparingTestRunner.cs:89 | `ToLower`: same length, upper-case letters mapped to lower case, everything else unchanged |
| Runners.ComputeThreadName | GoogleTestAdapter/Core/Runners/PreparingTestRunner.cs:131-140 | empty exactly for a negative id; otherwise at least four characters, starting with `[T` and ending with `]` (the padding is stated by `ThreadNameFormat`) |
| Runners.ThreadPrefix | GoogleTestAdapter/Core/Runners/PreparingTestRunner.cs:32 | the stored log prefix is empty exactly for an empty name, otherwise the name followed by one space |
| Runners.ThreadNameFormat | GoogleTestAdapter/Core/Runners/PreparingTestRunner.cs:131-140 | the name is empty exactly for a negative id; otherwise `[T`, the id padded with zeros to the digit count of `maxNrOfThreads` and never cut, then `]`; the digits denote the id |
| Runners.PreparingTestRunner.constructor | GoogleTestAdapter/Core/Runners/PreparingTestRunner.cs:27-36 | the prefix is empty for an empty name, else the name and a space; the id is `max(0, threadId)`; nothing has happened yet |
| Runners.PreparingTestRunner.WithoutThreadId | GoogleTestAdapter/Core/Runners/PreparingTestRunner.cs:38-41 | with id -1 the prefix is empty and the stored id is 0 |
| Runners.PreparingTestRunner.RunBatch | GoogleTestAdapter/Core/Runners/PreparingTestRunner.cs:104-129 | launches with `ProcessExecutor` or `TestProcessLauncher` as the setting says; exit code 0 logs debug information, any other code a warning; an exception is handed back to the caller |
| Runners.PreparingTestRunner.SafeRunBatch | GoogleTestAdapter/Core/Runners/PreparingTestRunner.cs:81-102 | appends exactly `BatchEvents`: nothing for an empty path, one error for a missing file, otherwise the batch run with any exception logged as an error |
| Runners.PreparingTestRunner.RunTests | GoogleTestAdapter/Core/Runners/PreparingTestRunner.cs:44-73 | appends exactly `RunTestsEvents`: setup, inner runner, then the rest, or the logged exception |
| Runners.PreparingTestRunner.FinishRun | GoogleTestAdapter/Core/Runners/PreparingTestRunner.cs:56-67 | after a normal return of the inner runner: teardown, elapsed-time entry, deletion, and a warning if the deletion failed |
| Runners.PreparingTestRunner.Cancel | GoogleTestAdapter/Core/Runners/PreparingTestRunner.cs:75-78 | only forwards the cancellation to the inner runner |
| Runners.BatchAbsentIsNoOp | GoogleTestAdapter/Core/Runners/PreparingTestRunner.cs:83-86 | a null or empty batch path logs nothing and launches nothing |
| Runners.BatchMissingLogsOneError | GoogleTestAdapter/Core/Runners/PreparingTestRunner.cs:87-91 | a missing batch file is not launched; exactly one error is logged, naming the path and the lower-cased batch type |
| Runners.BatchRunLogsOutcome | GoogleTestAdapter/Core/Runners/PreparingTestRunner.cs:93-128 | an existing batch is launched, then exactly one entry is logged, naming the batch type and the command: debug information for code 0, a warning also carrying the code otherwise, an error also carrying the exception's message for an exception |
| Runners.MessageMentions | GoogleTestAdapter/Core/Runners/PreparingTestRunner.cs:60-127 | every logged entry contains the values it reports: every batch entry the path and the batch type (lower-cased in the missing-file error), plus the exit code or the exception message; the run entries the elapsed time, the directory and error message, or the exception text |
| Runners.BatchEventsCounts | GoogleTestAdapter/Core/Runners/PreparingTestRunner.cs:81-102 | a batch never calls the inner runner or deletes the directory, and launches at most one process |
| Runners.AfterNormalReturn | GoogleTestAdapter/Core/Runners/PreparingTestRunner.cs:56-67 | after the inner runner returns: the teardown events, the elapsed-time entry, the deletion exactly once, then the debug warning with the error message exactly when the deletion failed |
| Runners.RunTestsOrder | GoogleTestAdapter/Core/Runners/PreparingTestRunner.cs:49-67 | setup first, then exactly one call to the inner runner; after a normal return, teardown, elapsed time and exactly one deletion, in that order |
| Runners.SetupNeverStopsRun | GoogleTestAdapter/Core/Runners/PreparingTestRunner.cs:51-54 | however the setup batch ends, the inner runner is called next and the rest of the run is the same |
| Runners.InnerExceptionIsLogged | GoogleTestAdapter/Core/Runners/PreparingTestRunner.cs:69-72 | an exception from the inner runner is caught and logged last as an error with its text; no teardown and no deletion follow |
| Runners.DeleteFailureOnlyWarns | GoogleTestAdapter/Core/Runners/PreparingTestRunner.cs:62-67 | a failed deletion only appends one debug warning with the error message |

## Left out

- Process launch (`ProcessExecutor.ExecuteBatchFileBlocking`, `TestProcessLauncher.GetOutputOfCommand`), `File.Exists`, `Utils.GetTempDirectory`, `Utils.DeleteDirectory` and `Stopwatch` are not modelled. Their answers are inputs: `Environment`, the `testDirectory` constructor parameter and an `elapsed` string.
- The logger is not modelled as an object. Log entries are `Logged` events of the trace, with structured `Message` values rendered by `Message.Text`.
- The inner `SequentialTestRunner`, its construction, the reporter and the scheduling analyzer are not modelled. The calls to the inner runner are `InnerRunTests` and `InnerCancel` events, and whether its `RunTests` throws is an input. `InnerRunTests` records the test cases and `isBeingDebugged`. It does not record the `debuggedLauncher` and `executor` arguments that `RunTests` also forwards.
- Runners.PreparingTestRunner.RunTests: the catch-all only covers an exception from the inner runner. Exceptions from the settings, the logger, `File.Exists` or `Utils.DeleteDirectory` are not modelled.
- Runners.PreparingTestRunner.RunBatch: a batch exception is modelled as raised after the launch was started. An exception while creating the executor is not told apart.
- Runners.PreparingTestRunner.constructor: the settings object is an immutable value. The `SettingsWrapper` batch path lookups are functions of the test directory and the thread id.
- Scheduling.DurationBasedTestsSplitter.SplitTestcases requires at least one thread. With zero threads the source divides by zero. With a negative count and at least one test case, it indexes an empty list. Both throw, and the model has no exception for them.
- Scheduling.DurationBasedTestsSplitter.GetIndexOfListWithShortestDuration: the `int.MaxValue` start value is modelled as "no minimum yet". It differs only for lists whose sum reaches `int.MaxValue`.
- C# `int` overflow in `OverallDuration`, in the running sums and in the list sums is not modelled; integers are unbounded. Durations may be negative; no property needs them to be non-negative.
- Scheduling.DurationBasedTestsSplitter.constructor: the constructor without options and the `AbstractOptions` base class are not modelled. `MaxNrOfThreads` is a constructor parameter.
- `SplitTestcases` is split into the methods `TakeNextList`, `FillLists` and `DistributeRest`, one per loop. `RemoveAt(0)` on the sorted list is taking the tail of a sequence. Appending to `splitTestcases[index]` is an update of a sequence of sequences, so list aliasing is not modelled.
- How well the lists are balanced, beyond the target and least-loaded properties above, is not stated.
- Running several runners in parallel, and cancellation timing, are not modelled.
