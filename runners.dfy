/**
  `PreparingTestRunner`: the per-thread wrapper around the sequential test
  runner. It runs the setup batch, lets the inner runner run the tests, runs
  the teardown batch, logs the elapsed time and deletes the thread's test
  directory, logging every failure and never letting one escape.

  What the runner does to the outside world is recorded as a trace of events:
  log entries, batch launches, calls to the inner runner and the directory
  deletion. What the outside world answers (whether a file exists, how a batch
  ends, whether the inner runner throws, whether the directory could be
  deleted) is given as an `Environment`.
 */
module Runners {

  import opened Wrappers
  import opened Formatting
  import SplittingSpec

  type TestCase = SplittingSpec.TestCase

  datatype LogLevel = DebugInfo | DebugWarning | Warning | Error

  /** The two batch kinds, `TestSetup` and `TestTeardown`. */
  datatype BatchType = TestSetup | TestTeardown {
    function Name(): string {
      match this
      case TestSetup => "Test setup"
      case TestTeardown => "Test teardown"
    }
  }

  /** The process launcher `RunBatch` picks: `ProcessExecutor` or `TestProcessLauncher`. */
  datatype Launcher = ProcessExecutor | TestProcessLauncher(isBeingDebugged: bool)

  datatype Event =
    | Logged(level: LogLevel, message: Message)
    | BatchStarted(launcher: Launcher, workingDirectory: string, batch: string)
    | InnerRunTests(testCases: seq<TestCase>, isBeingDebugged: bool)
    | InnerCancel
    | DirectoryDeleted(path: string)

  /** An exception: its `Message` and its full `ToString()` text. */
  datatype Exception = Exception(message: string, description: string)

  /** How a launched batch ends: with an exit code, or by throwing. */
  datatype BatchOutcome = Exited(exitCode: int) | Threw(exception: Exception)

  /** `Utils.DeleteDirectory`: success, or failure with an error message. */
  datatype DeleteOutcome = Deleted | NotDeleted(errorMessage: string)

  /** The settings the runner reads; the batch paths depend on test directory and thread id. */
  datatype Settings = Settings(
    maxNrOfThreads: int,
    solutionDir: string,
    useNewTestExecutionFramework: bool,
    batchForTestSetup: (string, int) -> Option<string>,
    batchForTestTeardown: (string, int) -> Option<string>)

  /** The answers of the file system, the processes and the inner runner during one `RunTests`. */
  datatype Environment = Environment(
    existingFiles: set<string>,
    setupOutcome: BatchOutcome,
    teardownOutcome: BatchOutcome,
    innerOutcome: Option<Exception>,
    elapsed: string,
    deleteOutcome: DeleteOutcome)

  // ---------------------------------------------------------------------
  // Thread name and id
  // ---------------------------------------------------------------------

  function Max(a: int, b: int): int {
    if a >= b then a else b
  }

  /** `ComputeThreadName`: empty for a negative id, otherwise `[T` + the zero-padded id + `]`. */
  function ComputeThreadName(threadId: int, maxNrOfThreads: int): (name: string)
    ensures threadId < 0 <==> name == ""
    ensures threadId >= 0 ==> |name| >= 4 && name[..2] == "[T" && name[|name| - 1] == ']'
  {
    if threadId < 0 then ""
    else
      var nrOfDigits := |IntToString(maxNrOfThreads)|;
      var paddedThreadId := PadLeft(NatToDecimal(threadId), nrOfDigits, '0');
      Bracketed(paddedThreadId);
      "[T" + paddedThreadId + "]"
  }

  /**
    A thread name is empty exactly for a negative id; otherwise it is `[T`,
    the id in decimal padded with zeros to as many characters as
    `maxNrOfThreads` has (and never cut short), then `]`.
   */
  lemma ThreadNameFormat(threadId: int, maxNrOfThreads: int)
    ensures var name := ComputeThreadName(threadId, maxNrOfThreads);
      && (threadId < 0 <==> name == "")
      && (threadId >= 0 ==>
            && |name| == 3 + Max(|NatToDecimal(threadId)|, |IntToString(maxNrOfThreads)|)
            && name[..2] == "[T" && name[|name| - 1] == ']'
            && AllDigits(name[2..|name| - 1]) && DecimalValue(name[2..|name| - 1]) == threadId)
  {
    if threadId >= 0 {
      var width := |IntToString(maxNrOfThreads)|;
      PaddedValue(threadId, width);
      Bracketed(PadLeft(NatToDecimal(threadId), width, '0'));
    }
  }

  /** The parts of `[T` + `m` + `]`. */
  lemma Bracketed(m: string)
    ensures var name := "[T" + m + "]";
      |name| == |m| + 3 && name[..2] == "[T" && name[|name| - 1] == ']' && name[2..|name| - 1] == m
  {
    var name := "[T" + m + "]";
    assert name[2..|name| - 1] == m;
  }

  /** Padding a decimal number with zeros on the left keeps its value. */
  lemma PaddedValue(n: nat, width: nat)
    ensures var padded := PadLeft(NatToDecimal(n), width, '0');
      AllDigits(padded) && DecimalValue(padded) == n
  {
    var digits := NatToDecimal(n);
    var padded := PadLeft(digits, width, '0');
    var k := |padded| - |digits|;
    assert padded == Repeat('0', k) + digits;
    LeadingZeros(k, digits);
  }

  /** The log prefix the constructor stores: the thread name and a space, or nothing. */
  function ThreadPrefix(threadName: string): (p: string)
    ensures threadName == "" <==> p == ""
    ensures threadName != "" ==> |p| == |threadName| + 1 && p[..|threadName|] == threadName && p[|threadName|] == ' '
  {
    if threadName == "" then "" else threadName + " "
  }

  // ---------------------------------------------------------------------
  // Log messages
  // ---------------------------------------------------------------------

  /** The entries the runner logs, each with the log prefix of its thread; `Text` renders them. */
  datatype Message =
    | MissingBatch(prefix: string, batchType: BatchType, batch: string)
    | BatchException(prefix: string, batchType: BatchType, exceptionMessage: string, batch: string)
    | BatchSucceeded(prefix: string, batchType: BatchType, batch: string)
    | BatchExitCode(prefix: string, batchType: BatchType, exitCode: int, batch: string)
    | ExecutionTook(prefix: string, elapsed: string)
    | DirectoryNotDeleted(prefix: string, testDirectory: string, errorMessage: string)
    | RunException(prefix: string, description: string)
  {
    /** The entry as logged: every entry starts with the log prefix of its thread. */
    function Text(): (t: string)
      ensures |prefix| <= |t| && t[..|prefix|] == prefix
    {
      prefix + Body()
    }

    /** The entry after the prefix. */
    function Body(): string {
      match this
      case MissingBatch(_, t, b) =>
        "Did not find " + AsciiLower(t.Name()) + " batch file: " + b
      case BatchException(_, t, m, b) =>
        t.Name() + " batch caused exception, msg: '" + m + "', executed command: '" + b + "'"
      case BatchSucceeded(_, t, b) =>
        "Successfully ran " + t.Name() + " batch '" + b + "'"
      case BatchExitCode(_, t, c, b) =>
        t.Name() + " batch returned exit code " + IntToString(c) + ", executed command: '" + b + "'"
      case ExecutionTook(_, e) =>
        "Execution took " + e
      case DirectoryNotDeleted(_, d, m) =>
        "Could not delete test directory '" + d + "': " + m
      case RunException(_, d) =>
        "Exception while running tests: " + d
    }
  }

  // ---------------------------------------------------------------------
  // What a run does, as a sequence of events
  // ---------------------------------------------------------------------

  /** `string.IsNullOrEmpty`. */
  predicate IsNullOrEmpty(s: Option<string>) {
    s.None? || s.value == ""
  }

  function LauncherFor(useNewTestExecutionFramework: bool, isBeingDebugged: bool): Launcher {
    if useNewTestExecutionFramework then ProcessExecutor else TestProcessLauncher(isBeingDebugged)
  }

  /** The events of `RunBatch` once the batch file is known to exist. */
  function RunBatchEvents(prefix: string, launcher: Launcher, batchType: BatchType, workingDirectory: string,
                          batch: string, outcome: BatchOutcome): seq<Event>
  {
    [BatchStarted(launcher, workingDirectory, batch)] +
    match outcome
    case Threw(e) => [Logged(Error, BatchException(prefix, batchType, e.message, batch))]
    case Exited(code) =>
      if code == 0 then [Logged(DebugInfo, BatchSucceeded(prefix, batchType, batch))]
      else [Logged(Warning, BatchExitCode(prefix, batchType, code, batch))]
  }

  /** The events of `SafeRunBatch`. */
  function BatchEvents(prefix: string, launcher: Launcher, batchType: BatchType, workingDirectory: string,
                       batch: Option<string>, existingFiles: set<string>, outcome: BatchOutcome): seq<Event>
  {
    if IsNullOrEmpty(batch) then []
    else if batch.value !in existingFiles then [Logged(Error, MissingBatch(prefix, batchType, batch.value))]
    else RunBatchEvents(prefix, launcher, batchType, workingDirectory, batch.value, outcome)
  }

  /** The events of `RunTests` after the inner runner was called. */
  function AfterInnerEvents(prefix: string, settings: Settings, testDirectory: string, threadId: int,
                            isBeingDebugged: bool, env: Environment): seq<Event>
  {
    match env.innerOutcome
    case Some(e) => [Logged(Error, RunException(prefix, e.description))]
    case None =>
      BatchEvents(prefix, LauncherFor(settings.useNewTestExecutionFramework, isBeingDebugged), TestTeardown,
                  settings.solutionDir, settings.batchForTestTeardown(testDirectory, threadId),
                  env.existingFiles, env.teardownOutcome)
      + [Logged(DebugInfo, ExecutionTook(prefix, env.elapsed)), DirectoryDeleted(testDirectory)]
      + match env.deleteOutcome
        case Deleted => []
        case NotDeleted(msg) => [Logged(DebugWarning, DirectoryNotDeleted(prefix, testDirectory, msg))]
  }

  /** The events of `RunTests`: setup batch, inner runner, then the rest. */
  function RunTestsEvents(prefix: string, settings: Settings, testDirectory: string, threadId: int,
                          testCases: seq<TestCase>, isBeingDebugged: bool, env: Environment): seq<Event>
  {
    BatchEvents(prefix, LauncherFor(settings.useNewTestExecutionFramework, isBeingDebugged), TestSetup,
                settings.solutionDir, settings.batchForTestSetup(testDirectory, threadId),
                env.existingFiles, env.setupOutcome)
    + [InnerRunTests(testCases, isBeingDebugged)]
    + AfterInnerEvents(prefix, settings, testDirectory, threadId, isBeingDebugged, env)
  }

  // ---------------------------------------------------------------------
  // Counting events
  // ---------------------------------------------------------------------

  function InnerRuns(evs: seq<Event>): nat {
    if evs == [] then 0 else (if evs[0].InnerRunTests? then 1 else 0) + InnerRuns(evs[1..])
  }

  function BatchStarts(evs: seq<Event>): nat {
    if evs == [] then 0 else (if evs[0].BatchStarted? then 1 else 0) + BatchStarts(evs[1..])
  }

  function Deletions(evs: seq<Event>): nat {
    if evs == [] then 0 else (if evs[0].DirectoryDeleted? then 1 else 0) + Deletions(evs[1..])
  }

  lemma CountsOne(e: Event)
    ensures InnerRuns([e]) == (if e.InnerRunTests? then 1 else 0)
    ensures BatchStarts([e]) == (if e.BatchStarted? then 1 else 0)
    ensures Deletions([e]) == (if e.DirectoryDeleted? then 1 else 0)
  {
    assert [e][1..] == [];
  }

  lemma {:induction false} CountsAppend(a: seq<Event>, b: seq<Event>)
    ensures InnerRuns(a + b) == InnerRuns(a) + InnerRuns(b)
    ensures BatchStarts(a + b) == BatchStarts(a) + BatchStarts(b)
    ensures Deletions(a + b) == Deletions(a) + Deletions(b)
  {
    if a == [] {
      assert a + b == b;
    } else {
      assert (a + b)[1..] == a[1..] + b;
      CountsAppend(a[1..], b);
    }
  }

  lemma CountsTwo(e: Event, f: Event)
    ensures InnerRuns([e, f]) == InnerRuns([e]) + InnerRuns([f])
    ensures BatchStarts([e, f]) == BatchStarts([e]) + BatchStarts([f])
    ensures Deletions([e, f]) == Deletions([e]) + Deletions([f])
  {
    assert [e, f] == [e] + [f];
    CountsAppend([e], [f]);
  }

  // ---------------------------------------------------------------------
  // Properties of a batch run
  // ---------------------------------------------------------------------

  /** A null or empty batch path does nothing: no log entry, no process. */
  lemma BatchAbsentIsNoOp(prefix: string, launcher: Launcher, batchType: BatchType, workingDirectory: string,
                          batch: Option<string>, existingFiles: set<string>, outcome: BatchOutcome)
    requires IsNullOrEmpty(batch)
    ensures BatchEvents(prefix, launcher, batchType, workingDirectory, batch, existingFiles, outcome) == []
  {
  }

  /**
    A batch file that does not exist is not run; exactly one error is logged,
    naming the batch type in lower case and the path.
   */
  lemma BatchMissingLogsOneError(prefix: string, launcher: Launcher, batchType: BatchType, workingDirectory: string,
                                 batch: Option<string>, existingFiles: set<string>, outcome: BatchOutcome)
    requires !IsNullOrEmpty(batch) && batch.value !in existingFiles
    ensures var evs := BatchEvents(prefix, launcher, batchType, workingDirectory, batch, existingFiles, outcome);
      && |evs| == 1
      && evs[0].Logged? && evs[0].level == Error
      && Contains(evs[0].message.Text(), batch.value)
      && Contains(evs[0].message.Text(), AsciiLower(batchType.Name()))
      && BatchStarts(evs) == 0
  {
    var m := MissingBatch(prefix, batchType, batch.value);
    CountsOne(Logged(Error, m));
    MessageMentions(m);
  }

  /** The level of the one entry a launched batch logs. */
  function OutcomeLevel(outcome: BatchOutcome): LogLevel {
    match outcome
    case Threw(_) => Error
    case Exited(code) => if code == 0 then DebugInfo else Warning
  }

  /**
    An existing batch file is launched once and exactly one entry is logged,
    naming the batch type and the command: debug information for exit code 0,
    a warning also carrying the exit code for any other code, an error also
    carrying the exception's message for an exception. None of them stops the
    run.
   */
  lemma BatchRunLogsOutcome(prefix: string, launcher: Launcher, batchType: BatchType, workingDirectory: string,
                            batch: Option<string>, existingFiles: set<string>, outcome: BatchOutcome)
    requires !IsNullOrEmpty(batch) && batch.value in existingFiles
    ensures var evs := BatchEvents(prefix, launcher, batchType, workingDirectory, batch, existingFiles, outcome);
      && |evs| == 2
      && evs[0] == BatchStarted(launcher, workingDirectory, batch.value)
      && evs[1].Logged? && evs[1].level == OutcomeLevel(outcome)
      && Contains(evs[1].message.Text(), batch.value)
      && Contains(evs[1].message.Text(), batchType.Name())
      && (outcome.Exited? && outcome.exitCode != 0 ==> Contains(evs[1].message.Text(), IntToString(outcome.exitCode)))
      && (outcome.Threw? ==> Contains(evs[1].message.Text(), outcome.exception.message))
  {
    var evs := BatchEvents(prefix, launcher, batchType, workingDirectory, batch, existingFiles, outcome);
    MessageMentions(evs[1].message);
  }

  /** What each log entry mentions besides its fixed wording. */
  lemma MessageMentions(m: Message)
    ensures m.MissingBatch? ==> Contains(m.Text(), m.batch) && Contains(m.Text(), AsciiLower(m.batchType.Name()))
    ensures m.BatchException? ==> Contains(m.Text(), m.batch) && Contains(m.Text(), m.exceptionMessage)
                                   && Contains(m.Text(), m.batchType.Name())
    ensures m.BatchSucceeded? ==> Contains(m.Text(), m.batch) && Contains(m.Text(), m.batchType.Name())
    ensures m.BatchExitCode? ==> Contains(m.Text(), m.batch) && Contains(m.Text(), IntToString(m.exitCode))
                                  && Contains(m.Text(), m.batchType.Name())
    ensures m.ExecutionTook? ==> Contains(m.Text(), m.elapsed)
    ensures m.DirectoryNotDeleted? ==> Contains(m.Text(), m.testDirectory) && Contains(m.Text(), m.errorMessage)
    ensures m.RunException? ==> Contains(m.Text(), m.description)
  {
    if m.MissingBatch? || m.BatchException? || m.BatchSucceeded? || m.BatchExitCode? {
      BatchMessageMentions(m);
    } else {
      RunMessageMentions(m);
    }
  }

  lemma RunMessageMentions(m: Message)
    requires !(m.MissingBatch? || m.BatchException? || m.BatchSucceeded? || m.BatchExitCode?)
    ensures m.ExecutionTook? ==> Contains(m.Text(), m.elapsed)
    ensures m.DirectoryNotDeleted? ==> Contains(m.Text(), m.testDirectory) && Contains(m.Text(), m.errorMessage)
    ensures m.RunException? ==> Contains(m.Text(), m.description)
  {
    var p := m.prefix;
    match m
    case ExecutionTook(_, e) =>
      ContainsSuffix("Execution took ", e);
      ContainsPrepend("Execution took " + e, e, p);
    case DirectoryNotDeleted(_, d, msg) =>
      var body := "Could not delete test directory '" + d + "': " + msg;
      ContainsSuffix("Could not delete test directory '", d);
      ContainsExtend("Could not delete test directory '" + d, d, "': ");
      ContainsExtend("Could not delete test directory '" + d + "': ", d, msg);
      ContainsPrepend(body, d, p);
      ContainsSuffix("Could not delete test directory '" + d + "': ", msg);
      ContainsPrepend(body, msg, p);
    case RunException(_, d) =>
      ContainsSuffix("Exception while running tests: ", d);
      ContainsPrepend("Exception while running tests: " + d, d, p);
  }

  lemma BatchMessageMentions(m: Message)
    requires m.MissingBatch? || m.BatchException? || m.BatchSucceeded? || m.BatchExitCode?
    ensures m.MissingBatch? ==> Contains(m.Text(), m.batch) && Contains(m.Text(), AsciiLower(m.batchType.Name()))
    ensures m.BatchException? ==> Contains(m.Text(), m.batch) && Contains(m.Text(), m.exceptionMessage)
                                   && Contains(m.Text(), m.batchType.Name())
    ensures m.BatchSucceeded? ==> Contains(m.Text(), m.batch) && Contains(m.Text(), m.batchType.Name())
    ensures m.BatchExitCode? ==> Contains(m.Text(), m.batch) && Contains(m.Text(), IntToString(m.exitCode))
                                  && Contains(m.Text(), m.batchType.Name())
  {
    var p := m.prefix;
    match m
    case MissingBatch(_, t, b) =>
      var lower := AsciiLower(t.Name());
      ContainsSuffix("Did not find " + lower + " batch file: ", b);
      ContainsPrepend("Did not find " + lower + " batch file: " + b, b, p);
      ContainsSuffix("Did not find ", lower);
      ContainsExtend("Did not find " + lower, lower, " batch file: ");
      ContainsExtend("Did not find " + lower + " batch file: ", lower, b);
      ContainsPrepend("Did not find " + lower + " batch file: " + b, lower, p);
    case BatchException(_, t, msg, b) =>
      var head := t.Name() + " batch caused exception, msg: '";
      var body := head + msg + "', executed command: '" + b + "'";
      ContainsSuffix(head + msg + "', executed command: '", b);
      ContainsExtend(head + msg + "', executed command: '" + b, b, "'");
      ContainsPrepend(body, b, p);
      ContainsSuffix(head, msg);
      ContainsExtend(head + msg, msg, "', executed command: '");
      ContainsExtend(head + msg + "', executed command: '", msg, b);
      ContainsExtend(head + msg + "', executed command: '" + b, msg, "'");
      ContainsPrepend(body, msg, p);
      ContainsPrefix(t.Name(), " batch caused exception, msg: '");
      ContainsExtend(head, t.Name(), msg);
      ContainsExtend(head + msg, t.Name(), "', executed command: '");
      ContainsExtend(head + msg + "', executed command: '", t.Name(), b);
      ContainsExtend(head + msg + "', executed command: '" + b, t.Name(), "'");
      ContainsPrepend(body, t.Name(), p);
    case BatchSucceeded(_, t, b) =>
      var body := "Successfully ran " + t.Name() + " batch '" + b + "'";
      ContainsSuffix("Successfully ran " + t.Name() + " batch '", b);
      ContainsExtend("Successfully ran " + t.Name() + " batch '" + b, b, "'");
      ContainsPrepend(body, b, p);
      ContainsSuffix("Successfully ran ", t.Name());
      ContainsExtend("Successfully ran " + t.Name(), t.Name(), " batch '");
      ContainsExtend("Successfully ran " + t.Name() + " batch '", t.Name(), b);
      ContainsExtend("Successfully ran " + t.Name() + " batch '" + b, t.Name(), "'");
      ContainsPrepend(body, t.Name(), p);
    case BatchExitCode(_, t, code, b) =>
      var c := IntToString(code);
      var head := t.Name() + " batch returned exit code ";
      var body := head + c + ", executed command: '" + b + "'";
      ContainsSuffix(head + c + ", executed command: '", b);
      ContainsExtend(head + c + ", executed command: '" + b, b, "'");
      ContainsPrepend(body, b, p);
      ContainsSuffix(head, c);
      ContainsExtend(head + c, c, ", executed command: '");
      ContainsExtend(head + c + ", executed command: '", c, b);
      ContainsExtend(head + c + ", executed command: '" + b, c, "'");
      ContainsPrepend(body, c, p);
      ContainsPrefix(t.Name(), " batch returned exit code ");
      ContainsExtend(head, t.Name(), c);
      ContainsExtend(head + c, t.Name(), ", executed command: '");
      ContainsExtend(head + c + ", executed command: '", t.Name(), b);
      ContainsExtend(head + c + ", executed command: '" + b, t.Name(), "'");
      ContainsPrepend(body, t.Name(), p);
  }

  /** A batch never calls the inner runner nor deletes the directory, and starts at most one process. */
  lemma BatchEventsCounts(prefix: string, launcher: Launcher, batchType: BatchType,
                          workingDirectory: string, batch: Option<string>,
                          existingFiles: set<string>, outcome: BatchOutcome)
    ensures var evs := BatchEvents(prefix, launcher, batchType, workingDirectory, batch, existingFiles, outcome);
      InnerRuns(evs) == 0 && Deletions(evs) == 0 && BatchStarts(evs) <= 1
  {
    var evs := BatchEvents(prefix, launcher, batchType, workingDirectory, batch, existingFiles, outcome);
    if |evs| == 2 {
      CountsTwo(evs[0], evs[1]);
      assert evs == [evs[0], evs[1]];
      CountsOne(evs[0]);
      CountsOne(evs[1]);
    } else if |evs| == 1 {
      assert evs == [evs[0]];
      CountsOne(evs[0]);
    }
  }

  // ---------------------------------------------------------------------
  // Properties of a run
  // ---------------------------------------------------------------------

  /** The events after a normal return of the inner runner: teardown, timing, deletion, maybe a warning. */
  lemma AfterNormalReturn(prefix: string, settings: Settings, testDirectory: string, threadId: int,
                          isBeingDebugged: bool, env: Environment)
    requires env.innerOutcome.None?
    ensures var after := AfterInnerEvents(prefix, settings, testDirectory, threadId, isBeingDebugged, env);
      var teardown := BatchEvents(prefix, LauncherFor(settings.useNewTestExecutionFramework, isBeingDebugged),
                                  TestTeardown, settings.solutionDir, settings.batchForTestTeardown(testDirectory, threadId),
                                  env.existingFiles, env.teardownOutcome);
      var t := |teardown|;
      && |after| == t + 2 + (if env.deleteOutcome.Deleted? then 0 else 1)
      && after[..t] == teardown
      && after[t] == Logged(DebugInfo, ExecutionTook(prefix, env.elapsed))
      && after[t + 1] == DirectoryDeleted(testDirectory)
      && (env.deleteOutcome.NotDeleted? ==>
            after[t + 2] == Logged(DebugWarning, DirectoryNotDeleted(prefix, testDirectory, env.deleteOutcome.errorMessage)))
      && InnerRuns(after) == 0 && Deletions(after) == 1
  {
    var launcher := LauncherFor(settings.useNewTestExecutionFramework, isBeingDebugged);
    var teardown := BatchEvents(prefix, launcher, TestTeardown, settings.solutionDir,
                                settings.batchForTestTeardown(testDirectory, threadId), env.existingFiles, env.teardownOutcome);
    var elapsed := Logged(DebugInfo, ExecutionTook(prefix, env.elapsed));
    var deleted := DirectoryDeleted(testDirectory);
    var warning: seq<Event> := match env.deleteOutcome
      case Deleted => []
      case NotDeleted(msg) => [Logged(DebugWarning, DirectoryNotDeleted(prefix, testDirectory, msg))];
    var after := AfterInnerEvents(prefix, settings, testDirectory, threadId, isBeingDebugged, env);
    assert after == teardown + [elapsed, deleted] + warning;
    BatchEventsCounts(prefix, launcher, TestTeardown, settings.solutionDir,
                      settings.batchForTestTeardown(testDirectory, threadId), env.existingFiles, env.teardownOutcome);
    CountsTwo(elapsed, deleted);
    CountsOne(elapsed);
    CountsOne(deleted);
    CountsAppend(teardown, [elapsed, deleted]);
    CountsAppend(teardown + [elapsed, deleted], warning);
    if warning != [] {
      CountsOne(warning[0]);
      assert warning == [warning[0]];
    }
  }

  /**
    `RunTests` runs the setup batch first, then calls the inner runner exactly
    once; when that returns normally, the teardown batch follows, then the
    elapsed-time entry, then the deletion of the test directory, which happens
    exactly once.
   */
  lemma RunTestsOrder(prefix: string, settings: Settings, testDirectory: string, threadId: int,
                      testCases: seq<TestCase>, isBeingDebugged: bool, env: Environment)
    ensures var evs := RunTestsEvents(prefix, settings, testDirectory, threadId, testCases, isBeingDebugged, env);
      var launcher := LauncherFor(settings.useNewTestExecutionFramework, isBeingDebugged);
      var setup := BatchEvents(prefix, launcher, TestSetup, settings.solutionDir,
                               settings.batchForTestSetup(testDirectory, threadId), env.existingFiles, env.setupOutcome);
      var teardown := BatchEvents(prefix, launcher, TestTeardown, settings.solutionDir,
                                  settings.batchForTestTeardown(testDirectory, threadId), env.existingFiles, env.teardownOutcome);
      var s := |setup|;
      && s < |evs|
      && evs[..s] == setup
      && evs[s] == InnerRunTests(testCases, isBeingDebugged)
      && InnerRuns(evs) == 1
      && (env.innerOutcome.None? ==>
            && s + 2 + |teardown| < |evs|
            && evs[s + 1..s + 1 + |teardown|] == teardown
            && evs[s + 1 + |teardown|] == Logged(DebugInfo, ExecutionTook(prefix, env.elapsed))
            && evs[s + 2 + |teardown|] == DirectoryDeleted(testDirectory)
            && Deletions(evs) == 1)
  {
    var launcher := LauncherFor(settings.useNewTestExecutionFramework, isBeingDebugged);
    var setup := BatchEvents(prefix, launcher, TestSetup, settings.solutionDir,
                             settings.batchForTestSetup(testDirectory, threadId), env.existingFiles, env.setupOutcome);
    var inner := InnerRunTests(testCases, isBeingDebugged);
    var after := AfterInnerEvents(prefix, settings, testDirectory, threadId, isBeingDebugged, env);
    var evs := RunTestsEvents(prefix, settings, testDirectory, threadId, testCases, isBeingDebugged, env);
    assert evs == setup + [inner] + after;
    var s := |setup|;
    assert evs[..s] == setup;
    assert evs[s + 1..] == after;
    BatchEventsCounts(prefix, launcher, TestSetup, settings.solutionDir,
                      settings.batchForTestSetup(testDirectory, threadId), env.existingFiles, env.setupOutcome);
    CountsOne(inner);
    CountsAppend(setup, [inner]);
    CountsAppend(setup + [inner], after);
    match env.innerOutcome
    case Some(e) =>
      var err := Logged(Error, RunException(prefix, e.description));
      assert after == [err];
      CountsOne(err);
    case None =>
      AfterNormalReturn(prefix, settings, testDirectory, threadId, isBeingDebugged, env);
  }

  /**
    How the setup batch ends never changes what follows it: whatever the
    setup outcome, the inner runner is called next and the rest of the run is
    the same.
   */
  lemma SetupNeverStopsRun(prefix: string, settings: Settings, testDirectory: string, threadId: int,
                           testCases: seq<TestCase>, isBeingDebugged: bool, env: Environment, setup: BatchOutcome)
    ensures var launcher := LauncherFor(settings.useNewTestExecutionFramework, isBeingDebugged);
      var batch := settings.batchForTestSetup(testDirectory, threadId);
      var s := |BatchEvents(prefix, launcher, TestSetup, settings.solutionDir, batch, env.existingFiles, setup)|;
      var evs := RunTestsEvents(prefix, settings, testDirectory, threadId, testCases, isBeingDebugged, env.(setupOutcome := setup));
      s <= |evs| &&
      evs[s..] == [InnerRunTests(testCases, isBeingDebugged)]
                  + AfterInnerEvents(prefix, settings, testDirectory, threadId, isBeingDebugged, env)
  {
    var launcher := LauncherFor(settings.useNewTestExecutionFramework, isBeingDebugged);
    var b := BatchEvents(prefix, launcher, TestSetup, settings.solutionDir,
                         settings.batchForTestSetup(testDirectory, threadId), env.existingFiles, setup);
    var e := env.(setupOutcome := setup);
    var rest := [InnerRunTests(testCases, isBeingDebugged)]
      + AfterInnerEvents(prefix, settings, testDirectory, threadId, isBeingDebugged, env);
    assert AfterInnerEvents(prefix, settings, testDirectory, threadId, isBeingDebugged, e)
        == AfterInnerEvents(prefix, settings, testDirectory, threadId, isBeingDebugged, env);
    assert RunTestsEvents(prefix, settings, testDirectory, threadId, testCases, isBeingDebugged, e) == b + rest;
    assert (b + rest)[|b|..] == rest;
  }

  /**
    An exception from the inner runner is caught: it is logged as an error,
    last, and neither the teardown batch nor the directory deletion happens.
   */
  lemma InnerExceptionIsLogged(prefix: string, settings: Settings, testDirectory: string, threadId: int,
                               testCases: seq<TestCase>, isBeingDebugged: bool, env: Environment)
    requires env.innerOutcome.Some?
    ensures var evs := RunTestsEvents(prefix, settings, testDirectory, threadId, testCases, isBeingDebugged, env);
      var launcher := LauncherFor(settings.useNewTestExecutionFramework, isBeingDebugged);
      var setup := BatchEvents(prefix, launcher, TestSetup, settings.solutionDir,
                               settings.batchForTestSetup(testDirectory, threadId), env.existingFiles, env.setupOutcome);
      && |evs| == |setup| + 2
      && evs[|evs| - 1] == Logged(Error, RunException(prefix, env.innerOutcome.value.description))
      && Contains(evs[|evs| - 1].message.Text(), env.innerOutcome.value.description)
      && BatchStarts(evs) == BatchStarts(setup)
      && Deletions(evs) == 0
  {
    var launcher := LauncherFor(settings.useNewTestExecutionFramework, isBeingDebugged);
    var setup := BatchEvents(prefix, launcher, TestSetup, settings.solutionDir,
                             settings.batchForTestSetup(testDirectory, threadId), env.existingFiles, env.setupOutcome);
    var e := env.innerOutcome.value;
    var inner := InnerRunTests(testCases, isBeingDebugged);
    var err := Logged(Error, RunException(prefix, e.description));
    var evs := RunTestsEvents(prefix, settings, testDirectory, threadId, testCases, isBeingDebugged, env);
    assert evs == setup + [inner, err];
    BatchEventsCounts(prefix, launcher, TestSetup, settings.solutionDir,
                      settings.batchForTestSetup(testDirectory, threadId), env.existingFiles, env.setupOutcome);
    CountsAppend(setup, [inner, err]);
    CountsTwo(inner, err);
    CountsOne(inner);
    CountsOne(err);
    MessageMentions(err.message);
  }

  /**
    A directory that cannot be deleted adds one debug warning at the very end
    and changes nothing else.
   */
  lemma DeleteFailureOnlyWarns(prefix: string, settings: Settings, testDirectory: string, threadId: int,
                               testCases: seq<TestCase>, isBeingDebugged: bool, env: Environment, errorMessage: string)
    requires env.innerOutcome.None?
    ensures RunTestsEvents(prefix, settings, testDirectory, threadId, testCases, isBeingDebugged,
                           env.(deleteOutcome := NotDeleted(errorMessage)))
         == RunTestsEvents(prefix, settings, testDirectory, threadId, testCases, isBeingDebugged,
                           env.(deleteOutcome := Deleted))
            + [Logged(DebugWarning, DirectoryNotDeleted(prefix, testDirectory, errorMessage))]
  {
    var launcher := LauncherFor(settings.useNewTestExecutionFramework, isBeingDebugged);
    var setup := BatchEvents(prefix, launcher, TestSetup, settings.solutionDir,
                             settings.batchForTestSetup(testDirectory, threadId), env.existingFiles, env.setupOutcome);
    var teardown := BatchEvents(prefix, launcher, TestTeardown, settings.solutionDir,
                                settings.batchForTestTeardown(testDirectory, threadId), env.existingFiles, env.teardownOutcome);
    var middle := [Logged(DebugInfo, ExecutionTook(prefix, env.elapsed)), DirectoryDeleted(testDirectory)];
    var inner := [InnerRunTests(testCases, isBeingDebugged)];
    var warning := [Logged(DebugWarning, DirectoryNotDeleted(prefix, testDirectory, errorMessage))];
    var ok, failed := env.(deleteOutcome := Deleted), env.(deleteOutcome := NotDeleted(errorMessage));
    assert AfterInnerEvents(prefix, settings, testDirectory, threadId, isBeingDebugged, ok) == teardown + middle + [];
    assert AfterInnerEvents(prefix, settings, testDirectory, threadId, isBeingDebugged, failed) == teardown + middle + warning;
    assert RunTestsEvents(prefix, settings, testDirectory, threadId, testCases, isBeingDebugged, ok)
        == setup + inner + (teardown + middle + []);
    assert RunTestsEvents(prefix, settings, testDirectory, threadId, testCases, isBeingDebugged, failed)
        == setup + inner + (teardown + middle + warning);
  }

  // ---------------------------------------------------------------------
  // The runner
  // ---------------------------------------------------------------------

  class PreparingTestRunner {
    /** `_threadName`: the log prefix, empty or ending in a space. */
    const threadName: string
    /** `_threadId`: never negative. */
    const threadId: int
    /** `_testDirectory`: the thread's temporary directory. */
    const testDirectory: string
    const settings: Settings
    /** Everything the runner has done so far, in order. */
    var trace: seq<Event>

    /**
      The constructor for thread `threadId`; `testDirectory` is the fresh
      temporary directory that `Utils.GetTempDirectory` returns.
     */
    constructor (threadId: int, settings: Settings, testDirectory: string)
      ensures threadName == ThreadPrefix(ComputeThreadName(threadId, settings.maxNrOfThreads))
      ensures this.threadId == Max(0, threadId)
      ensures this.settings == settings && this.testDirectory == testDirectory
      ensures trace == []
    {
      var name := ComputeThreadName(threadId, settings.maxNrOfThreads);
      this.threadName := ThreadPrefix(name);
      this.threadId := Max(0, threadId);
      this.testDirectory := testDirectory;
      this.settings := settings;
      this.trace := [];
    }

    /** The constructor without a thread id: it passes -1. */
    constructor WithoutThreadId(settings: Settings, testDirectory: string)
      ensures threadName == "" && threadId == 0
      ensures this.settings == settings && this.testDirectory == testDirectory
      ensures trace == []
    {
      var name := ComputeThreadName(-1, settings.maxNrOfThreads);
      this.threadName := ThreadPrefix(name);
      this.threadId := Max(0, -1);
      this.testDirectory := testDirectory;
      this.settings := settings;
      this.trace := [];
    }

    /** `RunBatch`: launches the batch; the exception it throws, if any, is returned. */
    method RunBatch(batchType: BatchType, workingDirectory: string, batch: string, isBeingDebugged: bool,
                    outcome: BatchOutcome)
      returns (thrown: Option<Exception>)
      modifies this
      ensures thrown == (if outcome.Threw? then Some(outcome.exception) else None)
      ensures var launcher := LauncherFor(settings.useNewTestExecutionFramework, isBeingDebugged);
        trace == old(trace) + (if outcome.Threw? then [BatchStarted(launcher, workingDirectory, batch)]
                               else RunBatchEvents(threadName, launcher, batchType, workingDirectory, batch, outcome))
    {
      var launcher := LauncherFor(settings.useNewTestExecutionFramework, isBeingDebugged);
      trace := trace + [BatchStarted(launcher, workingDirectory, batch)];
      match outcome {
        case Threw(e) =>
          return Some(e);
        case Exited(batchExitCode) =>
          if batchExitCode == 0 {
            trace := trace + [Logged(DebugInfo, BatchSucceeded(threadName, batchType, batch))];
          } else {
            trace := trace + [Logged(Warning, BatchExitCode(threadName, batchType, batchExitCode, batch))];
          }
          return None;
      }
    }

    /** `SafeRunBatch`: skips an absent batch, reports a missing file, catches what `RunBatch` throws. */
    method SafeRunBatch(batchType: BatchType, workingDirectory: string, batch: Option<string>, isBeingDebugged: bool,
                        existingFiles: set<string>, outcome: BatchOutcome)
      modifies this
      ensures trace == old(trace) + BatchEvents(threadName, LauncherFor(settings.useNewTestExecutionFramework, isBeingDebugged),
                                                batchType, workingDirectory, batch, existingFiles, outcome)
    {
      if IsNullOrEmpty(batch) {
        return;
      }
      if batch.value !in existingFiles {
        trace := trace + [Logged(Error, MissingBatch(threadName, batchType, batch.value))];
        return;
      }
      var thrown := RunBatch(batchType, workingDirectory, batch.value, isBeingDebugged, outcome);
      if thrown.Some? {
        trace := trace + [Logged(Error, BatchException(threadName, batchType, thrown.value.message, batch.value))];
      }
    }

    /** `RunTests`: setup, tests, teardown, timing and clean-up, with every failure logged. */
    method RunTests(testCasesToRun: seq<TestCase>, isBeingDebugged: bool, env: Environment)
      modifies this
      ensures trace == old(trace) + RunTestsEvents(threadName, settings, testDirectory, threadId,
                                                   testCasesToRun, isBeingDebugged, env)
    {
      var batch := settings.batchForTestSetup(testDirectory, threadId);
      SafeRunBatch(TestSetup, settings.solutionDir, batch, isBeingDebugged, env.existingFiles, env.setupOutcome);

      trace := trace + [InnerRunTests(testCasesToRun, isBeingDebugged)];
      if env.innerOutcome.Some? {
        // the catch block
        trace := trace + [Logged(Error, RunException(threadName, env.innerOutcome.value.description))];
        return;
      }
      FinishRun(isBeingDebugged, env);
    }

    /**
      The part of the `try` block of `RunTests` after the inner runner returned:
      the teardown batch, the elapsed time and the deletion of the test directory.
     */
    method FinishRun(isBeingDebugged: bool, env: Environment)
      requires env.innerOutcome.None?
      modifies this
      ensures trace == old(trace) + AfterInnerEvents(threadName, settings, testDirectory, threadId, isBeingDebugged, env)
    {
      var batch := settings.batchForTestTeardown(testDirectory, threadId);
      SafeRunBatch(TestTeardown, settings.solutionDir, batch, isBeingDebugged, env.existingFiles, env.teardownOutcome);

      trace := trace + [Logged(DebugInfo, ExecutionTook(threadName, env.elapsed))];
      trace := trace + [DirectoryDeleted(testDirectory)];
      if env.deleteOutcome.NotDeleted? {
        trace := trace + [Logged(DebugWarning, DirectoryNotDeleted(threadName, testDirectory, env.deleteOutcome.errorMessage))];
      }
    }

    /** `Cancel`: forwards to the inner runner and does nothing else. */
    method Cancel()
      modifies this
      ensures trace == old(trace) + [InnerCancel]
    {
      trace := trace + [InnerCancel];
    }
  }
}
