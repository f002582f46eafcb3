/**
 * `ExecState`, which decides when a spawned process counts as finished and
 * emits `'done'` with the error (if any) and the exit code.
 *
 * The process flags are public fields that the event handlers of the
 * spawned process write; `CheckComplete` then finalizes at once when stdio
 * is closed, or arms a timer when the process has only exited, and the
 * timer's `HandleTimeout` finalizes in any case. Timers are a flag, and each
 * `'done'` emission is recorded in `emitted`.
 */
module Completion {
  import opened Wrappers
  import opened Rendering

  /** The error `_setResult` passes with `'done'`. */
  datatype ExecError =
    | ProcessError(message: string)     // `LIB_ProcessError`
    | ProcessExitCode(code: Option<int>) // `LIB_ProcessExitCode`
    | ProcessStderr                      // `LIB_ProcessStderr`

  /** One `'done'` emission. */
  datatype Outcome = Outcome(error: Option<ExecError>, exitCode: Option<int>)

  /**
   * The error determined when finishing: none unless the process exited;
   * then a process error first, a non-zero exit code (an absent one is not
   * zero) unless return codes are ignored second, and output on stderr
   * when that should fail third.
   */
  function FinalError(exited: bool, processError: string, exitCode: Option<int>, stderr: bool, options: ExecOptions)
    : Option<ExecError>
  {
    if !exited then None
    else if processError != [] then Some(ProcessError(processError))
    else if exitCode != Some(0) && !options.ignoreReturnCode then Some(ProcessExitCode(exitCode))
    else if stderr && options.failOnStdErr then Some(ProcessStderr)
    else None
  }

  /** The fields of an `ExecState`, as a value. */
  datatype State = State(
    exited: bool,
    closed: bool,
    processError: string,
    exitCode: Option<int>,
    stderr: bool,
    done: bool,
    timerArmed: bool,
    emitted: seq<Outcome>)

  /** A fresh state: every flag unset, no timer, nothing emitted. */
  const Init := State(false, false, "", None, false, false, false, [])

  /** `_setResult`: emit the outcome, clear the timer, mark done. */
  function Finalize(s: State, options: ExecOptions): State
  {
    s.(timerArmed := false, done := true,
       emitted := s.emitted + [Outcome(FinalError(s.exited, s.processError, s.exitCode, s.stderr, options), s.exitCode)])
  }

  /** `CheckComplete`. */
  function Check(s: State, options: ExecOptions): State
  {
    if s.done then s
    else if s.closed then Finalize(s, options)
    else if s.exited then s.(timerArmed := true)
    else s
  }

  /** `HandleTimeout`, when the timer fires. */
  function Timeout(s: State, options: ExecOptions): State
  {
    if s.done then s else Finalize(s, options)
  }

  /**
   * What can happen to an `ExecState`: the process handlers write the
   * public fields, call `CheckComplete`, and a timer fires.
   */
  datatype Event =
    | Exited(code: Option<int>)
    | Closed
    | Errored(message: string)
    | StderrWritten
    | CheckCompleteCalled
    | TimerFired

  /**
   * One event. The only timer is the one `CheckComplete` arms, so a timer
   * fires only while armed.
   */
  function Apply(s: State, e: Event, options: ExecOptions): State
  {
    match e
    case Exited(code) => s.(exited := true, exitCode := code)
    case Closed => s.(closed := true)
    case Errored(message) => s.(processError := message)
    case StderrWritten => s.(stderr := true)
    case CheckCompleteCalled => Check(s, options)
    case TimerFired => if s.timerArmed then Timeout(s, options) else s
  }

  /** The state after the events, in order. */
  function Run(s: State, events: seq<Event>, options: ExecOptions): State
    decreases |events|
  {
    if events == [] then s else Run(Apply(s, events[0], options), events[1..], options)
  }

  /** At most one emission, made exactly when the state is done, and no timer left once done. */
  ghost predicate Consistent(s: State)
  {
    |s.emitted| <= 1 && (s.done <==> |s.emitted| == 1) && (s.done ==> !s.timerArmed)
  }

  // ---------------------------------------------------------------------
  // One call

  /** Once done, `CheckComplete` and `HandleTimeout` change nothing. */
  lemma DoneIsIdle(s: State, options: ExecOptions)
    requires s.done
    ensures Check(s, options) == s && Timeout(s, options) == s
  {
  }

  /** With stdio closed, `CheckComplete` finishes at once and emits exactly one outcome. */
  lemma CheckFinishesWhenClosed(s: State, options: ExecOptions)
    requires !s.done && s.closed
    ensures Check(s, options).done && !Check(s, options).timerArmed
    ensures Check(s, options).emitted
         == s.emitted + [Outcome(FinalError(s.exited, s.processError, s.exitCode, s.stderr, options), s.exitCode)]
  {
  }

  /** With the process exited but stdio still open, `CheckComplete` only arms the timer. */
  lemma CheckArmsTimer(s: State, options: ExecOptions)
    requires !s.done && !s.closed && s.exited
    ensures Check(s, options) == s.(timerArmed := true)
  {
  }

  /** Before the process has exited or closed, `CheckComplete` changes nothing. */
  lemma CheckWaits(s: State, options: ExecOptions)
    requires !s.closed && !s.exited
    ensures Check(s, options) == s
  {
  }

  /** The timer finishes an unfinished state even though stdio never closed. */
  lemma TimeoutFinishes(s: State, options: ExecOptions)
    requires !s.done
    ensures Timeout(s, options).done && !Timeout(s, options).timerArmed
    ensures |Timeout(s, options).emitted| == |s.emitted| + 1
  {
  }

  /**
   * The error is absent exactly when the process has not exited, or it has
   * with no process error, a zero exit code (or return codes ignored), and
   * no stderr output that should fail; a process error takes precedence
   * over the exit code, which takes precedence over stderr output.
   */
  lemma FinalErrorCases(exited: bool, processError: string, exitCode: Option<int>, stderr: bool, options: ExecOptions)
    ensures var e := FinalError(exited, processError, exitCode, stderr, options);
            (e == None <==>
               !exited ||
               (processError == [] && (exitCode == Some(0) || options.ignoreReturnCode) && !(stderr && options.failOnStdErr)))
            && (exited && processError != [] ==> e == Some(ProcessError(processError)))
            && (e.Some? && e.value.ProcessExitCode? ==> processError == [] && e.value.code == exitCode && exitCode != Some(0))
            && (e == Some(ProcessStderr) ==> stderr && options.failOnStdErr && (exitCode == Some(0) || options.ignoreReturnCode))
  {
  }

  // ---------------------------------------------------------------------
  // Any sequence of events

  lemma ApplyConsistent(s: State, e: Event, options: ExecOptions)
    requires Consistent(s)
    ensures Consistent(Apply(s, e, options))
    ensures s.done ==> Apply(s, e, options).emitted == s.emitted && Apply(s, e, options).done
  {
  }

  /** Whatever happens, at most one outcome is ever emitted, and none after the first. */
  lemma {:induction false} RunConsistent(s: State, events: seq<Event>, options: ExecOptions)
    requires Consistent(s)
    ensures Consistent(Run(s, events, options))
    ensures s.done ==> Run(s, events, options).emitted == s.emitted
    ensures |Run(s, events, options).emitted| <= 1
    decreases |events|
  {
    if events != [] {
      ApplyConsistent(s, events[0], options);
      RunConsistent(Apply(s, events[0], options), events[1..], options);
    }
  }

  /** Events never take an emission back: what was emitted stays a prefix. */
  lemma {:induction false} RunExtends(s: State, events: seq<Event>, options: ExecOptions)
    ensures s.emitted <= Run(s, events, options).emitted
    ensures s.done ==> Run(s, events, options).done
    decreases |events|
  {
    if events != [] {
      var t := Apply(s, events[0], options);
      assert s.emitted <= t.emitted;
      RunExtends(t, events[1..], options);
    }
  }

  /** A timer is armed only after the exit, and a state is done only after the close or the exit. */
  ghost predicate Grounded(s: State)
  {
    (s.timerArmed ==> s.exited) && (s.done ==> s.closed || s.exited)
  }

  lemma ApplyGrounded(s: State, e: Event, options: ExecOptions)
    requires Grounded(s)
    ensures Grounded(Apply(s, e, options))
  {
  }

  /** From a fresh state, whatever happens, `'done'` is emitted only once the process has exited or closed its stdio. */
  lemma {:induction false} RunGrounded(events: seq<Event>, options: ExecOptions)
    ensures var s := Run(Init, events, options);
            s.done ==> s.closed || s.exited
  {
    GroundedRun(Init, events, options);
  }

  lemma {:induction false} GroundedRun(s: State, events: seq<Event>, options: ExecOptions)
    requires Grounded(s)
    ensures Grounded(Run(s, events, options))
    decreases |events|
  {
    if events != [] {
      ApplyGrounded(s, events[0], options);
      GroundedRun(Apply(s, events[0], options), events[1..], options);
    }
  }

  /** A timer that was never armed does nothing, so neither exit nor close means no `'done'`. */
  lemma UnarmedTimerIgnored(options: ExecOptions)
    ensures Run(Init, [TimerFired, CheckCompleteCalled, StderrWritten], options) == Init.(stderr := true)
  {
    var a := Apply(Init, TimerFired, options);
    var b := Apply(a, CheckCompleteCalled, options);
    assert [TimerFired, CheckCompleteCalled, StderrWritten][1..] == [CheckCompleteCalled, StderrWritten];
    assert [CheckCompleteCalled, StderrWritten][1..] == [StderrWritten];
    assert [StderrWritten][1..] == [];
  }

  /**
   * Exit, close, then `CheckComplete`: one outcome, carrying the exit code and
   * the error of that exit code.
   */
  lemma ExitCloseCheck(code: Option<int>, options: ExecOptions)
    ensures var s := Run(Init, [Exited(code), Closed, CheckCompleteCalled], options);
            s.done && s.emitted == [Outcome(FinalError(true, "", code, false, options), code)]
  {
    var a := Apply(Init, Exited(code), options);
    var b := Apply(a, Closed, options);
    var c := Apply(b, CheckCompleteCalled, options);
    assert [Exited(code), Closed, CheckCompleteCalled][1..] == [Closed, CheckCompleteCalled];
    assert [Closed, CheckCompleteCalled][1..] == [CheckCompleteCalled];
    assert Run(Init, [Exited(code), Closed, CheckCompleteCalled], options) == Run(c, [], options);
  }

  /**
   * Exit and `CheckComplete` with stdio never closing: the timer is armed,
   * and its firing emits the one outcome.
   */
  lemma ExitThenTimeout(code: Option<int>, options: ExecOptions)
    ensures Run(Init, [Exited(code), CheckCompleteCalled], options).timerArmed
    ensures !Run(Init, [Exited(code), CheckCompleteCalled], options).done
    ensures var s := Run(Init, [Exited(code), CheckCompleteCalled, TimerFired], options);
            s.done && s.emitted == [Outcome(FinalError(true, "", code, false, options), code)]
  {
    var a := Apply(Init, Exited(code), options);
    var b := Apply(a, CheckCompleteCalled, options);
    var c := Apply(b, TimerFired, options);
    assert [Exited(code), CheckCompleteCalled][1..] == [CheckCompleteCalled];
    assert [CheckCompleteCalled][1..] == [];
    assert Run(a, [CheckCompleteCalled], options) == Run(b, [], options);
    assert Run(Init, [Exited(code), CheckCompleteCalled], options) == Run(b, [], options);
    assert [Exited(code), CheckCompleteCalled, TimerFired][1..] == [CheckCompleteCalled, TimerFired];
    assert [CheckCompleteCalled, TimerFired][1..] == [TimerFired];
    assert Run(Init, [Exited(code), CheckCompleteCalled, TimerFired], options) == Run(c, [], options);
  }

  /**
   * Closed stdio finishes even before the process is known to have exited,
   * and then no error is determined, whatever the options.
   */
  lemma CloseFinishesBeforeExit(options: ExecOptions)
    ensures var s := Run(Init, [Closed, CheckCompleteCalled], options);
            s.done && s.emitted == [Outcome(None, None)]
  {
    var a := Apply(Init, Closed, options);
    var b := Apply(a, CheckCompleteCalled, options);
    assert [Closed, CheckCompleteCalled][1..] == [CheckCompleteCalled];
    assert [CheckCompleteCalled][1..] == [];
    assert Run(a, [CheckCompleteCalled], options) == Run(b, [], options);
  }

  // ---------------------------------------------------------------------
  // The class

  class ExecState {
    var processClosed: bool
    var processError: string
    var processExitCode: Option<int>
    var processExited: bool
    var processStderr: bool
    const delay: int
    var done: bool
    const options: ExecOptions
    var timerArmed: bool
    const toolPath: string
    var emitted: seq<Outcome>

    /** The fields as a value. */
    function Snapshot(): State
      reads this
    {
      State(processExited, processClosed, processError, processExitCode, processStderr, done, timerArmed, emitted)
    }

    /**
     * The constructor, for a non-empty tool path. `delayOverride` is the
     * already parsed `TASKLIB_TEST_TOOLRUNNER_EXITDELAY`, when it is set.
     */
    constructor (options: ExecOptions, toolPath: string, delayOverride: Option<int>)
      requires toolPath != []
      ensures Snapshot() == Init
      ensures this.options == options && this.toolPath == toolPath
      ensures delay == (if delayOverride.Some? then delayOverride.value else 10000)
    {
      this.options := options;
      this.toolPath := toolPath;
      delay := if delayOverride.Some? then delayOverride.value else 10000;
      processClosed, processError, processExitCode, processExited, processStderr := false, "", None, false, false;
      done, timerArmed, emitted := false, false, [];
    }

    /** `new ExecState(options, toolPath)`, which throws on an empty tool path. */
    static method Create(options: ExecOptions, toolPath: string, delayOverride: Option<int>)
      returns (r: Result<ExecState, string>)
      ensures r.Failure? <==> toolPath == []
      ensures r.Failure? ==> r.error == "toolPath must not be empty"
      ensures r.Success? ==> fresh(r.value) && r.value.Snapshot() == Init && r.value.options == options
    {
      if toolPath == [] {
        return Failure("toolPath must not be empty");
      }
      var state := new ExecState(options, toolPath, delayOverride);
      return Success(state);
    }

    /** `CheckComplete`. */
    method CheckComplete()
      modifies this
      ensures Snapshot() == Check(old(Snapshot()), options)
    {
      if done {
        return;
      }
      if processClosed {
        SetResult();
      } else if processExited {
        timerArmed := true;
      }
    }

    /** `_setResult`. */
    method SetResult()
      modifies this
      ensures Snapshot() == Finalize(old(Snapshot()), options)
    {
      var error: Option<ExecError> := None;
      if processExited {
        if processError != [] {
          error := Some(ProcessError(processError));
        } else if processExitCode != Some(0) && !options.ignoreReturnCode {
          error := Some(ProcessExitCode(processExitCode));
        } else if processStderr && options.failOnStdErr {
          error := Some(ProcessStderr);
        }
      }
      if timerArmed {
        timerArmed := false;
      }
      done := true;
      emitted := emitted + [Outcome(error, processExitCode)];
    }

    /** `HandleTimeout(state)`, which the armed timer calls. */
    static method HandleTimeout(state: ExecState)
      modifies state
      ensures state.Snapshot() == Timeout(old(state.Snapshot()), state.options)
    {
      if state.done {
        return;
      }
      state.SetResult();
    }
  }
}
