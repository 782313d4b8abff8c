/** The live job loop of internal/runner/runner.go. The goroutine that starts
    and waits, the timer channel and the select become an Outcome per attempt:
    the injected executor's StartResult, which of "timer fired" and "command
    completed" came first, and the completion. Stop requests from other
    goroutines become StopCalled inputs interleaved with the iterations. */
module Runner {
  import opened Types
  import ExecWrapper

  /** time.Second, in time.Duration units (nanoseconds). */
  const Second: int := 1_000_000_000

  /** What the collaborators did in one iteration that got past the stop check.
      timerFirst is consulted only when a timer was armed and the start succeeded. */
  datatype Outcome = Outcome(start: ExecWrapper.StartResult, timerFirst: bool, completion: ExecWrapper.RunResult)

  /** The job's environment, one step at a time: Stop() called by another
      goroutine, or the loop reaching the top of an iteration. */
  datatype Input = StopCalled | Iteration(outcome: Outcome)

  /** A runnerJob together with what it did to its collaborators. */
  datatype JobState = JobState(
    stopFlag: bool,               // a value is waiting in stopChan
    running: bool,                // still inside the labelled loop
    emitted: seq<RunResult>,      // sent on resultChan, in order
    commands: seq<seq<string>>,   // arguments given to execWrapper.Command
    timers: seq<int>,             // durations requested of timerFactory.NewTimer
    waits: nat,                   // values received from cmdDoneChan
    doneSent: nat)                // values sent on doneChan

  /** The state startRunner hands to the goroutine. */
  function Init(): JobState
  {
    JobState(false, true, [], [], [], 0, 0)
  }

  /** True when a timer is armed for each attempt. */
  predicate TimerArmed(timeoutSec: int)
  {
    timeoutSec > 0
  }

  /** The result one started-or-failed attempt sends on resultChan. */
  function AttemptResult(timeoutSec: int, o: Outcome): (r: RunResult)
    ensures r.oupfile == o.start.oupfile
    ensures r.result == FAILED_EXECUTING <==> o.start.error.Some?
    ensures r.result == TIMEOUT <==> o.start.error.None? && TimerArmed(timeoutSec) && o.timerFirst
    ensures r.result == OK <==>
      o.start.error.None? && !(TimerArmed(timeoutSec) && o.timerFirst) && ExecWrapper.IsCleanExit(o.completion)
    ensures r.result == FAILED_EXECUTING ==> r.exitCode == 0 && r.timeoutPid == 0
    ensures r.result == TIMEOUT ==> r.timeoutPid == o.start.pid && r.exitCode == 0
    ensures r.result == OK ==> r.exitCode == 0 && r.timeoutPid == 0
    ensures r.result == FAIL ==> r.exitCode == o.completion.exitCode && r.timeoutPid == 0
  {
    if o.start.error.Some? then
      RunResult(FAILED_EXECUTING, o.start.oupfile, 0, 0)
    else if TimerArmed(timeoutSec) && o.timerFirst then
      RunResult(TIMEOUT, o.start.oupfile, 0, o.start.pid)
    else if o.completion.exitCode == 0 && o.completion.ioError.None? then
      RunResult(OK, o.start.oupfile, 0, 0)
    else
      RunResult(FAIL, o.start.oupfile, o.completion.exitCode, 0)
  }

  /** One pass through the loop body after the stop check: exactly one result
      is sent and one Command call made, a completion is received exactly when
      the start succeeded, and the loop goes on exactly when the result is OK. */
  function Attempt(cmd: seq<string>, timeoutSec: int, s: JobState, o: Outcome): (r: JobState)
    ensures r.emitted == s.emitted + [AttemptResult(timeoutSec, o)]
    ensures r.commands == s.commands + [cmd]
    ensures r.waits == s.waits + (if o.start.error.None? then 1 else 0)
    ensures r.running <==> AttemptResult(timeoutSec, o).result == OK
    ensures r.doneSent == s.doneSent && r.stopFlag == s.stopFlag
  {
    var r := AttemptResult(timeoutSec, o);
    s.(commands := s.commands + [cmd],
       timers := if TimerArmed(timeoutSec) then s.timers + [timeoutSec * Second] else s.timers,
       emitted := s.emitted + [r],
       waits := if o.start.error.None? then s.waits + 1 else s.waits,
       running := r.result == OK)
  }

  /** One input while the loop runs. A stop request only becomes pending, and
      with a stop pending nothing more is sent. */
  function Step(cmd: seq<string>, timeoutSec: int, s: JobState, input: Input): (r: JobState)
    ensures input.StopCalled? ==> r.stopFlag && r.running == s.running && r.emitted == s.emitted
    ensures s.stopFlag ==> r.emitted == s.emitted && r.commands == s.commands && r.stopFlag
    ensures |s.emitted| <= |r.emitted| <= |s.emitted| + 1 && r.emitted[..|s.emitted|] == s.emitted
    ensures r.doneSent == s.doneSent
  {
    match input
    case StopCalled => s.(stopFlag := true)
    case Iteration(o) => if s.stopFlag then s.(running := false) else Attempt(cmd, timeoutSec, s, o)
  }

  /** The labelled loop over the inputs the environment supplies. It only
      appends results, at most one per iteration, never sends done, and once
      left it stays left. */
  function Loop(cmd: seq<string>, timeoutSec: int, s: JobState, inputs: seq<Input>): (r: JobState)
    ensures !s.running ==> r == s
    ensures |s.emitted| <= |r.emitted| <= |s.emitted| + Iterations(inputs)
    ensures r.emitted[..|s.emitted|] == s.emitted
    ensures r.doneSent == s.doneSent
    decreases |inputs|
  {
    if inputs == [] || !s.running then s
    else Loop(cmd, timeoutSec, Step(cmd, timeoutSec, s, inputs[0]), inputs[1..])
  }

  /** run(): the loop, then one value on doneChan once the loop has been left. */
  function Execution(cmd: seq<string>, timeoutSec: int, s: JobState, inputs: seq<Input>): (r: JobState)
    ensures r.doneSent == s.doneSent + (if r.running then 0 else 1)
    ensures |s.emitted| <= |r.emitted| && r.emitted[..|s.emitted|] == s.emitted
  {
    var t := Loop(cmd, timeoutSec, s, inputs);
    if t.running then t else t.(doneSent := t.doneSent + 1)
  }

  /** Number of Iteration inputs. */
  function Iterations(inputs: seq<Input>): nat
  {
    if inputs == [] then 0 else Iterations(inputs[1..]) + (if inputs[0].Iteration? then 1 else 0)
  }

  /** What holds of every state the loop passes through. */
  predicate Consistent(cmd: seq<string>, timeoutSec: int, s: JobState)
  {
    && OnlyLastMayFail(s.emitted)
    && (s.running ==> forall i :: 0 <= i < |s.emitted| ==> s.emitted[i].result == OK)
    && |s.commands| == |s.emitted|
    && (forall i :: 0 <= i < |s.commands| ==> s.commands[i] == cmd)
    && |s.timers| == (if TimerArmed(timeoutSec) then |s.emitted| else 0)
    && (forall i :: 0 <= i < |s.timers| ==> s.timers[i] == timeoutSec * Second)
    && s.waits + CountKind(s.emitted, FAILED_EXECUTING) == |s.emitted|
    && (!TimerArmed(timeoutSec) ==> CountKind(s.emitted, TIMEOUT) == 0)
  }

  lemma StepConsistent(cmd: seq<string>, timeoutSec: int, s: JobState, input: Input)
    requires s.running && Consistent(cmd, timeoutSec, s)
    ensures Consistent(cmd, timeoutSec, Step(cmd, timeoutSec, s, input))
  {
    if input.Iteration? && !s.stopFlag {
      var t := Step(cmd, timeoutSec, s, input);
      assert t.emitted[..|t.emitted| - 1] == s.emitted;
    }
  }

  /** Every state the loop reaches from a consistent one is consistent: at most
      one non-OK result and only as the last, one Command call with the
      unchanged cmd per result, one timer of timeoutSec seconds per attempt
      when armed and none otherwise, and a completion received for every
      attempt that started. */
  lemma {:induction false} LoopConsistent(cmd: seq<string>, timeoutSec: int, s: JobState, inputs: seq<Input>)
    requires Consistent(cmd, timeoutSec, s)
    ensures Consistent(cmd, timeoutSec, Loop(cmd, timeoutSec, s, inputs))
    decreases |inputs|
  {
    if inputs != [] && s.running {
      StepConsistent(cmd, timeoutSec, s, inputs[0]);
      LoopConsistent(cmd, timeoutSec, Step(cmd, timeoutSec, s, inputs[0]), inputs[1..]);
    }
  }

  /** A whole run from startRunner: every result but the last is OK, at most
      one is not OK, a non-OK result ends the loop, done is sent exactly once
      when the loop is left and never while it runs, every attempt passes the
      unchanged cmd to Command, and a timer is requested per attempt, for
      timeoutSec seconds, exactly when timeoutSec > 0. */
  lemma ExecutionShape(cmd: seq<string>, timeoutSec: int, inputs: seq<Input>)
    ensures var t := Execution(cmd, timeoutSec, Init(), inputs);
      && OnlyLastMayFail(t.emitted)
      && CountNonOk(t.emitted) <= 1
      && (t.running ==> CountNonOk(t.emitted) == 0)
      && t.doneSent == (if t.running then 0 else 1)
      && |t.commands| == |t.emitted|
      && (forall i :: 0 <= i < |t.commands| ==> t.commands[i] == cmd)
      && |t.timers| == (if timeoutSec > 0 then |t.commands| else 0)
      && (forall i :: 0 <= i < |t.timers| ==> t.timers[i] == timeoutSec * Second)
      && (timeoutSec <= 0 ==> CountKind(t.emitted, TIMEOUT) == 0)
  {
    var t := Loop(cmd, timeoutSec, Init(), inputs);
    LoopConsistent(cmd, timeoutSec, Init(), inputs);
    OnlyLastMayFailCount(t.emitted);
    if t.running {
      AllOkCount(t.emitted);
    }
  }

  /** A stop request pending at the top of an iteration ends the loop with no
      Command call, no timer and no result; inputs before the next iteration
      only repeat the request. */
  lemma {:induction false} StopPendingEndsLoop(cmd: seq<string>, timeoutSec: int, s: JobState, inputs: seq<Input>)
    requires s.stopFlag
    ensures var t := Loop(cmd, timeoutSec, s, inputs);
      && t == s.(running := s.running && Iterations(inputs) == 0)
    decreases |inputs|
  {
    if inputs != [] && s.running {
      StopPendingEndsLoop(cmd, timeoutSec, Step(cmd, timeoutSec, s, inputs[0]), inputs[1..]);
    }
  }

  /** A stop requested while an attempt is in flight does not cut it short: the
      attempt's result is still sent, and no further attempt is made. */
  lemma StopDuringAttempt(cmd: seq<string>, timeoutSec: int, s: JobState, o: Outcome, rest: seq<Input>)
    requires s.running && !s.stopFlag
    ensures var t := Loop(cmd, timeoutSec, s, [Iteration(o), StopCalled] + rest);
      && t.emitted == s.emitted + [AttemptResult(timeoutSec, o)]
      && t.commands == s.commands + [cmd]
      && (t.running <==> AttemptResult(timeoutSec, o).result == OK && Iterations(rest) == 0)
  {
    var s1 := Step(cmd, timeoutSec, s, Iteration(o));
    var inputs := [Iteration(o), StopCalled] + rest;
    assert inputs[1..] == [StopCalled] + rest;
    assert ([StopCalled] + rest)[1..] == rest;
    if s1.running {
      var s2 := Step(cmd, timeoutSec, s1, StopCalled);
      StopPendingEndsLoop(cmd, timeoutSec, s2, rest);
    }
  }

  /** The attempt a real executor's completion leads to. */
  predicate CleanAttempt(o: Outcome, timeoutSec: int)
  {
    o.start.error.None? && !(TimerArmed(timeoutSec) && o.timerFirst) && o.completion == ExecWrapper.Wait(ExecWrapper.Nil)
  }

  /** As written, composing the live loop with Wait turns a process that exits
      normally into a FAIL with exit code -1 and ends the job. */
  lemma CleanExitEndsJob(cmd: seq<string>, timeoutSec: int, s: JobState, o: Outcome)
    requires s.running && !s.stopFlag && CleanAttempt(o, timeoutSec)
    ensures var t := Step(cmd, timeoutSec, s, Iteration(o));
      && t.emitted == s.emitted + [RunResult(FAIL, o.start.oupfile, -1, 0)]
      && !t.running
  {
  }

  /** Completions that come from Wait as written on real wait errors. */
  predicate FromWait(inputs: seq<Input>, errs: seq<ExecWrapper.WaitError>)
  {
    && |errs| == |inputs|
    && forall i :: 0 <= i < |inputs| && inputs[i].Iteration? ==>
         ExecWrapper.FromRealWait(errs[i]) && inputs[i].outcome.completion == ExecWrapper.Wait(errs[i])
  }

  /** With the real executor as written, a job never sends OK and so never makes
      a second attempt: the "run until it fails" loop runs once. */
  lemma {:induction false} RealExecutorRunsOnce(cmd: seq<string>, timeoutSec: int, s: JobState,
                                                inputs: seq<Input>, errs: seq<ExecWrapper.WaitError>)
    requires FromWait(inputs, errs)
    requires s.running && s.emitted == []
    ensures var t := Loop(cmd, timeoutSec, s, inputs);
      && |t.emitted| <= 1
      && CountKind(t.emitted, OK) == 0
    decreases |inputs|
  {
    if inputs != [] {
      var s1 := Step(cmd, timeoutSec, s, inputs[0]);
      assert FromWait(inputs[1..], errs[1..]) by {
        forall i | 0 <= i < |inputs[1..]| && inputs[1..][i].Iteration?
          ensures ExecWrapper.FromRealWait(errs[1..][i]) && inputs[1..][i].outcome.completion == ExecWrapper.Wait(errs[1..][i])
        {
          assert inputs[1..][i] == inputs[i + 1];
        }
      }
      if s1.running {
        RealExecutorRunsOnce(cmd, timeoutSec, s1, inputs[1..], errs[1..]);
      } else {
        if s1.emitted != [] {
          assert s1.emitted == [s1.emitted[0]] && s1.emitted[..0] == [];
        }
      }
    }
  }

  /** A command that always exits cleanly, seen through the corrected Wait, with
      no stop request and no timer firing first: every iteration sends OK and
      the job keeps running. */
  lemma {:induction false} CorrectedCleanExitsRepeat(cmd: seq<string>, timeoutSec: int, s: JobState, inputs: seq<Input>)
    requires s.running && !s.stopFlag
    requires forall i :: 0 <= i < |inputs| ==>
      && inputs[i].Iteration?
      && inputs[i].outcome.start.error.None?
      && !(TimerArmed(timeoutSec) && inputs[i].outcome.timerFirst)
      && inputs[i].outcome.completion == ExecWrapper.WaitCorrected(ExecWrapper.Nil)
    ensures var t := Loop(cmd, timeoutSec, s, inputs);
      && t.running
      && |t.emitted| == |s.emitted| + |inputs|
      && t.emitted[..|s.emitted|] == s.emitted
      && forall i :: |s.emitted| <= i < |t.emitted| ==> t.emitted[i].result == OK
    decreases |inputs|
  {
    if inputs != [] {
      var s1 := Step(cmd, timeoutSec, s, inputs[0]);
      assert s1.emitted == s.emitted + [RunResult(OK, inputs[0].outcome.start.oupfile, 0, 0)];
      CorrectedCleanExitsRepeat(cmd, timeoutSec, s1, inputs[1..]);
      var t := Loop(cmd, timeoutSec, s1, inputs[1..]);
      assert t.emitted[..|s1.emitted|][..|s.emitted|] == t.emitted[..|s.emitted|];
      assert t.emitted[|s.emitted|] == t.emitted[..|s1.emitted|][|s.emitted|];
    }
  }

  /** runnerJob, as the goroutine and its Stop method see it. */
  class RunnerJob {
    const cmd: seq<string>
    const timeoutSec: int
    var stopFlag: bool
    var running: bool
    var emitted: seq<RunResult>
    var commands: seq<seq<string>>
    var timers: seq<int>
    var waits: nat
    var doneSent: nat

    function State(): JobState
      reads this
    {
      JobState(stopFlag, running, emitted, commands, timers, waits, doneSent)
    }

    /** startRunner: the job with an empty stop channel, before its loop runs. */
    constructor Start(testeeCmd: seq<string>, testeeTimeoutSec: int)
      ensures cmd == testeeCmd && timeoutSec == testeeTimeoutSec
      ensures State() == Init()
    {
      cmd, timeoutSec := testeeCmd, testeeTimeoutSec;
      stopFlag, running := false, true;
      emitted, commands, timers := [], [], [];
      waits, doneSent := 0, 0;
    }

    /** Stop: leaves a stop request for the loop to see at its next check. */
    method Stop()
      modifies this
      ensures State() == old(State()).(stopFlag := true)
    {
      stopFlag := true;
    }

    /** One pass through the loop body after the stop check found nothing. */
    method RunAttempt(o: Outcome)
      requires running
      modifies this
      ensures State() == Attempt(cmd, timeoutSec, old(State()), o)
    {
      commands := commands + [cmd];
      if timeoutSec > 0 {
        timers := timers + [timeoutSec * Second];
      }
      var startRes := o.start;
      if startRes.error.Some? {
        emitted := emitted + [RunResult(FAILED_EXECUTING, startRes.oupfile, 0, 0)];
        running := false;
      } else if timeoutSec > 0 && o.timerFirst {
        emitted := emitted + [RunResult(TIMEOUT, startRes.oupfile, 0, startRes.pid)];
        waits := waits + 1;  // the completion is drained before leaving
        running := false;
      } else {
        var result := o.completion;
        waits := waits + 1;
        if result.exitCode == 0 && result.ioError.None? {
          emitted := emitted + [RunResult(OK, startRes.oupfile, 0, 0)];
        } else {
          emitted := emitted + [RunResult(FAIL, startRes.oupfile, result.exitCode, 0)];
          running := false;
        }
      }
    }

    /** run: the attempt loop driven by the environment's inputs, then done. */
    method Run(inputs: seq<Input>)
      modifies this
      ensures State() == Execution(cmd, timeoutSec, old(State()), inputs)
    {
      var i := 0;
      while i < |inputs| && running
        invariant 0 <= i <= |inputs|
        invariant Loop(cmd, timeoutSec, State(), inputs[i..]) == Loop(cmd, timeoutSec, old(State()), inputs)
        decreases |inputs| - i
      {
        assert inputs[i..][1..] == inputs[i + 1..];
        match inputs[i] {
          case StopCalled =>
            Stop();
          case Iteration(o) =>
            if stopFlag {
              running := false;  // break loop
            } else {
              RunAttempt(o);
            }
        }
        i := i + 1;
      }
      if !running {
        doneSent := doneSent + 1;
      }
    }
  }
}
