/** The older job loop, RunnerJob.run in runner.go (repeated in main.go, which
    is the copy the supervisor starts). It creates the sink itself, starts the
    process directly, and classifies by the Go type of the error that arrives
    on cmdDone: nil is OK, an *exec.ExitError is FAIL with the sink rewound,
    anything else (a start error or another wait error) is FAILED_EXECUTING. */
module LegacyRunner {
  import opened Types
  import ExecWrapper
  import Runner

  /** What the environment did in one iteration past the quit check: the sink
      ioutil.TempFile created (None when it failed, which is fatal), what
      exec.Cmd.Start did, whether the timer fired before cmdDone delivered
      (consulted only for a started process with a timer armed), and the error
      exec.Cmd.Wait returned. */
  datatype Outcome = Outcome(
    tmpfile: Option<SinkId>,
    start: ExecWrapper.ProcessStart,
    timerFirst: bool,
    waitErr: ExecWrapper.WaitError)

  /** The supervisor sending on the quit channel, or the loop reaching the top
      of an iteration. */
  datatype Input = QuitSent | Iteration(outcome: Outcome)

  /** A RunnerJob together with what it did to its collaborators. */
  datatype JobState = JobState(
    quitPending: bool,              // a value is waiting in the quit channel
    running: bool,                  // still inside the labelled loop
    aborted: bool,                  // log.Fatal ended the program
    emitted: seq<RunResult>,        // sent on results, in order
    sinks: seq<SinkId>,             // sinks created, one per attempt
    redirects: seq<(SinkId, SinkId)>, // the stdout and stderr set on each attempt's command
    commands: seq<seq<string>>,     // program and arguments given to exec.Command
    timers: seq<int>,               // durations of the timers created
    rewound: seq<SinkId>,           // sinks seeked back to offset 0
    received: nat,                  // values received from cmdDone
    doneSent: nat)                  // values sent on done

  function Init(): JobState
  {
    JobState(false, true, false, [], [], [], [], [], [], 0, 0)
  }

  /** The result sent for a process that started, when cmdDone delivers first. */
  function CompletionResult(sink: SinkId, waitErr: ExecWrapper.WaitError): (r: RunResult)
    ensures r.oupfile == sink && r.timeoutPid == 0
    ensures r.result == OK <==> waitErr.Nil?
    ensures r.result == FAIL <==> waitErr.ExitError?
    ensures r.result == FAILED_EXECUTING <==> waitErr.OtherError?
    ensures r.result == FAIL ==> r.exitCode == waitErr.code
    ensures r.result != FAIL ==> r.exitCode == 0
  {
    match waitErr
    case Nil => RunResult(OK, sink, 0, 0)
    case ExitError(code) => RunResult(FAIL, sink, code, 0)
    case OtherError(_) => RunResult(FAILED_EXECUTING, sink, 0, 0)
  }

  /** The result sent for one attempt whose sink was created. */
  function AttemptResult(timeoutSec: int, sink: SinkId, o: Outcome): (r: RunResult)
    ensures r.oupfile == sink
    ensures r.result == TIMEOUT <==> o.start.Started? && Runner.TimerArmed(timeoutSec) && o.timerFirst
    ensures r.result == TIMEOUT ==> r.timeoutPid == o.start.pid && r.exitCode == 0
    ensures o.start.StartFailed? ==> r.result == FAILED_EXECUTING
    ensures r.result == OK <==> o.start.Started? && !(Runner.TimerArmed(timeoutSec) && o.timerFirst) && o.waitErr.Nil?
    ensures o.start.Started? && !(Runner.TimerArmed(timeoutSec) && o.timerFirst) ==> r == CompletionResult(sink, o.waitErr)
    ensures o.start.StartFailed? ==> r.exitCode == 0 && r.timeoutPid == 0
  {
    match o.start
    case StartFailed(_) => RunResult(FAILED_EXECUTING, sink, 0, 0)
    case Started(pid) =>
      if Runner.TimerArmed(timeoutSec) && o.timerFirst then RunResult(TIMEOUT, sink, 0, pid)
      else CompletionResult(sink, o.waitErr)
  }

  /** One pass through the loop body after the quit check. A failed sink
      creation ends the program with nothing sent; otherwise exactly one result
      is sent, for a fresh sink that both output streams go to, and the loop
      goes on exactly when that result is OK. */
  function Attempt(cmd: seq<string>, timeoutSec: int, s: JobState, o: Outcome): (r: JobState)
    ensures o.tmpfile.None? ==> r.aborted && !r.running && r.emitted == s.emitted && r.sinks == s.sinks
    ensures o.tmpfile.Some? ==>
      && r.emitted == s.emitted + [AttemptResult(timeoutSec, o.tmpfile.value, o)]
      && r.sinks == s.sinks + [o.tmpfile.value]
      && r.redirects == s.redirects + [(o.tmpfile.value, o.tmpfile.value)]
      && (r.running <==> r.emitted[|s.emitted|].result == OK)
      && (r.rewound != s.rewound <==> r.emitted[|s.emitted|].result == FAIL)
    ensures r.doneSent == s.doneSent && r.quitPending == s.quitPending
  {
    if o.tmpfile.None? then s.(aborted := true, running := false)
    else
      var sink := o.tmpfile.value;
      var r := AttemptResult(timeoutSec, sink, o);
      s.(sinks := s.sinks + [sink],
         redirects := s.redirects + [(sink, sink)],
         commands := s.commands + [cmd],
         timers := if Runner.TimerArmed(timeoutSec) then s.timers + [timeoutSec * Runner.Second] else s.timers,
         emitted := s.emitted + [r],
         rewound := if r.result == FAIL then s.rewound + [sink] else s.rewound,
         received := s.received + 1,
         running := r.result == OK)
  }

  /** One input while the loop runs. A quit message only becomes pending, and
      with a quit pending nothing more is sent. */
  function Step(cmd: seq<string>, timeoutSec: int, s: JobState, input: Input): (r: JobState)
    ensures input.QuitSent? ==> r.quitPending && r.running == s.running && r.emitted == s.emitted
    ensures s.quitPending ==> r.emitted == s.emitted && r.sinks == s.sinks
    ensures |s.emitted| <= |r.emitted| <= |s.emitted| + 1 && r.emitted[..|s.emitted|] == s.emitted
    ensures r.doneSent == s.doneSent
  {
    match input
    case QuitSent => s.(quitPending := true)
    case Iteration(o) => if s.quitPending then s.(running := false) else Attempt(cmd, timeoutSec, s, o)
  }

  /** The labelled loop over the inputs the environment supplies. It only
      appends results, at most one per iteration, never sends done, and once
      left it stays left. */
  function Loop(cmd: seq<string>, timeoutSec: int, s: JobState, inputs: seq<Input>): (r: JobState)
    ensures !s.running ==> r == s
    ensures |s.emitted| <= |r.emitted| <= |s.emitted| + Iterations(inputs)
    ensures r.emitted[..|s.emitted|] == s.emitted
    ensures r.doneSent == s.doneSent
    decreases |inputs|
  {
    if inputs == [] || !s.running then s
    else Loop(cmd, timeoutSec, Step(cmd, timeoutSec, s, inputs[0]), inputs[1..])
  }

  /** run: the loop, then one value on done, unless log.Fatal ended the program. */
  function Execution(cmd: seq<string>, timeoutSec: int, s: JobState, inputs: seq<Input>): (r: JobState)
    ensures r.doneSent == s.doneSent + (if r.running || r.aborted then 0 else 1)
    ensures |s.emitted| <= |r.emitted| && r.emitted[..|s.emitted|] == s.emitted
  {
    var t := Loop(cmd, timeoutSec, s, inputs);
    if t.running || t.aborted then t else t.(doneSent := t.doneSent + 1)
  }

  predicate Consistent(cmd: seq<string>, timeoutSec: int, s: JobState)
  {
    && OnlyLastMayFail(s.emitted)
    && ((s.running || s.aborted) ==> forall i :: 0 <= i < |s.emitted| ==> s.emitted[i].result == OK)
    && (s.running ==> !s.aborted)
    && |s.sinks| == |s.emitted| == |s.commands| == |s.redirects| == s.received
    && (forall i :: 0 <= i < |s.redirects| ==> s.redirects[i] == (s.sinks[i], s.sinks[i]))
    && (forall i :: 0 <= i < |s.emitted| ==> s.emitted[i].oupfile == s.sinks[i])
    && (forall i :: 0 <= i < |s.commands| ==> s.commands[i] == cmd)
    && |s.timers| == (if Runner.TimerArmed(timeoutSec) then |s.emitted| else 0)
    && (forall i :: 0 <= i < |s.timers| ==> s.timers[i] == timeoutSec * Runner.Second)
    && s.rewound == (if s.emitted != [] && s.emitted[|s.emitted| - 1].result == FAIL
                     then [s.emitted[|s.emitted| - 1].oupfile] else [])
  }

  lemma StepConsistent(cmd: seq<string>, timeoutSec: int, s: JobState, input: Input)
    requires s.running && Consistent(cmd, timeoutSec, s)
    ensures Consistent(cmd, timeoutSec, Step(cmd, timeoutSec, s, input))
  {
    if input.Iteration? && !s.quitPending {
      AttemptConsistent(cmd, timeoutSec, s, input.outcome);
    }
  }

  lemma AttemptConsistent(cmd: seq<string>, timeoutSec: int, s: JobState, o: Outcome)
    requires s.running && Consistent(cmd, timeoutSec, s)
    ensures Consistent(cmd, timeoutSec, Attempt(cmd, timeoutSec, s, o))
  {
    if o.tmpfile.Some? {
      var sink := o.tmpfile.value;
      var r := AttemptResult(timeoutSec, sink, o);
      var t := Attempt(cmd, timeoutSec, s, o);
      assert t.emitted == s.emitted + [r];
      assert t.sinks == s.sinks + [sink];
      assert t.commands == s.commands + [cmd];
      assert t.emitted[..|t.emitted| - 1] == s.emitted;
      assert t.emitted[|t.emitted| - 1] == r;
      assert t.running == (r.result == OK) && !t.aborted;
    }
  }

  lemma {:induction false} LoopConsistent(cmd: seq<string>, timeoutSec: int, s: JobState, inputs: seq<Input>)
    requires Consistent(cmd, timeoutSec, s)
    ensures Consistent(cmd, timeoutSec, Loop(cmd, timeoutSec, s, inputs))
    decreases |inputs|
  {
    if inputs != [] && s.running {
      StepConsistent(cmd, timeoutSec, s, inputs[0]);
      LoopConsistent(cmd, timeoutSec, Step(cmd, timeoutSec, s, inputs[0]), inputs[1..]);
    }
  }

  /** A whole run from the start: every result but the last is OK and at most
      one is not; each attempt has a sink, which both output streams go to and
      which its result carries; the sink is rewound exactly when the
      last result is FAIL; a completion is received for every attempt (drained
      after a TIMEOUT); a timer of timeoutSec seconds is created per attempt
      exactly when timeoutSec > 0; done is sent once after the loop, and never
      when the program was ended by a failed sink creation. */
  lemma ExecutionShape(cmd: seq<string>, timeoutSec: int, inputs: seq<Input>)
    ensures var t := Execution(cmd, timeoutSec, Init(), inputs);
      && OnlyLastMayFail(t.emitted)
      && CountNonOk(t.emitted) <= 1
      && ((t.running || t.aborted) ==> CountNonOk(t.emitted) == 0)
      && t.doneSent == (if t.running || t.aborted then 0 else 1)
      && |t.sinks| == |t.emitted| == |t.commands| == |t.redirects| == t.received
      && (forall i :: 0 <= i < |t.redirects| ==> t.redirects[i] == (t.sinks[i], t.sinks[i]))
      && (forall i :: 0 <= i < |t.emitted| ==> t.emitted[i].oupfile == t.sinks[i])
      && (forall i :: 0 <= i < |t.commands| ==> t.commands[i] == cmd)
      && |t.timers| == (if timeoutSec > 0 then |t.emitted| else 0)
      && (forall i :: 0 <= i < |t.timers| ==> t.timers[i] == timeoutSec * Runner.Second)
      && (|t.rewound| == 1 <==> t.emitted != [] && t.emitted[|t.emitted| - 1].result == FAIL)
      && |t.rewound| <= 1
  {
    var t := Loop(cmd, timeoutSec, Init(), inputs);
    LoopConsistent(cmd, timeoutSec, Init(), inputs);
    OnlyLastMayFailCount(t.emitted);
    if t.running || t.aborted {
      AllOkCount(t.emitted);
    }
  }

  /** A quit message pending at the top of an iteration ends the loop before a
      sink is created or a command built. */
  lemma {:induction false} QuitPendingEndsLoop(cmd: seq<string>, timeoutSec: int, s: JobState, inputs: seq<Input>)
    requires s.quitPending
    ensures Loop(cmd, timeoutSec, s, inputs) == s.(running := s.running && Iterations(inputs) == 0)
    decreases |inputs|
  {
    if inputs != [] && s.running {
      QuitPendingEndsLoop(cmd, timeoutSec, Step(cmd, timeoutSec, s, inputs[0]), inputs[1..]);
    }
  }

  /** Number of Iteration inputs. */
  function Iterations(inputs: seq<Input>): nat
  {
    if inputs == [] then 0 else Iterations(inputs[1..]) + (if inputs[0].Iteration? then 1 else 0)
  }

  /** No two elements are equal. */
  predicate Distinct(xs: seq<SinkId>)
  {
    forall i, j :: 0 <= i < j < |xs| ==> xs[i] != xs[j]
  }

  /** The file an input's sink creation produced, if it got that far. */
  predicate CreatesFile(input: Input)
  {
    input.Iteration? && input.outcome.tmpfile.Some?
  }

  /** ioutil.TempFile never hands back a file that exists already: every file
      created is new to the sinks so far and to the other creations. */
  predicate FreshFiles(sinks: seq<SinkId>, inputs: seq<Input>)
  {
    && (forall i :: 0 <= i < |inputs| && CreatesFile(inputs[i]) ==> inputs[i].outcome.tmpfile.value !in sinks)
    && (forall i, j :: 0 <= i < j < |inputs| && CreatesFile(inputs[i]) && CreatesFile(inputs[j]) ==>
          inputs[i].outcome.tmpfile.value != inputs[j].outcome.tmpfile.value)
  }

  /** When every file created is fresh, each attempt owns its sink: the sinks,
      and so the files the results carry, are pairwise distinct. */
  lemma {:induction false} FreshFilesDistinctSinks(cmd: seq<string>, timeoutSec: int, s: JobState, inputs: seq<Input>)
    requires Distinct(s.sinks) && FreshFiles(s.sinks, inputs)
    ensures Distinct(Loop(cmd, timeoutSec, s, inputs).sinks)
    decreases |inputs|
  {
    if inputs != [] && s.running {
      var s1 := Step(cmd, timeoutSec, s, inputs[0]);
      var rest := inputs[1..];
      assert forall i :: 0 <= i < |rest| ==> rest[i] == inputs[i + 1];
      if s1.sinks != s.sinks {
        var x := inputs[0].outcome.tmpfile.value;
        assert CreatesFile(inputs[0]) && s1.sinks == s.sinks + [x];
        assert x !in s.sinks;
        assert forall i :: 0 <= i < |rest| && CreatesFile(rest[i]) ==> rest[i].outcome.tmpfile.value != x;
      }
      FreshFilesDistinctSinks(cmd, timeoutSec, s1, rest);
    }
  }

  /** The two classifiers on a started process whose completion arrives first.
      Through Wait as written they agree only on an *exec.ExitError: a nil
      error is OK for the older loop and FAIL(-1) for the live one, and any
      other error is FAILED_EXECUTING for the older loop and FAIL(-1) for the
      live one. */
  lemma ClassifiersContrast(sink: SinkId, pid: int, e: ExecWrapper.WaitError)
    requires ExecWrapper.FromRealWait(e)
    ensures var older := CompletionResult(sink, e);
      var live := Runner.AttemptResult(0, Runner.Outcome(ExecWrapper.StartResult(None, pid, sink), false, ExecWrapper.Wait(e)));
      && live.result == FAIL
      && (older == live <==> e.ExitError?)
      && (e.Nil? ==> older.result == OK && live.exitCode == -1)
      && (e.OtherError? ==> older.result == FAILED_EXECUTING && live.exitCode == -1)
  {
  }

  /** Through the corrected Wait the two classifiers differ only on a wait error
      that is not an *exec.ExitError: FAILED_EXECUTING in the older loop, FAIL
      with exit code -1 (an I/O failure) in the live one. */
  lemma CorrectedClassifiersContrast(sink: SinkId, pid: int, e: ExecWrapper.WaitError)
    requires ExecWrapper.FromRealWait(e)
    ensures var older := CompletionResult(sink, e);
      var live := Runner.AttemptResult(0, Runner.Outcome(ExecWrapper.StartResult(None, pid, sink), false, ExecWrapper.WaitCorrected(e)));
      && (older == live <==> !e.OtherError?)
      && (older.result == OK <==> live.result == OK)
  {
  }

  /** RunnerJob with its quit channel, as the goroutine sees it. */
  class LegacyJob {
    const cmd: seq<string>
    const timeoutSec: int
    var quitPending: bool
    var running: bool
    var aborted: bool
    var emitted: seq<RunResult>
    var sinks: seq<SinkId>
    var redirects: seq<(SinkId, SinkId)>
    var commands: seq<seq<string>>
    var timers: seq<int>
    var rewound: seq<SinkId>
    var received: nat
    var doneSent: nat

    function State(): JobState
      reads this
    {
      JobState(quitPending, running, aborted, emitted, sinks, redirects, commands, timers, rewound, received, doneSent)
    }

    constructor (subject: seq<string>, jobTimeoutSec: int)
      ensures cmd == subject && timeoutSec == jobTimeoutSec
      ensures State() == Init()
    {
      cmd, timeoutSec := subject, jobTimeoutSec;
      quitPending, running, aborted := false, true, false;
      emitted, sinks, redirects, commands, timers, rewound := [], [], [], [], [], [];
      received, doneSent := 0, 0;
    }

    /** A value arriving on the quit channel. */
    method Quit()
      modifies this
      ensures State() == old(State()).(quitPending := true)
    {
      quitPending := true;
    }

    /** One pass through the loop body after the quit check found nothing. */
    method RunAttempt(o: Outcome)
      requires |cmd| > 0
      modifies this
      ensures State() == Attempt(cmd, timeoutSec, old(State()), o)
    {
      if o.tmpfile.None? {
        aborted, running := true, false;  // log.Fatal
        return;
      }
      var oupfile := o.tmpfile.value;
      sinks := sinks + [oupfile];
      assert [cmd[0]] + cmd[1..] == cmd;
      commands := commands + [[cmd[0]] + cmd[1..]];
      var stdout, stderr := oupfile, oupfile;
      redirects := redirects + [(stdout, stderr)];
      if timeoutSec > 0 {
        timers := timers + [timeoutSec * Runner.Second];
      }
      received := received + 1;
      AwaitCompletion(oupfile, o);
    }

    /** The select on the timer and cmdDone, and the result it sends. */
    method AwaitCompletion(oupfile: SinkId, o: Outcome)
      modifies this
      ensures var r := AttemptResult(timeoutSec, oupfile, o);
        State() == old(State()).(emitted := old(emitted) + [r],
                                 rewound := if r.result == FAIL then old(rewound) + [oupfile] else old(rewound),
                                 running := r.result == OK)
    {
      match o.start {
        case StartFailed(_) =>
          emitted := emitted + [RunResult(FAILED_EXECUTING, oupfile, 0, 0)];
          running := false;
        case Started(pid) =>
          if timeoutSec > 0 && o.timerFirst {
            emitted := emitted + [RunResult(TIMEOUT, oupfile, 0, pid)];
            running := false;
          } else if o.waitErr.Nil? {
            emitted := emitted + [RunResult(OK, oupfile, 0, 0)];
            running := true;
          } else if o.waitErr.ExitError? {
            rewound := rewound + [oupfile];
            emitted := emitted + [RunResult(FAIL, oupfile, o.waitErr.code, 0)];
            running := false;
          } else {
            emitted := emitted + [RunResult(FAILED_EXECUTING, oupfile, 0, 0)];
            running := false;
          }
      }
    }

    /** run: the attempt loop driven by the environment's inputs, then done. */
    method Run(inputs: seq<Input>)
      requires |cmd| > 0
      modifies this
      ensures State() == Execution(cmd, timeoutSec, old(State()), inputs)
    {
      var i := 0;
      while i < |inputs| && running
        invariant 0 <= i <= |inputs|
        invariant Loop(cmd, timeoutSec, State(), inputs[i..]) == Loop(cmd, timeoutSec, old(State()), inputs)
        decreases |inputs| - i
      {
        assert inputs[i..][1..] == inputs[i + 1..];
        match inputs[i] {
          case QuitSent =>
            Quit();
          case Iteration(o) =>
            if quitPending {
              running := false;  // break loop
            } else {
              RunAttempt(o);
            }
        }
        i := i + 1;
      }
      if !running && !aborted {
        doneSent := doneSent + 1;
      }
    }
  }
}
