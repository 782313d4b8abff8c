/** The event loop of main.go: it waits on the jobs' done notifications, their
    results and the interrupt signal, one event at a time; it keeps the
    single-shot quitting latch behind quitAll, the failure and finished-job
    counters, removes the output files of every result but TIMEOUT, and writes
    its reports to the terminal. Files are ids, os.Remove is recorded in
    removed, the sends on each job's quit channel are counted in stopsSent and
    the terminal is a list of lines. */
module Supervisor {
  import opened Types

  /** What the select in the event loop received. */
  datatype Event = Done | Run(run: RunResult) | Sigint

  /** The lines the event loop writes, by kind. */
  datatype Line =
    | FailedToExecute                           // "Failed to execute command!"
    | QuittingAllJobs                           // "Quitting all jobs."
    | FailureBegin(index: int, exitCode: int)   // ">> Failure #index encountered! Exit code: exitCode. Output:"
    | Output(sink: SinkId)                      // the captured content of the sink
    | FailureEnd(index: int, exitCode: int)     // "<< (#index output end, exit code exitCode)"
    | TimeoutNotice(pid: int, sink: SinkId)     // "Timeout encountered! PID is pid, ... output file 'sink'"
    | WillNotDelete                             // "The output file will not be deleted automatically."
    | CtrlC                                     // ">> Ctrl-C signal, quitting all jobs."

  datatype SupState = SupState(
    quitting: bool,          // the latch quitAll sets
    stopsSent: seq<nat>,     // values sent on each job's quit channel
    nFailed: nat,
    jobsDone: nat,
    removed: seq<SinkId>,    // files passed to os.Remove, in order
    out: seq<Line>)

  /** The state once njobs jobs are started, each with its own quit channel. */
  function Init(njobs: nat): (s: SupState)
    ensures |s.stopsSent| == njobs
    ensures forall j :: 0 <= j < njobs ==> s.stopsSent[j] == 0
  {
    SupState(false, seq(njobs, _ => 0), 0, 0, [], [])
  }

  /** quitAll: on its first call only, one stop message on every quit channel. */
  function QuitAllOutcome(s: SupState): (r: (SupState, bool))
    ensures r.1 <==> !s.quitting
    ensures r.0.quitting
    ensures s.quitting ==> r.0 == s
    ensures r.0.(stopsSent := s.stopsSent) == s.(quitting := true)
    ensures |r.0.stopsSent| == |s.stopsSent|
    ensures forall j :: 0 <= j < |s.stopsSent| ==>
      r.0.stopsSent[j] == s.stopsSent[j] + (if r.1 then 1 else 0)
  {
    if s.quitting then (s, false)
    else (s.(quitting := true,
             stopsSent := seq(|s.stopsSent|, j requires 0 <= j < |s.stopsSent| => s.stopsSent[j] + 1)),
          true)
  }

  /** "Quitting all jobs." when this event's quitAll fired and there are several jobs. */
  function Notice(fired: bool, njobs: int): seq<Line>
  {
    if fired && njobs > 1 then [QuittingAllJobs] else []
  }

  /** The lines one event writes; n is nFailed after the event, fired what its
      quitAll call returned. */
  function EventLines(njobs: int, n: int, fired: bool, e: Event): (lines: seq<Line>)
    ensures lines == [] <==> e.Done? || (e.Run? && e.run.result == OK)
  {
    match e
    case Done => []
    case Sigint => [CtrlC]
    case Run(run) =>
      match run.result
      case FAILED_EXECUTING => [FailedToExecute] + Notice(fired, njobs)
      case OK => []
      case FAIL => [FailureBegin(n, run.exitCode)] + [Output(run.oupfile), FailureEnd(n, run.exitCode)] + Notice(fired, njobs)
      case TIMEOUT => [TimeoutNotice(run.timeoutPid, run.oupfile), WillNotDelete] + Notice(fired, njobs)
  }

  /** One event of the select. Every kind but OK calls quitAll; FAIL counts a
      failure; done counts a finished job; every kind of result but TIMEOUT
      has its file removed. */
  function Handle(njobs: int, s: SupState, e: Event): (t: SupState)
    ensures t.quitting == (s.quitting || IsTrigger(e))
    ensures t.nFailed == s.nFailed + (if e.Run? && e.run.result == FAIL then 1 else 0)
    ensures t.jobsDone == s.jobsDone + (if e.Done? then 1 else 0)
    ensures t.removed == s.removed + Removal(e)
  {
    var (s1, fired) := if IsTrigger(e) then QuitAllOutcome(s) else (s, false);
    var n := if e.Run? && e.run.result == FAIL then s.nFailed + 1 else s.nFailed;
    s1.(nFailed := n,
        jobsDone := if e.Done? then s.jobsDone + 1 else s.jobsDone,
        removed := s.removed + Removal(e),
        out := s.out + EventLines(njobs, n, fired, e))
  }

  /** Every event of the list, in order. */
  function HandleAll(njobs: int, s: SupState, events: seq<Event>): SupState
    decreases |events|
  {
    if events == [] then s else HandleAll(njobs, Handle(njobs, s, events[0]), events[1..])
  }

  /** The event loop: it handles events while jobsDone < njobs. It does nothing
      once every job is done, never lets jobsDone pass njobs, and if it ends
      short of njobs it has handled every event. */
  function EventLoop(njobs: int, s: SupState, events: seq<Event>): (t: SupState)
    ensures s.jobsDone >= njobs ==> t == s
    ensures s.jobsDone <= njobs ==> t.jobsDone <= njobs
    ensures t.jobsDone < njobs ==> t == HandleAll(njobs, s, events)
    decreases |events|
  {
    if events == [] || s.jobsDone >= njobs then s
    else EventLoop(njobs, Handle(njobs, s, events[0]), events[1..])
  }

  /** How many events the event loop takes before it exits or the list ends. */
  function Consumed(njobs: int, s: SupState, events: seq<Event>): (k: nat)
    ensures k <= |events|
    decreases |events|
  {
    if events == [] || s.jobsDone >= njobs then 0
    else 1 + Consumed(njobs, Handle(njobs, s, events[0]), events[1..])
  }

  /** Events that make quitAll fire if it has not yet. */
  predicate IsTrigger(e: Event)
  {
    e.Sigint? || (e.Run? && e.run.result != OK)
  }

  function DoneEvents(events: seq<Event>): nat
  {
    if events == [] then 0 else (if events[0].Done? then 1 else 0) + DoneEvents(events[1..])
  }

  function FailRuns(events: seq<Event>): nat
  {
    if events == [] then 0
    else (if events[0].Run? && events[0].run.result == FAIL then 1 else 0) + FailRuns(events[1..])
  }

  /** The file one event has removed: that of a result of any kind but TIMEOUT. */
  function Removal(e: Event): seq<SinkId>
  {
    if e.Run? && e.run.result != TIMEOUT then [e.run.oupfile] else []
  }

  /** The files a list of events has removed, in order. */
  function Disposable(events: seq<Event>): seq<SinkId>
  {
    if events == [] then [] else Removal(events[0]) + Disposable(events[1..])
  }

  /** The failure reports among the lines carry indices between 1 and n,
      strictly increasing in the order they were written. */
  predicate NumberedLines(out: seq<Line>, n: int)
  {
    && (forall i :: 0 <= i < |out| && out[i].FailureBegin? ==> 1 <= out[i].index <= n)
    && (forall i, j :: 0 <= i < j < |out| && out[i].FailureBegin? && out[j].FailureBegin? ==>
          out[i].index < out[j].index)
  }

  predicate Numbered(s: SupState)
  {
    NumberedLines(s.out, s.nFailed)
  }

  /** "Quitting all jobs." occurs at most once among the lines. */
  predicate AtMostOneNotice(out: seq<Line>)
  {
    forall i, j :: 0 <= i < j < |out| && out[i] == QuittingAllJobs ==> out[j] != QuittingAllJobs
  }

  /** The latch and what it guards: every quit channel has received one stop
      message once quitting is set and none before, and "Quitting all jobs."
      has been written at most once, only after the latch was set, and never
      with a single job. */
  predicate Latched(njobs: int, s: SupState)
  {
    && |s.stopsSent| == (if njobs < 0 then 0 else njobs)
    && (forall j :: 0 <= j < |s.stopsSent| ==> s.stopsSent[j] == (if s.quitting then 1 else 0))
    && (QuittingAllJobs in s.out ==> s.quitting && njobs > 1)
    && AtMostOneNotice(s.out)
  }

  /** Appending lines whose only failure report comes first and carries a
      fresh, larger index keeps the numbering. */
  lemma AppendNumbered(out: seq<Line>, lines: seq<Line>, n: int, n': int)
    requires NumberedLines(out, n) && 0 <= n <= n'
    requires forall i :: 0 <= i < |lines| && lines[i].FailureBegin? ==> i == 0 && lines[i].index == n' && n < n'
    ensures NumberedLines(out + lines, n')
  {
    var all := out + lines;
    forall i, j | 0 <= i < j < |all| && all[i].FailureBegin? && all[j].FailureBegin?
      ensures all[i].index < all[j].index
    {
      if j >= |out| {
        assert all[j] == lines[j - |out|];
        if i < |out| {
          assert all[i] == out[i];
        }
      }
    }
  }

  /** Appending lines with the notice at most at their end, and none at all if
      it was already written, keeps it single. */
  lemma AppendNotice(out: seq<Line>, lines: seq<Line>)
    requires AtMostOneNotice(out)
    requires forall i :: 0 <= i < |lines| - 1 ==> lines[i] != QuittingAllJobs
    requires QuittingAllJobs in out ==> QuittingAllJobs !in lines
    ensures AtMostOneNotice(out + lines)
  {
    var all := out + lines;
    forall i, j | 0 <= i < j < |all| && all[i] == QuittingAllJobs
      ensures all[j] != QuittingAllJobs
    {
      if j >= |out| && i < |out| {
        assert all[i] in out;
        assert all[j] == lines[j - |out|];
      }
    }
  }

  /** What one event writes: only a FAIL result writes a failure report, one,
      with the new nFailed as its index and the same exit code at its begin and
      end around the captured output; "Quitting all jobs." is written exactly
      when a result that is not OK made quitAll fire and there are several jobs. */
  lemma EventLinesShape(njobs: int, n: int, fired: bool, e: Event)
    ensures var lines := EventLines(njobs, n, fired, e);
      && (forall i :: 0 <= i < |lines| && lines[i].FailureBegin? ==> i == 0 && e.Run? && e.run.result == FAIL && lines[i].index == n)
      && (e.Run? && e.run.result == FAIL ==>
            lines[..3] == [FailureBegin(n, e.run.exitCode), Output(e.run.oupfile), FailureEnd(n, e.run.exitCode)])
      && (QuittingAllJobs in lines <==> fired && njobs > 1 && e.Run? && e.run.result != OK)
      && (forall i :: 0 <= i < |lines| - 1 ==> lines[i] != QuittingAllJobs)
  {
  }

  lemma HandleKeepsLatched(njobs: int, s: SupState, e: Event)
    requires Latched(njobs, s) && Numbered(s)
    ensures Latched(njobs, Handle(njobs, s, e)) && Numbered(Handle(njobs, s, e))
  {
    var fired := IsTrigger(e) && !s.quitting;
    var n := if e.Run? && e.run.result == FAIL then s.nFailed + 1 else s.nFailed;
    var lines := EventLines(njobs, n, fired, e);
    var t := Handle(njobs, s, e);
    assert t.out == s.out + lines;
    assert t.nFailed == n;
    EventLinesShape(njobs, n, fired, e);
    AppendNumbered(s.out, lines, s.nFailed, n);
    AppendNotice(s.out, lines);
  }

  /** After any list of events from the start: quitAll has sent exactly one stop
      message to every job once some failure, timeout or interrupt arrived and
      none before; "Quitting all jobs." appears at most once and never with one
      job; nFailed counts the FAIL results only; jobsDone counts the done
      notifications only; the files removed are those of the non-TIMEOUT
      results, in order; and the failure reports are numbered 1 to nFailed. */
  lemma {:induction false} HandleAllFromInit(njobs: nat, events: seq<Event>)
    ensures var t := HandleAll(njobs, Init(njobs), events);
      && Latched(njobs, t)
      && (t.quitting <==> exists i :: 0 <= i < |events| && IsTrigger(events[i]))
      && t.nFailed == FailRuns(events)
      && t.jobsDone == DoneEvents(events)
      && t.removed == Disposable(events)
      && Numbered(t)
  {
    HandleAllKeepsLatched(njobs, Init(njobs), events);
    HandleAllCounts(njobs, Init(njobs), events);
    HandleAllQuitting(njobs, Init(njobs), events);
    HandleAllRemoved(njobs, Init(njobs), events);
  }

  lemma {:induction false} HandleAllKeepsLatched(njobs: nat, s: SupState, events: seq<Event>)
    requires Latched(njobs, s) && Numbered(s)
    ensures Latched(njobs, HandleAll(njobs, s, events)) && Numbered(HandleAll(njobs, s, events))
    decreases |events|
  {
    if events != [] {
      HandleKeepsLatched(njobs, s, events[0]);
      HandleAllKeepsLatched(njobs, Handle(njobs, s, events[0]), events[1..]);
    }
  }

  lemma {:induction false} HandleAllCounts(njobs: int, s: SupState, events: seq<Event>)
    ensures var t := HandleAll(njobs, s, events);
      && t.nFailed == s.nFailed + FailRuns(events)
      && t.jobsDone == s.jobsDone + DoneEvents(events)
    decreases |events|
  {
    if events != [] {
      HandleAllCounts(njobs, Handle(njobs, s, events[0]), events[1..]);
    }
  }

  lemma {:induction false} HandleAllRemoved(njobs: int, s: SupState, events: seq<Event>)
    ensures HandleAll(njobs, s, events).removed == s.removed + Disposable(events)
    decreases |events|
  {
    if events == [] {
      assert s.removed + [] == s.removed;
    } else {
      var s1 := Handle(njobs, s, events[0]);
      assert HandleAll(njobs, s, events) == HandleAll(njobs, s1, events[1..]);
      assert s1.removed == s.removed + Removal(events[0]);
      HandleAllRemoved(njobs, s1, events[1..]);
      assert s.removed + Removal(events[0]) + Disposable(events[1..])
          == s.removed + (Removal(events[0]) + Disposable(events[1..]));
    }
  }

  lemma {:induction false} HandleAllQuitting(njobs: int, s: SupState, events: seq<Event>)
    ensures HandleAll(njobs, s, events).quitting <==> s.quitting || exists i :: 0 <= i < |events| && IsTrigger(events[i])
    decreases |events|
  {
    if events != [] {
      var s1 := Handle(njobs, s, events[0]);
      HandleAllQuitting(njobs, s1, events[1..]);
      if exists i :: 0 <= i < |events| && IsTrigger(events[i]) {
        var i :| 0 <= i < |events| && IsTrigger(events[i]);
        if i > 0 {
          assert IsTrigger(events[1..][i - 1]);
        }
      }
      if exists i :: 0 <= i < |events[1..]| && IsTrigger(events[1..][i]) {
        var i :| 0 <= i < |events[1..]| && IsTrigger(events[1..][i]);
        assert IsTrigger(events[i + 1]);
      }
    }
  }

  /** A file is disposed of exactly when some non-TIMEOUT result carries it. */
  lemma {:induction false} DisposableMembers(events: seq<Event>, x: SinkId)
    ensures x in Disposable(events) <==>
      exists i :: 0 <= i < |events| && events[i].Run? && events[i].run.result != TIMEOUT && events[i].run.oupfile == x
    decreases |events|
  {
    if events != [] {
      DisposableMembers(events[1..], x);
      assert forall i :: 0 <= i < |events[1..]| ==> events[1..][i] == events[i + 1];
      if exists i :: 0 <= i < |events| && events[i].Run? && events[i].run.result != TIMEOUT && events[i].run.oupfile == x {
        var i :| 0 <= i < |events| && events[i].Run? && events[i].run.result != TIMEOUT && events[i].run.oupfile == x;
        if i > 0 {
          assert events[1..][i - 1] == events[i];
        }
      }
    }
  }

  /** A TIMEOUT result's file is never removed, as long as no other result
      carries the same file (each attempt has a sink of its own). */
  lemma TimeoutFileKept(njobs: nat, events: seq<Event>, k: nat)
    requires k < |events| && events[k].Run? && events[k].run.result == TIMEOUT
    requires forall i :: 0 <= i < |events| && i != k && events[i].Run? ==> events[i].run.oupfile != events[k].run.oupfile
    ensures events[k].run.oupfile !in EventLoop(njobs, Init(njobs), events).removed
  {
    var c := Consumed(njobs, Init(njobs), events);
    var handled := events[..c];
    EventLoopExit(njobs, Init(njobs), events);
    HandleAllFromInit(njobs, handled);
    DisposableMembers(handled, events[k].run.oupfile);
    assert forall i :: 0 <= i < |handled| ==> handled[i] == events[i];
  }

  /** The file of every OK, FAIL or FAILED_EXECUTING result the loop takes from
      the select is removed. */
  lemma DisposedFileRemoved(njobs: nat, events: seq<Event>, k: nat)
    requires k < Consumed(njobs, Init(njobs), events)
    requires events[k].Run? && events[k].run.result != TIMEOUT
    ensures events[k].run.oupfile in EventLoop(njobs, Init(njobs), events).removed
  {
    var c := Consumed(njobs, Init(njobs), events);
    var handled := events[..c];
    EventLoopExit(njobs, Init(njobs), events);
    HandleAllFromInit(njobs, handled);
    assert handled[k] == events[k];
    DisposableMembers(handled, events[k].run.oupfile);
  }

  /** The loop leaves as soon as the last job reports done, so whatever the
      select would have delivered next, a result still buffered included, is
      never handled: not reported, not counted, its file not removed. */
  lemma LastDoneEndsLoop(njobs: int, s: SupState, rest: seq<Event>)
    requires s.jobsDone + 1 == njobs
    ensures EventLoop(njobs, s, [Done] + rest) == s.(jobsDone := njobs)
  {
    assert ([Done] + rest)[1..] == rest;
  }

  /** OK never makes quitAll fire; FAILED_EXECUTING, FAIL, TIMEOUT and the
      interrupt each do when the latch is still open, and then the notice is
      written exactly when there are several jobs and the event is a result. */
  lemma QuitAllTriggers(njobs: int, s: SupState, e: Event)
    ensures var t := Handle(njobs, s, e);
      && (!IsTrigger(e) ==> t.quitting == s.quitting && t.stopsSent == s.stopsSent)
      && (IsTrigger(e) ==> t.quitting)
      && |s.out| <= |t.out|
      && (QuittingAllJobs in t.out[|s.out|..] <==> !s.quitting && njobs > 1 && e.Run? && e.run.result != OK)
  {
    var fired := IsTrigger(e) && !s.quitting;
    var n := if e.Run? && e.run.result == FAIL then s.nFailed + 1 else s.nFailed;
    EventLinesShape(njobs, n, fired, e);
    assert Handle(njobs, s, e).out[|s.out|..] == EventLines(njobs, n, fired, e);
  }

  /** The event loop handles exactly the events before the one after which
      jobsDone reaches njobs: it stops right there, never earlier, and never
      lets jobsDone pass njobs. */
  lemma {:induction false} EventLoopExit(njobs: int, s: SupState, events: seq<Event>)
    requires s.jobsDone <= njobs
    ensures var k := Consumed(njobs, s, events);
      var t := EventLoop(njobs, s, events);
      && t == HandleAll(njobs, s, events[..k])
      && t.jobsDone <= njobs
      && (k < |events| ==> t.jobsDone == njobs)
      && (forall j :: 0 <= j < k ==> HandleAll(njobs, s, events[..j]).jobsDone < njobs)
    decreases |events|
  {
    var k := Consumed(njobs, s, events);
    if events == [] || s.jobsDone >= njobs {
      assert events[..0] == [];
    } else {
      var s1 := Handle(njobs, s, events[0]);
      EventLoopExit(njobs, s1, events[1..]);
      assert events[..k][0] == events[0];
      assert events[..k][1..] == events[1..][..k - 1];
      forall j | 0 <= j < k
        ensures HandleAll(njobs, s, events[..j]).jobsDone < njobs
      {
        if j > 0 {
          assert events[..j][0] == events[0];
          assert events[..j][1..] == events[1..][..j - 1];
        } else {
          assert events[..j] == [];
        }
      }
    }
  }

  /** The supervisor as main sets it up and runs it. */
  class Supervisor {
    const njobs: int
    var quitting: bool
    var stopsSent: seq<nat>
    var nFailed: nat
    var jobsDone: nat
    var removed: seq<SinkId>
    var out: seq<Line>

    function State(): SupState
      reads this
    {
      SupState(quitting, stopsSent, nFailed, jobsDone, removed, out)
    }

    /** Creates one quit channel per job; at least one job is required. */
    constructor (jobs: int)
      requires jobs >= 1
      ensures njobs == jobs
      ensures State() == Init(jobs)
    {
      njobs := jobs;
      var chans: seq<nat> := [];
      for i := 0 to jobs
        invariant |chans| == i
        invariant forall j :: 0 <= j < i ==> chans[j] == 0
      {
        chans := chans + [0];
      }
      quitting, stopsSent := false, chans;
      nFailed, jobsDone := 0, 0;
      removed, out := [], [];
    }

    /** The quitAll closure. */
    method QuitAll() returns (fired: bool)
      modifies this
      ensures (State(), fired) == QuitAllOutcome(old(State()))
    {
      if quitting {
        return false;
      }
      quitting := true;
      for j := 0 to |stopsSent|
        invariant State().(stopsSent := old(stopsSent)) == old(State()).(quitting := true)
        invariant |stopsSent| == |old(stopsSent)|
        invariant forall k :: 0 <= k < j ==> stopsSent[k] == old(stopsSent)[k] + 1
        invariant forall k :: j <= k < |stopsSent| ==> stopsSent[k] == old(stopsSent)[k]
      {
        stopsSent := stopsSent[j := stopsSent[j] + 1];  // c <- true; close(c)
      }
      fired := true;
      var expected := QuitAllOutcome(old(State()));
      assert expected.0.stopsSent == stopsSent;
      assert expected.0 == State();
    }

    /** The body of the select for one event. */
    method HandleEvent(e: Event)
      modifies this
      ensures State() == Handle(njobs, old(State()), e)
    {
      match e {
        case Done =>
          jobsDone := jobsDone + 1;
        case Run(run) =>
          HandleRun(run);
        case Sigint =>
          var _ := QuitAll();
          out := out + [CtrlC];
      }
    }

    /** The switch on a received result's kind. */
    method HandleRun(run: RunResult)
      modifies this
      ensures State() == Handle(njobs, old(State()), Run(run))
    {
      match run.result {
        case FAILED_EXECUTING =>
          out := out + [FailedToExecute];
          var fired := QuitAll();
          if fired && njobs > 1 {
            out := out + [QuittingAllJobs];
          }
          removed := removed + [run.oupfile];
        case OK =>
          removed := removed + [run.oupfile];
        case FAIL =>
          ReportFailure(run);
        case TIMEOUT =>
          var fired := QuitAll();
          out := out + [TimeoutNotice(run.timeoutPid, run.oupfile), WillNotDelete];
          if fired && njobs > 1 {
            out := out + [QuittingAllJobs];
          }
      }
    }

    /** A FAIL result: the failure is counted and reported with its captured
        output, the other jobs are told to quit, and the file is removed. */
    method ReportFailure(run: RunResult)
      requires run.result == FAIL
      modifies this
      ensures State() == Handle(njobs, old(State()), Run(run))
    {
      nFailed := nFailed + 1;
      var fired := QuitAll();
      out := out + [FailureBegin(nFailed, run.exitCode), Output(run.oupfile), FailureEnd(nFailed, run.exitCode)];
      if fired && njobs > 1 {
        out := out + [QuittingAllJobs];
      }
      removed := removed + [run.oupfile];
    }

    /** The event loop, over the events the select delivers in this order;
        consumed is how many it took before it exited or the list ended. */
    method Loop(events: seq<Event>) returns (consumed: nat)
      modifies this
      ensures consumed == Consumed(njobs, old(State()), events)
      ensures State() == EventLoop(njobs, old(State()), events)
    {
      consumed := 0;
      while consumed < |events| && jobsDone < njobs
        invariant consumed <= |events|
        invariant EventLoop(njobs, State(), events[consumed..]) == EventLoop(njobs, old(State()), events)
        invariant consumed + Consumed(njobs, State(), events[consumed..]) == Consumed(njobs, old(State()), events)
        decreases |events| - consumed
      {
        assert events[consumed..][1..] == events[consumed + 1..];
        HandleEvent(events[consumed]);
        consumed := consumed + 1;
      }
    }
  }
}
