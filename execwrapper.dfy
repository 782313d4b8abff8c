/** The executor of internal/execwrapper/execwrapper.go: building a command from
    an argument vector, starting it with both output streams sent to one fresh
    sink, and mapping the error exec.Cmd.Wait returns to a RunResult. The
    operating system is replaced by the values it would hand back. */
module ExecWrapper {
  import Types

  /** What exec.Cmd.Wait returned: nil, an *exec.ExitError (with its ExitCode()),
      or any other error. */
  datatype WaitError = Nil | ExitError(code: int) | OtherError(err: Types.ErrId)

  /** exec.Cmd.Wait reports an *exec.ExitError only for an unsuccessful exit, so
      its exit code is never 0 (it is -1 for a process killed by a signal). */
  predicate FromRealWait(e: WaitError)
  {
    e.ExitError? ==> e.code != 0
  }

  /** execwrapper.RunResult: an exit code and the I/O error, nil being None. */
  datatype RunResult = RunResult(exitCode: int, ioError: Types.Option<Types.ErrId>)

  /** The one completion the runner accepts as a clean exit. */
  predicate IsCleanExit(r: RunResult)
  {
    r.exitCode == 0 && r.ioError.None?
  }

  /** execwrapper.StartResult: the start error (nil being None), the pid and the sink. */
  datatype StartResult = StartResult(error: Types.Option<Types.ErrId>, pid: int, oupfile: Types.SinkId)

  /** What exec.Cmd.Start did: failed with an error, or started a process. */
  datatype ProcessStart = StartFailed(err: Types.ErrId) | Started(pid: int)

  /** Wait as written. A nil wait error falls into the type switch's default
      branch, so a clean exit is reported as exit code -1 with no I/O error. */
  function Wait(waitErr: WaitError): (r: RunResult)
    ensures waitErr.ExitError? ==> r == RunResult(waitErr.code, Types.None)
    ensures waitErr.OtherError? ==> r == RunResult(-1, Types.Some(waitErr.err))
    ensures waitErr.Nil? ==> r == RunResult(-1, Types.None)
    ensures FromRealWait(waitErr) ==> !IsCleanExit(r)
  {
    match waitErr
    case ExitError(code) => RunResult(code, Types.None)
    case OtherError(e) => RunResult(-1, Types.Some(e))
    case Nil => RunResult(-1, Types.None)
  }

  /** Wait as evidently intended: a nil wait error is a clean exit with code 0. */
  function WaitCorrected(waitErr: WaitError): (r: RunResult)
    ensures !waitErr.Nil? ==> r == Wait(waitErr)
    ensures FromRealWait(waitErr) ==> (IsCleanExit(r) <==> waitErr.Nil?)
  {
    match waitErr
    case Nil => RunResult(0, Types.None)
    case _ => Wait(waitErr)
  }

  /** A clean exit seen through Wait as written is never a clean exit, and
      through the corrected Wait always is. */
  lemma CleanExitLost()
    ensures Wait(Nil) == RunResult(-1, Types.None) && !IsCleanExit(Wait(Nil))
    ensures IsCleanExit(WaitCorrected(Nil))
  {
  }

  /** An exec.Cmd built from an argument vector, with its output redirections. */
  class ExecCommand {
    const path: string
    const args: seq<string>
    var stdout: Types.Option<Types.SinkId>
    var stderr: Types.Option<Types.SinkId>

    /** Command: the first element is the program, the rest its arguments; an
        empty vector would make cmd[0] panic. */
    constructor Command(cmd: seq<string>)
      requires |cmd| > 0
      ensures [path] + args == cmd
      ensures path == cmd[0] && args == cmd[1..]
      ensures stdout == Types.None && stderr == Types.None
    {
      path, args := cmd[0], cmd[1..];
      stdout, stderr := Types.None, Types.None;
    }

    /** StartWithTmpfile. tmpfile is what ioutil.TempFile produced (None when it
        failed, which is fatal: log.Fatal ends the program, given here as None);
        start is what exec.Cmd.Start did once both streams point at the sink. */
    method StartWithTmpfile(tmpfile: Types.Option<Types.SinkId>, start: ProcessStart) returns (r: Types.Option<StartResult>)
      modifies this
      ensures tmpfile.None? ==> r.None? && stdout == old(stdout) && stderr == old(stderr)
      ensures tmpfile.Some? ==> stdout == tmpfile && stderr == tmpfile
      ensures tmpfile.Some? && start.StartFailed? ==> r == Types.Some(StartResult(Types.Some(start.err), 0, tmpfile.value))
      ensures tmpfile.Some? && start.Started? ==> r == Types.Some(StartResult(Types.None, start.pid, tmpfile.value))
    {
      if tmpfile.None? {
        return Types.None;
      }
      var oupfile := tmpfile.value;
      stdout := Types.Some(oupfile);
      stderr := Types.Some(oupfile);
      match start
      case StartFailed(err) =>
        r := Types.Some(StartResult(Types.Some(err), 0, oupfile));
      case Started(pid) =>
        r := Types.Some(StartResult(Types.None, pid, oupfile));
    }
  }
}
