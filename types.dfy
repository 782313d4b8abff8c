/** Values shared by the job loops and the supervisor: opaque handles for the
    captured-output files, process ids and errors, and the classified result of
    one attempt. */
module Types {

  /** An output sink (the temporary file an attempt writes into), by identity. */
  type SinkId = nat

  /** A Go error value other than nil, by identity. */
  type ErrId = nat

  datatype Option<T> = None | Some(value: T)

  /** RUNRES_OK, RUNRES_FAILED_EXECUTING, RUNRES_FAIL, RUNRES_TIMEOUT. */
  datatype RunResultType = OK | FAILED_EXECUTING | FAIL | TIMEOUT

  /** One classified attempt. Fields the source leaves unset keep Go's zero value 0. */
  datatype RunResult = RunResult(result: RunResultType, oupfile: SinkId, exitCode: int, timeoutPid: int)

  /** True when every result but possibly the last is OK. */
  predicate OnlyLastMayFail(rs: seq<RunResult>)
  {
    forall i :: 0 <= i < |rs| - 1 ==> rs[i].result == OK
  }

  /** Number of results of the given kind. */
  function CountKind(rs: seq<RunResult>, k: RunResultType): (n: nat)
    ensures n <= |rs|
  {
    if rs == [] then 0 else CountKind(rs[..|rs| - 1], k) + (if rs[|rs| - 1].result == k then 1 else 0)
  }

  /** Number of results that are not OK. */
  function CountNonOk(rs: seq<RunResult>): (n: nat)
    ensures n <= |rs|
  {
    if rs == [] then 0 else CountNonOk(rs[..|rs| - 1]) + (if rs[|rs| - 1].result != OK then 1 else 0)
  }

  /** If only the last result may be non-OK, at most one result is non-OK. */
  lemma {:induction false} OnlyLastMayFailCount(rs: seq<RunResult>)
    requires OnlyLastMayFail(rs)
    ensures CountNonOk(rs) <= 1
    ensures CountNonOk(rs) == 1 <==> rs != [] && rs[|rs| - 1].result != OK
  {
    if rs != [] {
      var init := rs[..|rs| - 1];
      assert forall i :: 0 <= i < |init| ==> init[i].result == OK;
      AllOkCount(init);
    }
  }

  lemma {:induction false} AllOkCount(rs: seq<RunResult>)
    requires forall i :: 0 <= i < |rs| ==> rs[i].result == OK
    ensures CountNonOk(rs) == 0
  {
    if rs != [] {
      AllOkCount(rs[..|rs| - 1]);
    }
  }
}
