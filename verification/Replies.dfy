/** Replies: what handlers answer, and what recovery rebuilds from the operation log (store.rs: reconstruct_result). */
module Replies {
  import opened Prelude
  import opened Protocol

  /** The message the wire carries for a stored result (server.rs: handle, replay branch). */
  function Wire(rid: Rid, stored: StoredResult): ServerMessage {
    match stored
    case StoredDone(m) => m
    case StoredError(e) => ErrorMsg(rid, e)
  }

  const REJECTED_AT_CRASH := "exec was rejected at time of crash; retry with a new request_id"
  const NO_TERMINATION := "corrupt exec record: completed operation has no termination"

  function Reconstruct(r: Record): ServerMessage
    requires r.IsCommitted()
  {
    match r
    case Fs(id, rid, kind, _, before, after, _) =>
      if kind.Undo? then
        ResultMsg(rid, UndoBody(id, if after == FILE_DELETED_SENTINEL then None else Some(after), after))
      else
        ResultMsg(rid, MutationBody(id, before, after))
    case Exec(id, rid, exec, _) => ReconstructExec(id, rid, exec)
    case Transfer(id, rid, transfer, _) => ResultMsg(rid, TransferBody(id, transfer))
  }

  function ReconstructExec(id: nat, rid: Rid, e: ExecData): ServerMessage {
    if e.disposition.Rejected? then
      ErrorMsg(rid, Error(
        if e.errorCode.Some? then e.errorCode.value else ExecFailed,
        if e.error.Some? then e.error.value else REJECTED_AT_CRASH))
    else match e.termination
      case Some(t) => ResultMsg(rid, ExecBody(id, t, e.durationMs, e.drainTimedOut, e.stdout, e.stderr))
      case None => ErrorMsg(rid, Error(IoError, NO_TERMINATION))
  }

  /**
   What running a command yields: an outcome, or the error that kept it from starting or from being followed to its
   end.
   */
  datatype ExecOutcome =
    | Ran(termination: Termination, durationMs: nat, drainTimedOut: bool, stdout: Output, stderr: Output)
    | NoOutcome(error: ProtocolError)

  /** The record handle_exec appends. */
  function ExecDataOf(o: ExecOutcome, timeoutMessage: string): ExecData {
    match o
    case Ran(t, d, dt, out, err) =>
      ExecData(if t.TimedOut? then KilledByTimeout else RanToEnd, Some(t),
        if t.TimedOut? then Some(timeoutMessage) else None, if t.TimedOut? then Some(ExecFailed) else None,
        d, dt, out, err)
    case NoOutcome(e) =>
      ExecData(Rejected, None, Some(e.message), Some(e.code), 0, false, NO_OUTPUT, NO_OUTPUT)
  }

  /** The result handle_exec remembers and sends. */
  function ExecReply(id: nat, rid: Rid, o: ExecOutcome): StoredResult {
    match o
    case Ran(t, d, dt, out, err) => StoredDone(ResultMsg(rid, ExecBody(id, t, d, dt, out, err)))
    case NoOutcome(e) => StoredError(e)
  }

  /**
   Reply equality for exec: rebuilding from the record gives the message the client was sent, unless the
   error that rejected the command carried hashes, which the record has no room for.
   */
  lemma ExecReplySurvives(id: nat, rid: Rid, o: ExecOutcome, timeoutMessage: string, ts: nat)
    ensures Reconstruct(Exec(id, rid, ExecDataOf(o, timeoutMessage), ts)) == Wire(rid, ExecReply(id, rid, o))
       <==> (o.NoOutcome? ==> o.error.expectedHash == None && o.error.actualHash == None)
  {
    if o.NoOutcome? {
      assert Error(o.error.code, o.error.message) == ProtocolError(o.error.code, o.error.message, None, None);
    }
  }

  /** What any exec record rebuilds to, those no handler here writes included. */
  lemma ExecRebuilt(id: nat, rid: Rid, e: ExecData, ts: nat)
    ensures var m := Reconstruct(Exec(id, rid, e, ts));
      && m.rid == rid
      && (m.ResultMsg? <==> !e.disposition.Rejected? && e.termination.Some?)
      && (m.ResultMsg? ==>
            m.body == ExecBody(id, e.termination.value, e.durationMs, e.drainTimedOut, e.stdout, e.stderr))
      && (e.disposition.Rejected? ==> m.ErrorMsg? && (e.error.Some? ==> m.error.message == e.error.value))
      && (e.disposition.Rejected? && e.errorCode.Some? ==> m.error.code == e.errorCode.value)
      && (e.disposition.Rejected? && e.errorCode.None? ==> m.error.code == ExecFailed)
      && (!e.disposition.Rejected? && e.termination.None? ==> m.error.code == IoError)
      && (m.ErrorMsg? ==> m.error.expectedHash.None? && m.error.actualHash.None?)
  {
  }
}
