/** What an accepted mutation does to the file, writes to the log and answers, in terms of the request alone. */
module Outcomes {
  import opened Prelude
  import opened Protocol
  import opened Tables
  import opened Replies
  import opened Plans
  import opened Machine
  import opened Invariant
  import opened ServingProofs
  import opened Runs
  import opened Handlers

  /**
   The request's file, at `path`, was as the request demands and is now as it promises; every other file is as it was.
   An undo promises what its target had found, and demands what its target had left.
   */
  ghost predicate Accomplished(ws: Workspace, request: Request, effects: map<nat, Mutation>, before: Files,
                               after: Files, path: string)
  {
    path in ws && after - {ws[path]} == before - {ws[path]}
    && var was, now := Lookup(before, ws[path]), Lookup(after, ws[path]);
       match request
       case CreateRequest(p, content) => path == p && was.None? && now == Some(content)
       case EditRequest(p, base, o, n, all) =>
         && path == p && was.Some? && now.Some? && Digest(was.value) == base
         && o != [] && exists gaps :: Replacement(was.value, o, n, all, gaps, now.value)
       case DeleteRequest(p) => path == p && was.Some? && now.None?
       case UndoRequest(target) =>
         && target in effects && path == effects[target].plan.path
         && was == effects[target].plan.after && now == effects[target].plan.before
       case _ => false
  }

  function KindOf(request: Request): (kind: OperationKind)
    requires request.IsMutation()
    ensures kind.Create? <==> request.CreateRequest?
    ensures kind.Edit? <==> request.EditRequest?
    ensures kind.Delete? <==> request.DeleteRequest?
    ensures kind.Undo? <==> request.UndoRequest?
  {
    if request.CreateRequest? then Create
    else if request.EditRequest? then Edit
    else if request.DeleteRequest? then Delete
    else Undo
  }

  /** Marker, record and answer say what was found and what was left. */
  ghost predicate Reported(id: nat, rid: Rid, request: Request, path: string, was: Option<Bytes>, now: Option<Bytes>,
                           ts1: nat, ts2: nat, lines: seq<Record>, reply: StoredResult)
    requires request.IsMutation()
  {
    && lines == [Prepared(id, rid, KindOf(request), path, HashOf(was), AfterHash(now), ts1),
                 Fs(id, rid, KindOf(request), path, HashOf(was), AfterHash(now), ts2)]
    && reply == StoredDone(ResultMsg(rid,
         if request.UndoRequest? then UndoBody(id, HashOf(now), AfterHash(now))
         else MutationBody(id, HashOf(was), AfterHash(now))))
  }

  lemma PlanAccomplishes(s: State, request: Request, p: Plan)
    requires Reachable(s) && s.mode.Serving? && request.IsMutation()
    requires Decide(s.ws, s.disk.files, s.disk.blobs, s.mem.records, request) == Ok(p)
    ensures Accomplished(s.ws, request, s.h.effects, s.disk.files, Store(s.disk.files, p.key, p.after), p.path)
    ensures p.key == s.ws[p.path] && p.before == Lookup(s.disk.files, p.key) && p.kind == KindOf(request)
    ensures p.kind.Undo? ==> p.restored == HashOf(p.after)
  {
    hide Reachable, PlanCreate, PlanEdit, PlanDelete, PlanUndo, Replacement;
    match request
    case CreateRequest(path, content) => CreateDecided(s.ws, s.disk.files, path, content);
    case EditRequest(path, base, o, n, all) => EditDecided(s.ws, s.disk.files, path, base, o, n, all);
    case DeleteRequest(path) => DeleteDecided(s.ws, s.disk.files, path);
    case UndoRequest(target) => UndoAccomplishes(s, target, p);
  }

  lemma UndoAccomplishes(s: State, target: nat, p: Plan)
    requires Reachable(s) && s.mode.Serving?
    requires Decide(s.ws, s.disk.files, s.disk.blobs, s.mem.records, UndoRequest(target)) == Ok(p)
    ensures target in s.h.effects && p == ReversalOf(s.h.effects[target].plan)
    ensures p.path in s.ws && p.key == s.ws[p.path] && p.before == Lookup(s.disk.files, p.key)
  {
    hide Reachable, Inv, PlanUndo;
    FindRecordFacts(s.mem.records, target);
    UndoInverts(s, target);
    ReachableInv(s);
    EffectResolves(s, target);
  }

  lemma EffectResolves(s: State, id: nat)
    requires Inv(s) && id in s.h.effects
    ensures s.h.effects[id].plan.path in s.ws && s.h.effects[id].plan.key == s.ws[s.h.effects[id].plan.path]
  {
    hide Fold, RequestFold, MaxId, IdsOk, CounterOk, ReservedOk, BlobsOk, RidsOk, MarkerOk, LockOk, ModeOk, MemOk;
    hide RequestsOk, CallersOk, CoveredOk, OwnersOk, RepliesOk, InstallsOk, ExecOk, HistoryOk;
  }

  lemma PlanReports(id: nat, rid: Rid, request: Request, p: Plan, ts1: nat, ts2: nat)
    requires request.IsMutation() && p.kind == KindOf(request) && (p.kind.Undo? ==> p.restored == HashOf(p.after))
    ensures Reported(id, rid, request, p.path, p.before, p.after, ts1, ts2,
                     [MarkerOf(id, rid, p, ts1), CommitOf(id, rid, p, ts2)], StoredDone(ReplyTo(id, rid, p)))
  {
  }

  // ---- commands ----

  /**
   Record and answer of a command. One that was killed for its time leaves an error of its own in the record, one that
   ran to its end none, and one that was rejected the error it is answered with.
   */
  ghost predicate CommandReported(id: nat, rid: Rid, outcome: ExecOutcome, timeoutMessage: string, ts: nat, r: Record,
                                  reply: StoredResult)
  {
    && r.Exec? && r.id == id && r.rid == rid && r.ts == ts
    && match outcome
       case Ran(t, duration, drained, out, err) =>
         && (r.exec.disposition == if t.TimedOut? then KilledByTimeout else RanToEnd)
         && (t.TimedOut? ==> r.exec.error == Some(timeoutMessage) && r.exec.errorCode == Some(ExecFailed))
         && (!t.TimedOut? ==> r.exec.error.None? && r.exec.errorCode.None?)
         && r.exec.termination == Some(t) && r.exec.durationMs == duration && r.exec.drainTimedOut == drained
         && r.exec.stdout == out && r.exec.stderr == err
         && reply == StoredDone(ResultMsg(rid, ExecBody(id, t, duration, drained, out, err)))
       case NoOutcome(e) =>
         && r.exec.disposition == Rejected && r.exec.error == Some(e.message) && r.exec.errorCode == Some(e.code)
         && r.exec.termination.None? && r.exec.durationMs == 0 && !r.exec.drainTimedOut
         && r.exec.stdout == r.exec.stderr == Output("", "", 0, 0)
         && reply == StoredError(e)
  }

  lemma CommandReports(id: nat, rid: Rid, outcome: ExecOutcome, timeoutMessage: string, ts: nat)
    ensures CommandReported(id, rid, outcome, timeoutMessage, ts,
                            Exec(id, rid, ExecDataOf(outcome, timeoutMessage), ts), ExecReply(id, rid, outcome))
  {
  }

  // ---- requests a crash left without an answer ----

  /**
   A record of the request answers it; without one a command, or a request of unknown kind, is declared lost, and any
   other request is forgotten, to be sent again.
   */
  ghost predicate Unstuck(records: seq<Record>, rid: Rid, op: Option<OpKind>, entry: Option<RequestEntry>) {
    if exists r :: r in records && r.IsCommitted() && r.rid == rid then
      exists r :: r in records && r.IsCommitted() && r.rid == rid
        && entry == Some(RequestEntry(Done, Some(StoredDone(Reconstruct(r))), None))
    else if op == Some(OpExec) || op.None? then
      && entry.Some? && entry.value.status.Failed? && entry.value.op.None?
      && entry.value.result.Some? && entry.value.result.value.StoredError?
      && entry.value.result.value.error.expectedHash.None? && entry.value.result.value.error.actualHash.None?
      && entry.value.result.value.error.code == if op.Some? then ExecFailed else InvalidRequest
    else entry.None?
  }

  lemma UnstuckAs(records: seq<Record>, rid: Rid, e: RequestEntry)
    ensures var v := StuckVerdict(records, rid, e);
      Unstuck(records, rid, e.op, if v.Some? then Some(Terminal(v.value)) else None)
  {
    hide Reconstruct, FindByRequest;
    FindByRequestFacts(records, rid);
  }
}
