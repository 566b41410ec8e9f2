/** Startup and the handling of one request, from claim to answer (server.rs: new, handle, handle_exec, finish). */
module Server {
  import opened Prelude
  import opened Protocol
  import opened Tables
  import opened Replies
  import opened Plans
  import opened Machine
  import opened Invariant
  import opened Steps
  import opened Restart
  import opened StateStore
  import opened Verdicts

  /** Load, recover, and prune if a history limit is configured. */
  method Open(ws: Workspace, files: Files, ops: seq<Record>, reqs: seq<RequestLine>, blobs: Blobs, counter: nat,
              clock: nat -> nat, keep: Option<nat>, ghost s: State)
    returns (store: OperationStore, ghost recovered: State)
    requires Reachable(s) && s.mode.Down? && s.disk == Disk(files, ops, reqs, blobs, counter) && s.ws == ws
    ensures fresh(store) && store.Valid() && store.now.mode.Serving? && store.files == files
    ensures NoClash(ws, files, Fold(ops)) ==> Recovered(recovered, Goal(ws, files, Fold(ops)), RequestFold(reqs))
    ensures forall id :: id in Fold(ops) && Fold(ops)[id].Prepared? ==>
      && id in s.h.effects && Describes(Fold(ops)[id], s.h.effects[id])
      && Fate(s.h.effects[id], Lookup(files, s.h.effects[id].plan.key), recovered.mem.records, recovered.mem.requests)
    ensures keep.None? ==> store.now == recovered
    ensures keep.Some? ==>
      && |store.records| == Min(keep.value, |recovered.mem.records|)
      && store.records == store.ops == recovered.mem.records[|recovered.mem.records| - |store.records|..]
      && store.requests == Retained(recovered.mem.requests, store.records)
  {
    hide Reachable, Step, Does, OnTrack, Recovered, NoClash, Goal, Fold, RequestFold, Markers, StuckRids, Retained,
      Rewrites, Dropped, DoLoad, PruneSteps, Enumerates, Fate, Describes;
    store := new OperationStore(ws, files, ops, reqs, blobs, counter, s);
    LoadedMode(s, store.records);
    MarkersLoaded(store.records, ops);
    store.Recover(clock, Goal(ws, files, Fold(ops)), RequestFold(reqs));
    recovered := store.now;
    if keep.Some? {
      ghost var lines := store.Prune(keep.value);
    }
  }

  lemma MarkersLoaded(order: seq<Record>, ops: seq<Record>)
    requires Enumerates(order, Fold(ops))
    ensures forall id :: id in Fold(ops) ==> Fold(ops)[id] in order && Fold(ops)[id].id == id
  {
    hide Fold;
    FoldIsElements(order);
    FoldMember(ops);
  }

  lemma LoadedMode(s: State, order: seq<Record>)
    ensures DoLoad(s, order).mode == Marking(Markers(order)) && DoLoad(s, order).h == s.h
  {
    hide Markers, RequestFold, MaxId;
  }

  /** What the outside world contributes to one request. */
  datatype World = World(
    ts1: nat, ts2: nat,
    started: bool, outcome: ExecOutcome, timeoutMessage: string,
    transfer: Result<TransferData, ProtocolError>,
    other: StoredResult)

  predicate Fits(request: Request, w: World) {
    && (w.outcome.Ran? ==> w.started)
    && (w.outcome.NoOutcome? ==> w.outcome.error.expectedHash.None? && w.outcome.error.actualHash.None?)
    && (request.TransferRequest? && w.transfer.Ok? ==> w.transfer.value.direction == request.direction)
  }

  /** What one execution of a request does to files, operation log, blobs and table, and the answer it yields. */
  ghost predicate Executed(ws: Workspace, d: Disk, m: Memory, rid: Rid, request: Request, w: World, d': Disk,
                           m': Memory, reply: StoredResult) {
    var id := m.nextId + 1;
    if request.IsMutation() then
      match Decide(ws, d.files, d.blobs, m.records, request)
      case Err(e) => d' == d.(reqs := d'.reqs) && m' == m.(requests := m'.requests) && reply == StoredError(e)
      case Ok(p) =>
        var m1 := Mutation(id, rid, p);
        && d' == CommittedDisk(InstalledDisk(LoggedDisk(SavedDisk(d, m1), m1, w.ts1), m1), m1, w.ts2).(reqs := d'.reqs)
        && m' == Memory(Upsert(m.records, CommitOf(id, rid, p, w.ts2)), m'.requests, id)
        && reply == StoredDone(ReplyTo(id, rid, p))
    else if request.ExecRequest? then
      var r := Exec(id, rid, ExecDataOf(w.outcome, w.timeoutMessage), w.ts1);
      && d' == AppendOp(d, r).(reqs := d'.reqs) && m' == Memory(m.records + [r], m'.requests, id)
      && reply == ExecReply(id, rid, w.outcome)
    else if request.TransferRequest? && w.transfer.Ok? then
      var r := Transfer(id, rid, w.transfer.value, w.ts1);
      && d' == AppendOp(d, r).(reqs := d'.reqs) && m' == Memory(m.records + [r], m'.requests, id)
      && reply == StoredDone(ResultMsg(rid, TransferBody(id, w.transfer.value)))
    else
      && d' == d.(reqs := d'.reqs) && m' == m.(requests := m'.requests)
      && reply == if request.TransferRequest? then StoredError(w.transfer.error) else w.other
  }

  lemma AcceptedOutcome(s: State, rid: Rid, plan: Plan, w: World)
    requires Accepts(s, rid)
    requires Decide(s.ws, s.disk.files, s.disk.blobs, s.mem.records, s.owners[rid].request) == Ok(plan)
    ensures var t := MutationSteps(s, rid, w.ts1, w.ts2)[4];
      && Executed(s.ws, s.disk, s.mem, rid, s.owners[rid].request, w, t.disk, t.mem,
            StoredDone(ReplyTo(s.mem.nextId + 1, rid, plan)))
      && t.mem.requests == s.mem.requests && t.disk.reqs == s.disk.reqs
      && t.mode.Serving? && t.callers == s.callers
      && t.owners == s.owners[rid := Answering(StoredDone(ReplyTo(s.mem.nextId + 1, rid, plan)))]
  {
    hide Decide, Upsert, MarkerOf, CommitOf, ReplyTo, Store;
  }

  lemma RefusedOutcome(s: State, rid: Rid, e: ProtocolError, w: World)
    requires CanBegin(s, rid)
    requires Decide(s.ws, s.disk.files, s.disk.blobs, s.mem.records, s.owners[rid].request) == Err(e)
    ensures var t := DoBegin(s, rid);
      && Executed(s.ws, s.disk, s.mem, rid, s.owners[rid].request, w, t.disk, t.mem, StoredError(e))
      && t.mem.requests == s.mem.requests && t.disk.reqs == s.disk.reqs
  {
    hide Decide;
  }

  /** Dispatch of a claimed request. */
  method Execute(store: OperationStore, rid: Rid, request: Request, w: World) returns (reply: StoredResult)
    requires store.Valid() && HasClaimed(store.now, rid) && store.now.owners[rid].request == request
    requires request.IsMutation() || request.TransferRequest? ==> store.now.lock.Free?
    requires Fits(request, w)
    modifies store
    ensures store.Valid() && CanRemember(store.now, rid) && store.now.owners[rid] == Answering(reply)
    ensures Executed(store.ws, old(store.now.disk), old(store.now.mem), rid, request, w,
                     store.now.disk, store.now.mem, reply)
    ensures store.requests == old(store.requests) && store.reqs == old(store.reqs)
    ensures old(store.trace) < store.trace
  {
    if request.IsMutation() {
      reply := ExecuteMutation(store, rid, request, w);
    } else if request.ExecRequest? {
      reply := ExecuteCommand(store, rid, request, w);
    } else if request.TransferRequest? && w.transfer.Ok? {
      reply := ExecuteTransfer(store, rid, request, w);
    } else {
      hide Reachable, Step, Does;
      reply := if request.TransferRequest? then StoredError(w.transfer.error) else w.other;
      AnswerStep(store.now, rid, reply);
      store.Move(DoAnswer(store.now, rid, reply));
    }
  }

  method ExecuteMutation(store: OperationStore, rid: Rid, request: Request, w: World) returns (reply: StoredResult)
    requires store.Valid() && CanBegin(store.now, rid) && store.now.owners[rid].request == request
    modifies store
    ensures store.Valid() && CanRemember(store.now, rid) && store.now.owners[rid] == Answering(reply)
    ensures Executed(store.ws, old(store.now.disk), old(store.now.mem), rid, request, w,
                     store.now.disk, store.now.mem, reply)
    ensures store.requests == old(store.requests) && store.reqs == old(store.reqs)
    ensures old(store.trace) < store.trace
  {
    hide Reachable, Step, Does, Decide, Executed, MutationSteps, ReplyTo;
    ghost var s := store.now;
    var decision := Decide(store.ws, store.files, store.blobs, store.records, request);
    if decision.Ok? {
      AcceptedOutcome(s, rid, decision.value, w);
    } else {
      RefusedOutcome(s, rid, decision.error, w);
    }
    ghost var path;
    reply, path := store.Mutate(rid, request, w.ts1, w.ts2);
  }

  method ExecuteCommand(store: OperationStore, rid: Rid, request: Request, w: World) returns (reply: StoredResult)
    requires store.Valid() && CanStartExec(store.now, rid) && store.now.owners[rid].request == request
    requires Fits(request, w)
    modifies store
    ensures store.Valid() && CanRemember(store.now, rid) && store.now.owners[rid] == Answering(reply)
    ensures Executed(store.ws, old(store.now.disk), old(store.now.mem), rid, request, w,
                     store.now.disk, store.now.mem, reply)
    ensures store.requests == old(store.requests) && store.reqs == old(store.reqs)
    ensures old(store.trace) < store.trace
  {
    hide Reachable, Step, Does, ExecDataOf, ExecReply;
    reply := store.HandleExec(rid, w.started, w.outcome, w.timeoutMessage, w.ts1);
  }

  method ExecuteTransfer(store: OperationStore, rid: Rid, request: Request, w: World) returns (reply: StoredResult)
    requires store.Valid() && HasClaimed(store.now, rid) && store.now.owners[rid].request == request
    requires request.TransferRequest? && store.now.lock.Free? && w.transfer.Ok? && Fits(request, w)
    modifies store
    ensures store.Valid() && CanRemember(store.now, rid) && store.now.owners[rid] == Answering(reply)
    ensures Executed(store.ws, old(store.now.disk), old(store.now.mem), rid, request, w,
                     store.now.disk, store.now.mem, reply)
    ensures store.requests == old(store.requests) && store.reqs == old(store.reqs)
    ensures old(store.trace) < store.trace
  {
    hide Reachable, Step, Does;
    reply := store.RecordTransfer(rid, w.transfer.value, w.ts1);
  }

  /** finish: the terminal line, the table, then the wire. */
  method Finish(store: OperationStore, rid: Rid, reply: StoredResult) returns (message: ServerMessage)
    requires store.Valid() && CanRemember(store.now, rid) && store.now.owners[rid] == Answering(reply)
    modifies store
    ensures store.Valid() && store.now.mode.Serving? && message == Wire(rid, reply)
    ensures message == match reply case StoredDone(m) => m case StoredError(e) => ErrorMsg(rid, e)
    ensures store.now == DoRemember(old(store.now), rid) && store.trace == old(store.trace) + [store.now]
  {
    hide Reachable, Step, Does;
    RememberStep(store.now, rid);
    store.Remember(rid, reply, DoRemember(store.now, rid));
    message := Wire(rid, reply);
  }

  /**
   One request. An id the table knows is answered from the table and nothing moves. A new id is claimed, executed
   once, and its answer is durable before it is sent; afterwards the table holds exactly that answer for it.
   */
  method Handle(store: OperationStore, rid: Rid, request: Request, w: World, ghost c: nat)
    returns (message: ServerMessage)
    requires store.Valid() && store.now.mode.Serving? && c !in store.now.callers
    requires rid in store.now.h.requestOf ==> store.now.h.requestOf[rid] == request
    requires request.IsMutation() || request.TransferRequest? ==> store.now.lock.Free?
    requires Fits(request, w)
    modifies store
    ensures store.Valid() && store.now.mode.Serving?
    ensures old(rid in store.requests) ==>
      && store.now.disk == old(store.now.disk) && store.now.mem == old(store.now.mem)
      && message == match old(store.requests)[rid].result
                    case Some(StoredDone(m)) => m
                    case Some(StoredError(e)) => ErrorMsg(rid, e)
                    case None => ErrorMsg(rid, Error(InvalidRequest, "request already in progress"))
    ensures old(rid !in store.requests) ==> exists reply: StoredResult ::
      && (message == match reply case StoredDone(m) => m case StoredError(e) => ErrorMsg(rid, e))
      && store.requests == old(store.requests)[rid := Terminal(reply)]
      && store.reqs == old(store.reqs) + [LineOf(rid, Pending(request.Op())), LineOf(rid, Terminal(reply))]
      && Executed(store.ws, old(store.now.disk), old(store.now.mem), rid, request, w,
                  store.now.disk, store.now.mem, reply)
  {
    hide Reachable, Step, Does, Executed, Fits, ClaimedState, ClaimSteps;
    var existing := store.ClaimRequest(rid, request, c);
    match existing {
      case Some(entry) =>
        if entry.result.Some? {
          ReplayStep(store.now, rid);
          store.Move(DoReplay(store.now, rid));
          message := Wire(rid, entry.result.value);
        } else {
          RefuseStep(store.now, rid);
          store.Move(DoRefuse(store.now, rid));
          message := Refusal(rid);
        }
      case None =>
        ClaimedFacts(old(store.now), c, rid, request);
        var reply;
        message, reply := HandleClaimed(store, rid, request, w, old(store.now));
    }
  }

  method HandleClaimed(store: OperationStore, rid: Rid, request: Request, w: World, ghost s: State)
    returns (message: ServerMessage, reply: StoredResult)
    requires store.Valid() && HasClaimed(store.now, rid) && store.now.owners[rid].request == request && store.ws == s.ws
    requires request.IsMutation() || request.TransferRequest? ==> store.now.lock.Free?
    requires store.now.mem == s.mem.(requests := s.mem.requests[rid := Pending(request.Op())])
    requires store.now.disk == s.disk.(reqs := s.disk.reqs + [LineOf(rid, Pending(request.Op()))])
    requires Fits(request, w)
    modifies store
    ensures store.Valid() && store.now.mode.Serving?
    ensures message == Wire(rid, reply)
    ensures store.requests == s.mem.requests[rid := Terminal(reply)]
    ensures store.reqs == s.disk.reqs + [LineOf(rid, Pending(request.Op())), LineOf(rid, Terminal(reply))]
    ensures Executed(store.ws, s.disk, s.mem, rid, request, w, store.now.disk, store.now.mem, reply)
  {
    hide Reachable, Step, Does, Executed, Wire, Fits, LineOf, Pending, Terminal;
    ghost var d, m := store.now.disk, store.now.mem;
    reply := Execute(store, rid, request, w);
    ghost var d', m' := store.now.disk, store.now.mem;
    message := Finish(store, rid, reply);
    ExecutedFrame(store.ws, d, m, rid, request, w, d', m', reply, s.disk, s.mem, store.now.disk, store.now.mem);
  }

  lemma ClaimedFacts(s: State, c: nat, rid: Rid, request: Request)
    requires s.mode.Serving? && rid !in s.mem.requests
    ensures var t := ClaimedState(s, c, rid, request);
      && HasClaimed(t, rid) && t.owners[rid].request == request && t.lock == s.lock
      && t.mem == s.mem.(requests := s.mem.requests[rid := Pending(request.Op())])
      && t.disk == s.disk.(reqs := s.disk.reqs + [LineOf(rid, Pending(request.Op()))])
  {
    hide LineOf;
  }

  /** Executing does not look at the request log or table. */
  lemma ExecutedFrame(ws: Workspace, d: Disk, m: Memory, rid: Rid, request: Request, w: World, d': Disk, m': Memory,
                      reply: StoredResult,
                      e: Disk, n: Memory, e': Disk, n': Memory)
    requires Executed(ws, d, m, rid, request, w, d', m', reply)
    requires e == d.(reqs := e.reqs) && n == m.(requests := n.requests)
    requires e' == d'.(reqs := e'.reqs) && n' == m'.(requests := n'.requests)
    ensures Executed(ws, e, n, rid, request, w, e', n', reply)
  {
    hide Decide, Upsert, MarkerOf, CommitOf, ReplyTo, ExecReply, ExecDataOf;
  }
}
