/**
 The operation store as the object it is: durable fields, tables in memory, and methods that update them in the
 order of the source (store.rs: OperationStore). Ghost state follows along as a run of the machine: every durable
 write is one machine step, so whatever holds of reachable states holds after each single write.
 */
module StateStore {
  import opened Prelude
  import opened Protocol
  import opened Tables
  import opened Replies
  import opened Plans
  import opened Machine
  import opened Invariant
  import opened Runs
  import opened Steps
  import opened Restart
  import opened Reentrancy
  import opened Outcomes
  import opened Verdicts
  import Loading

  /** A claim nobody raced: arrive, durable line, table entry. */
  ghost function ClaimSteps(s: State, c: nat, rid: Rid, request: Request): seq<State> {
    var a := DoArrive(s, c, rid, request);
    var b := DoAppendClaim(a, c);
    [a, b, DoSettle(b, c)]
  }

  ghost function ClaimedState(s: State, c: nat, rid: Rid, request: Request): State {
    DoSettle(DoAppendClaim(DoArrive(s, c, rid, request), c), c)
  }

  /** The states an accepted mutation goes through: id, blob, marker, install, commit. */
  ghost function MutationSteps(s: State, rid: Rid, ts1: nat, ts2: nat): (steps: seq<State>)
    requires Accepts(s, rid)
    ensures |steps| == 5
  {
    var a := DoBegin(s, rid);
    var b := DoSaveBlob(a);
    var c := DoLogMarker(b, ts1);
    var d := DoInstall(c);
    [a, b, c, d, DoCommit(d, ts2)]
  }

  ghost predicate Accepts(s: State, rid: Rid) {
    CanBegin(s, rid) && Decide(s.ws, s.disk.files, s.disk.blobs, s.mem.records, s.owners[rid].request).Ok?
  }

  class OperationStore {
    const ws: Workspace
    // durable
    var files: Files
    var ops: seq<Record>
    var reqs: seq<RequestLine>
    var blobs: Blobs
    var counter: nat
    // in memory
    var records: seq<Record>
    var requests: map<Rid, RequestEntry>
    var nextId: nat
    // where the machine is, and every state it went through since the store was opened
    ghost var now: State
    ghost var trace: seq<State>

    /** Holds after every durable write. */
    ghost predicate Durable()
      reads this
    {
      && now.disk == Disk(files, ops, reqs, blobs, counter) && now.ws == ws && Reachable(now)
      && trace != [] && trace[|trace| - 1] == now
    }

    /** Holds between calls. */
    ghost predicate Valid()
      reads this
    {
      Durable() && now.mem == Memory(records, requests, nextId)
    }

    /** Read both logs, keep the last line of each key, restore the high-water mark. */
    constructor (ws: Workspace, files: Files, ops: seq<Record>, reqs: seq<RequestLine>, blobs: Blobs, counter: nat,
        ghost s: State)
      requires Reachable(s) && s.mode.Down? && s.disk == Disk(files, ops, reqs, blobs, counter) && s.ws == ws
      ensures Valid() && Enumerates(records, Fold(ops)) && now == DoLoad(s, records) && trace == [now]
      ensures this.ws == ws && this.files == files && this.ops == ops && this.reqs == reqs && this.blobs == blobs
      ensures this.counter == counter
      ensures nextId >= counter && (nextId == counter || exists r :: r in ops && r.id == nextId)
      ensures forall r :: r in ops ==> r.id <= nextId
      ensures NoClash(ws, files, Fold(ops)) ==> OnTrack(now, Goal(ws, files, Fold(ops)), RequestFold(reqs))
    {
      hide Reachable, NoClash, OnTrack, Goal, Fold, RequestFold, MaxId, Enumerates, Markers;
      var order, maxId := Loading.LoadRecords(ops);
      MaxIdFacts(ops);
      var table := Loading.LoadRequests(reqs);
      Loaded(s, order);
      this.ws, this.files, this.ops, this.reqs, this.blobs, this.counter := ws, files, ops, reqs, blobs, counter;
      records, requests, nextId := order, table, Max(counter, maxId);
      now := DoLoad(s, order);
      trace := [DoLoad(s, order)];
    }

    // ---- durable writes, one machine step each ----

    ghost method Move(next: State)
      requires Reachable(now) && Step(now, next)
      requires next.disk == Disk(files, ops, reqs, blobs, counter) && next.ws == ws
      modifies this`now, this`trace
      ensures Durable() && now == next && trace == old(trace) + [next]
    {
      hide Reachable, Step, Does;
      ReachableByStep(now, next);
      now := next;
      trace := trace + [next];
    }

    method AppendAnyRecord(r: Record, ghost next: State)
      requires Durable() && Step(now, next) && next.disk == AppendOp(now.disk, r) && next.ws == ws
      modifies this`ops, this`now, this`trace
      ensures Durable() && ops == old(ops) + [r] && now == next && trace == old(trace) + [next]
    {
      hide Reachable, Step, Does;
      ops := ops + [r];
      Move(next);
    }

    method AppendRequestLine(line: RequestLine, ghost next: State)
      requires Durable() && Step(now, next) && next.disk == now.disk.(reqs := now.disk.reqs + [line]) && next.ws == ws
      modifies this`reqs, this`now, this`trace
      ensures Durable() && reqs == old(reqs) + [line] && now == next && trace == old(trace) + [next]
    {
      hide Reachable, Step, Does;
      reqs := reqs + [line];
      Move(next);
    }

    method WriteBlob(id: nat, content: Bytes, ghost next: State)
      requires Durable() && Step(now, next) && next.disk == now.disk.(blobs := now.disk.blobs[id := content])
      requires next.ws == ws
      modifies this`blobs, this`now, this`trace
      ensures Durable() && blobs == old(blobs)[id := content] && now == next && trace == old(trace) + [next]
    {
      hide Reachable, Step, Does;
      blobs := blobs[id := content];
      Move(next);
    }

    /** Rename the new content into place, or remove the file. */
    method WriteFile(key: string, content: Option<Bytes>, ghost next: State)
      requires Durable() && Step(now, next) && next.disk == now.disk.(files := Store(now.disk.files, key, content))
      requires next.ws == ws
      modifies this`files, this`now, this`trace
      ensures Durable() && files == Store(old(files), key, content) && now == next && trace == old(trace) + [next]
    {
      hide Reachable, Step, Does;
      match content {
        case Some(bytes) => files := files[key := bytes];
        case None => files := files - {key};
      }
      Move(next);
    }

    // ---- the request table ----

    /** The durable claim line, written outside the lock. */
    method AppendClaim(rid: Rid, request: Request, ghost c: nat)
      requires Valid() && CanAppendClaim(now, c) && now.callers[c] == Caller(rid, request, false)
      modifies this`reqs, this`now, this`trace
      ensures Valid() && now == DoAppendClaim(old(now), c) && trace == old(trace) + [now]
    {
      hide Reachable, Step, Does;
      AppendClaimStep(now, c);
      AppendRequestLine(LineOf(rid, Pending(request.Op())), DoAppendClaim(now, c));
    }

    /** The second check, under the lock: somebody may have claimed meanwhile. */
    method SettleClaim(rid: Rid, request: Request, ghost c: nat) returns (existing: Option<RequestEntry>)
      requires Valid() && CanSettle(now, c) && now.callers[c] == Caller(rid, request, true)
      modifies this`requests, this`now, this`trace
      ensures Valid() && now == DoSettle(old(now), c) && trace == old(trace) + [now]
      ensures existing == Lookup(old(requests), rid)
      ensures existing.None? ==> rid in now.owners && now.owners[rid] == Claimed(request)
      ensures requests == if existing.Some? then old(requests)
                          else old(requests)[rid := RequestEntry(InProgress, None, Some(request.Op()))]
    {
      hide Reachable, Step, Does;
      SettleStep(now, c);
      if rid in requests {
        existing := Some(requests[rid]);
      } else {
        requests := requests[rid := Pending(request.Op())];
        existing := None;
      }
      Move(DoSettle(now, c));
    }

    method ClaimRequest(rid: Rid, request: Request, ghost c: nat) returns (existing: Option<RequestEntry>)
      requires Valid() && now.mode.Serving? && c !in now.callers
      requires rid in now.h.requestOf ==> now.h.requestOf[rid] == request
      modifies this`reqs, this`requests, this`now, this`trace
      ensures Valid()
      ensures existing == Lookup(old(requests), rid)
      ensures existing.Some? ==> now == old(now) && trace == old(trace)
      ensures existing.None? ==> now == ClaimedState(old(now), c, rid, request)
      ensures existing.None? ==> trace == old(trace) + ClaimSteps(old(now), c, rid, request)
      ensures existing.None? ==>
        && reqs == old(reqs) + [RequestLine(rid, InProgress, None, None, Some(request.Op()))]
        && requests == old(requests)[rid := RequestEntry(InProgress, None, Some(request.Op()))]
    {
      hide Reachable, Step, Does;
      if rid in requests {
        return Some(requests[rid]);
      }
      ArriveStep(now, c, rid, request);
      Move(DoArrive(now, c, rid, request));
      AppendClaim(rid, request, c);
      existing := SettleClaim(rid, request, c);
    }

    /** remember_result and remember_error: the terminal line first, then the table. */
    method Remember(rid: Rid, reply: StoredResult, ghost next: State)
      requires Valid() && Step(now, next) && next.ws == ws
      requires next.disk == AppendReq(now.disk, rid, Terminal(reply))
      requires next.mem == now.mem.(requests := now.mem.requests[rid := Terminal(reply)])
      modifies this`reqs, this`requests, this`now, this`trace
      ensures Valid() && now == next && trace == old(trace) + [next]
      ensures requests - {rid} == old(requests) - {rid} && rid in requests && |reqs| == |old(reqs)| + 1
      ensures old(reqs) < reqs
      ensures match reply
        case StoredDone(m) =>
          && requests[rid] == RequestEntry(Done, Some(StoredDone(m)), None)
          && reqs[|old(reqs)|] == RequestLine(rid, Done, Some(m), None, None)
        case StoredError(e) =>
          && requests[rid] == RequestEntry(Failed, Some(StoredError(e)), None)
          && reqs[|old(reqs)|] == RequestLine(rid, Failed, None, Some(e), None)
    {
      hide Reachable, Step, Does;
      AppendRequestLine(LineOf(rid, Terminal(reply)), next);
      requests := requests[rid := Terminal(reply)];
    }

    // ---- file mutations ----

    /** Next id, blob, Prepared marker. */
    method PrepareFsRecord(rid: Rid, plan: Plan, ts: nat) returns (id: nat)
      requires Valid() && Accepts(now, rid)
      requires Decide(ws, files, blobs, records, now.owners[rid].request) == Ok(plan)
      modifies this`nextId, this`blobs, this`ops, this`now, this`trace
      ensures Valid() && id == old(nextId) + 1
      ensures var a := DoBegin(old(now), rid); var b := DoSaveBlob(a);
        now == DoLogMarker(b, ts) && trace == old(trace) + [a, b, now]
      ensures now.lock == Held(Mutation(id, rid, plan), Logged, false) && now.mode.Serving?
    {
      hide Reachable, Step, Does, Decide, MarkerOf;
      id := nextId + 1;
      nextId := id;
      BeginStep(now, rid);
      Move(DoBegin(now, rid));
      SaveBlobStep(now);
      if plan.blob.Some? {
        WriteBlob(id, plan.blob.value, DoSaveBlob(now));
      } else {
        Move(DoSaveBlob(now));
      }
      LogMarkerStep(now, ts);
      AppendAnyRecord(MarkerOf(id, rid, plan, ts), DoLogMarker(now, ts));
    }

    /** The committed record, in the log and over its marker in the table. */
    method CommitFsRecord(id: nat, rid: Rid, plan: Plan, ts: nat)
      requires Valid() && CanCommit(now, ts) && now.lock.m == Mutation(id, rid, plan)
      modifies this`ops, this`records, this`now, this`trace
      ensures Valid() && now == DoCommit(old(now), ts) && trace == old(trace) + [now]
    {
      hide Reachable, Step, Does, CommitOf, Upsert;
      CommitStep(now, ts);
      var record := CommitOf(id, rid, plan, ts);
      AppendAnyRecord(record, DoCommit(now, ts));
      records := Loading.Upserted(records, record);
    }

    /**
     create, edit, delete and undo, under the write guard: decide; if refused touch nothing, otherwise blob, marker,
     install, commit, in that order.
     */
    method Mutate(rid: Rid, request: Request, ts1: nat, ts2: nat) returns (reply: StoredResult, ghost path: string)
      requires Valid() && CanBegin(now, rid) && now.owners[rid].request == request
      modifies this`nextId, this`blobs, this`ops, this`files, this`records, this`now, this`trace
      ensures Valid() && now.mode.Serving? && rid in now.owners && now.owners[rid] == Answering(reply)
      ensures match old(Decide(ws, files, blobs, records, request))
        case Err(e) => reply == StoredError(e) && now == DoBegin(old(now), rid) && trace == old(trace) + [now]
        case Ok(plan) => trace == old(trace) + MutationSteps(old(now), rid, ts1, ts2)
      ensures reply.StoredError? ==>
        files == old(files) && ops == old(ops) && blobs == old(blobs) && records == old(records)
      ensures reply.StoredDone? ==>
        && Accomplished(ws, request, old(now.h.effects), old(files), files, path)
        && |ops| == |old(ops)| + 2 && old(ops) < ops
        && Reported(old(nextId) + 1, rid, request, path, Lookup(old(files), ws[path]), Lookup(files, ws[path]),
                    ts1, ts2, ops[|old(ops)|..], reply)
        && records == Upsert(old(records), ops[|ops| - 1])
    {
      hide Reachable, Step, Does, ReplyTo, MarkerOf, CommitOf, Upsert, Decide, Accomplished, Reported, Store;
      path := "";
      match Decide(ws, files, blobs, records, request) {
        case Err(e) =>
          BeginStep(now, rid);
          Move(DoBegin(now, rid));
          reply := StoredError(e);
        case Ok(plan) =>
          PlanAccomplishes(now, request, plan);
          PlanReports(nextId + 1, rid, request, plan, ts1, ts2);
          path := plan.path;
          var id := PrepareFsRecord(rid, plan, ts1);
          InstallStep(now);
          WriteFile(plan.key, plan.after, DoInstall(now));
          CommitFsRecord(id, rid, plan, ts2);
          reply := StoredDone(ReplyTo(id, rid, plan));
          assert ops[|old(ops)|..] == [MarkerOf(id, rid, plan, ts1), CommitOf(id, rid, plan, ts2)];
      }
    }

    // ---- commands and transfers ----

    method AppendRecord(r: Record, ghost next: State)
      requires Valid() && Step(now, next) && next.ws == ws && next.disk == AppendOp(now.disk, r)
      requires next.mem == now.mem.(records := now.mem.records + [r])
      modifies this`ops, this`records, this`now, this`trace
      ensures Valid() && now == next && trace == old(trace) + [next]
    {
      hide Reachable, Step, Does;
      AppendAnyRecord(r, next);
      records := records + [r];
    }

    /**
     handle_exec: the id comes first; whatever running the command yields is recorded before it is answered. An error
     may come before or after the command started, and is recorded as a rejection either way.
     */
    method HandleExec(rid: Rid, started: bool, outcome: ExecOutcome, timeoutMessage: string, ts: nat)
      returns (reply: StoredResult)
      requires Valid() && CanStartExec(now, rid) && (outcome.Ran? ==> started)
      requires outcome.NoOutcome? ==> outcome.error.expectedHash.None? && outcome.error.actualHash.None?
      modifies this`nextId, this`ops, this`records, this`now, this`trace
      ensures Valid() && now.mode.Serving? && rid in now.owners && now.owners[rid] == Answering(reply)
      ensures |records| == |old(records)| + 1 && old(records) < records && nextId == old(nextId) + 1
      ensures ops == old(ops) + [records[|old(records)|]]
      ensures CommandReported(old(nextId) + 1, rid, outcome, timeoutMessage, ts, records[|old(records)|], reply)
      ensures reply == ExecReply(old(nextId) + 1, rid, outcome)
      ensures var a := DoStartExec(old(now), rid);
        if started then
          var b := DoSpawn(a, rid);
          now == DoEndExec(b, rid, outcome, timeoutMessage, ts) && trace == old(trace) + [a, b, now]
        else now == DoEndExec(a, rid, outcome, timeoutMessage, ts) && trace == old(trace) + [a, now]
    {
      hide Reachable, Step, Does, ExecDataOf, ExecReply, CommandReported;
      var id := nextId + 1;
      CommandReports(id, rid, outcome, timeoutMessage, ts);
      nextId := id;
      StartExecStep(now, rid);
      Move(DoStartExec(now, rid));
      if started {
        SpawnStep(now, rid);
        Move(DoSpawn(now, rid));
      }
      EndExecStep(now, rid, outcome, timeoutMessage, ts);
      AppendRecord(Exec(id, rid, ExecDataOf(outcome, timeoutMessage), ts),
          DoEndExec(now, rid, outcome, timeoutMessage, ts));
      reply := ExecReply(id, rid, outcome);
    }

    /** upload_commit and download_record, once the transfer itself is done. */
    method RecordTransfer(rid: Rid, data: TransferData, ts: nat) returns (reply: StoredResult)
      requires Valid() && CanLogTransfer(now, rid, data, ts)
      modifies this`nextId, this`ops, this`records, this`now, this`trace
      ensures Valid() && now.mode.Serving? && rid in now.owners && now.owners[rid] == Answering(reply)
      ensures reply == StoredDone(ResultMsg(rid, TransferBody(old(nextId) + 1, data)))
      ensures records == old(records) + [Transfer(old(nextId) + 1, rid, data, ts)]
      ensures ops == old(ops) + [Transfer(old(nextId) + 1, rid, data, ts)] && nextId == old(nextId) + 1
      ensures now == DoLogTransfer(old(now), rid, data, ts) && trace == old(trace) + [now]
    {
      hide Reachable, Step, Does;
      var id := nextId + 1;
      var record := Transfer(id, rid, data, ts);
      nextId := id;
      LogTransferStep(now, rid, data, ts);
      AppendAnyRecord(record, DoLogTransfer(now, rid, data, ts));
      records := records + [record];
      reply := StoredDone(ResultMsg(rid, TransferBody(id, data)));
    }

    // ---- startup recovery ----

    /** Forget a marker in memory, then durably. */
    method DropPrepared(id: nat, ts: nat, ghost next: State)
      requires Valid() && Step(now, next) && next.ws == ws && next.disk == AppendOp(now.disk, Aborted(id, ts))
      requires next.mem == now.mem.(records := WithoutMarker(now.mem.records, id))
      modifies this`ops, this`records, this`now, this`trace
      ensures Valid() && now == next && trace == old(trace) + [next]
    {
      hide Reachable, Step, Does, WithoutMarker;
      records := Loading.Without(records, id);
      AppendAnyRecord(Aborted(id, ts), next);
    }

    /** The install happened and the commit did not: write the record and its answer now. */
    method SynthesizeCommit(p: Record, ts: nat)
      requires Valid() && CanResolveMarker(now, ts) && now.mode.todo[0] == p && Classify(ws, files, p).Took?
      modifies this`ops, this`records, this`reqs, this`requests, this`now, this`trace
      ensures Valid() && now == DoTell(DoResolveMarker(old(now), ts))
      ensures trace == old(trace) + [DoResolveMarker(old(now), ts), now]
    {
      hide Reachable, Step, Does, Upsert, Classify, Reconstruct;
      var record := Synthesized(p, ts);
      ResolveMarkerStep(now, ts);
      AppendAnyRecord(record, DoResolveMarker(now, ts));
      records := Loading.Upserted(records, record);
      TellStep(now);
      Remember(p.rid, StoredDone(Reconstruct(record)), DoTell(now));
    }

    method ResolveAsConflict(p: Record, ts: nat)
      requires Valid() && CanResolveMarker(now, ts) && now.mode.todo[0] == p && Classify(ws, files, p).Clash?
      modifies this`ops, this`records, this`reqs, this`requests, this`now, this`trace
      ensures Valid() && now == DoTell(DoResolveMarker(old(now), ts))
      ensures trace == old(trace) + [DoResolveMarker(old(now), ts), now]
    {
      hide Reachable, Step, Does, WithoutMarker, Classify, Reconstruct;
      ResolveMarkerStep(now, ts);
      DropPrepared(p.id, ts, DoResolveMarker(now, ts));
      TellStep(now);
      Remember(p.rid, StoredError(CLASH_ERROR), DoTell(now));
    }

    /** Compare a marker with its file and settle it. */
    method ResolvePrepared(p: Record, ts: nat)
      requires Valid() && CanResolveMarker(now, ts) && now.mode.todo[0] == p
      modifies this`ops, this`records, this`reqs, this`requests, this`now, this`trace
      ensures Valid() && now == Resolved(old(now), ts) && old(trace) < trace
      ensures p.id in old(now.h.effects)
      ensures Judged(now, old(now.h.effects[p.id]), Lookup(files, old(now.h.effects[p.id].plan.key)))
    {
      hide Reachable, Step, Does, WithoutMarker, Upsert, Classify, Reconstruct, DoTell, Judged;
      JudgedBy(now, ts);
      match Classify(ws, files, p) {
        case NoOp =>
          ResolveMarkerStep(now, ts);
          DropPrepared(p.id, ts, DoResolveMarker(now, ts));
        case Took => SynthesizeCommit(p, ts);
        case Clash => ResolveAsConflict(p, ts);
      }
    }

    /** A request without an answer: rebuild the answer, mark it lost, or forget it. */
    method ResolveStuck(rid: Rid)
      requires Valid() && CanUnstick(now, rid)
      modifies this`reqs, this`requests, this`now, this`trace
      ensures Valid() && now == DoUnstick(old(now), rid) && trace == old(trace) + [now]
      ensures Unstuck(records, rid, old(requests)[rid].op, Lookup(requests, rid))
      ensures requests - {rid} == old(requests) - {rid}
    {
      hide Reachable, Step, Does, Reconstruct, FindByRequest, Unstuck;
      UnstuckAs(records, rid, requests[rid]);
      UnstickStep(now, rid);
      var committed := Loading.FindCommittedByRequestId(records, rid);
      FindByRequestFacts(records, rid);
      if committed.Some? {
        Remember(rid, StoredDone(Reconstruct(committed.value)), DoUnstick(now, rid));
      } else if requests[rid].op == Some(OpExec) {
        Remember(rid, StoredError(EXEC_LOST), DoUnstick(now, rid));
      } else if requests[rid].op == None {
        Remember(rid, StoredError(UNKNOWN_LOST), DoUnstick(now, rid));
      } else {
        requests := requests - {rid};
        Move(DoUnstick(now, rid));
      }
    }

    /**
     recover: settle every marker against its file, then every request without an answer. If no marker contradicts
     its file, the store ends at the goal its logs and files committed it to when it was opened.
     */
    method Recover(clock: nat -> nat, ghost goal: Table, ghost start: Answers)
      requires Valid() && now.mode == Marking(Markers(records))
      modifies this`ops, this`records, this`reqs, this`requests, this`now, this`trace
      ensures Valid() && now.mode.Serving? && now.lock.Free? && now.callers == map[] && now.owners == map[]
      ensures old(trace) < trace
      ensures StuckRids(requests) == {} && Markers(records) == []
      ensures old(OnTrack(now, goal, start)) ==> Recovered(now, goal, start)
      ensures forall p :: p in old(records) && p.Prepared? ==>
        && p.id in old(now.h.effects) && Describes(p, old(now.h.effects[p.id]))
        && Fate(old(now.h.effects[p.id]), Lookup(files, old(now.h.effects[p.id].plan.key)), records, requests)
    {
      hide Reachable, Step, Does, OnTrack, Recovered, Fold, RequestFold, Markers, StuckRids, Classify, DoResolveMarker,
        DoTell, DoUnstick, Judged, Fate, Describes;
      OneMarker(now);
      MarkerKnown(now);
      MarkersElements(records);
      ghost var onTrack := OnTrack(now, goal, start);
      var prepareds := Loading.PreparedOf(records);
      ghost var effects := now.h.effects;
      var i := 0;
      while i < |prepareds|
        invariant i <= |prepareds| && Valid() && now.mode == Marking(prepareds[i..])
        invariant old(trace) <= trace
        invariant onTrack ==> OnTrack(now, goal, start)
        invariant i == 0 ==> now == old(now)
        invariant i > 0 ==> Judged(now, effects[prepareds[0].id], Lookup(files, effects[prepareds[0].id].plan.key))
      {
        ghost var s := now;
        ResolvePrepared(prepareds[i], clock(i));
        ResolvedFacts(s, clock(i), goal, start);
        i := i + 1;
      }
      ghost var settled := now;
      FinishRecovery(goal, start);
      if prepareds != [] {
        FatesReached(settled, now, effects[prepareds[0].id], Lookup(files, effects[prepareds[0].id].plan.key));
      }
    }

    method FinishRecovery(ghost goal: Table, ghost start: Answers)
      requires Valid() && now.mode == Marking([])
      modifies this`reqs, this`requests, this`now, this`trace
      ensures Valid() && now.mode.Serving? && now.lock.Free? && now.callers == map[] && now.owners == map[]
      ensures old(trace) < trace
      ensures StuckRids(requests) == {} && Markers(records) == []
      ensures old(OnTrack(now, goal, start)) ==> Recovered(now, goal, start)
      ensures Recovered(now, Goal(ws, files, Fold(ops)), RequestFold(old(reqs)))
    {
      hide Reachable, Step, Does, OnTrack, Recovered, Fold, RequestFold, Markers, StuckRids, DoUnstick, Goal;
      ghost var onTrack := OnTrack(now, goal, start);
      ghost var ownGoal, ownStart := Goal(ws, files, Fold(ops)), RequestFold(reqs);
      SettledOnTrack(now);
      MarkersDoneFacts(now, ownGoal, ownStart);
      var stuck := StuckRids(requests);
      MarkersDoneFacts(now, goal, start);
      Move(DoMarkersDone(now));
      while stuck != {}
        invariant Valid() && now.mode == Unsticking(stuck)
        invariant old(trace) < trace
        invariant onTrack ==> OnTrack(now, goal, start)
        invariant OnTrack(now, ownGoal, ownStart)
        decreases |stuck|
      {
        var rid :| rid in stuck;
        ghost var s := now;
        UnstickFacts(s, rid, goal, start);
        UnstickFacts(s, rid, ownGoal, ownStart);
        ResolveStuck(rid);
        stuck := stuck - {rid};
      }
      OpenFacts(now, goal, start);
      OpenFacts(now, ownGoal, ownStart);
      Move(DoOpen(now));
    }

    // ---- pruning ----

    /**
     Keep the last `keep` records and the requests they need. The counter goes to disk before any record leaves the
     log, the operation log before the request log, and the blobs last.
     */
    method Prune(keep: nat) returns (ghost lines: seq<RequestLine>)
      requires Valid() && CanPruneBegin(now, keep)
      modifies this`records, this`requests, this`counter, this`ops, this`reqs, this`blobs, this`now, this`trace
      ensures Valid() && now.mode.Serving?
      ensures |records| == Min(keep, |old(records)|)
      ensures var kept := old(records)[|old(records)| - |records|..];
        && records == ops == kept && counter == nextId
        && requests == Retained(old(requests), kept) && Rewrites(lines, requests) && reqs == lines
      ensures Dropped(blobs, old(blobs), old(records)[..|old(records)| - |records|])
      ensures old(trace) + PruneSteps(old(now), keep, lines) < trace
    {
      hide Reachable, Step, Does, Retained, Rewrites, RequestFold, Dropped;
      var dropped := DropOldest(keep);
      WriteCounter();
      RewriteOperations();
      var all := RewriteRequests();
      lines := all;
      RemoveBlobs(dropped);
      PruneEndStep(now);
      Move(DoPruneEnd(now));
    }

    method DropOldest(keep: nat) returns (dropped: seq<Record>)
      requires Valid() && CanPruneBegin(now, keep)
      modifies this`records, this`requests, this`now, this`trace
      ensures Valid() && now == DoPruneBegin(old(now), keep) && trace == old(trace) + [now]
      ensures dropped == old(records)[..|old(records)| - |records|]
    {
      hide Reachable, Step, Does, Retained;
      var removed := if |records| > keep then |records| - keep else 0;
      dropped := records[..removed];
      records := records[removed..];
      requests := Loading.RetainRequests(requests, records);
      PruneBeginStep(now, keep);
      Move(DoPruneBegin(now, keep));
    }

    method WriteCounter()
      requires Valid() && CanPruneCounter(now)
      modifies this`counter, this`now, this`trace
      ensures Valid() && counter == nextId && now == DoPruneCounter(old(now)) && trace == old(trace) + [now]
    {
      hide Reachable, Step, Does;
      PruneCounterStep(now);
      counter := nextId;
      Move(DoPruneCounter(now));
    }

    method RewriteOperations()
      requires Valid() && CanPruneOps(now)
      modifies this`ops, this`now, this`trace
      ensures Valid() && ops == records && now == DoPruneOps(old(now)) && trace == old(trace) + [now]
    {
      hide Reachable, Step, Does;
      PruneOpsStep(now);
      ops := records;
      Move(DoPruneOps(now));
    }

    method RewriteRequests() returns (lines: seq<RequestLine>)
      requires Valid() && now.mode.Pruning? && now.mode.phase == 2
      modifies this`reqs, this`now, this`trace
      ensures CanPruneReqs(old(now), lines)
      ensures Valid() && reqs == lines && now == DoPruneReqs(old(now), lines) && trace == old(trace) + [now]
    {
      hide Reachable, Step, Does, Rewrites;
      lines := Loading.LinesOf(requests);
      PruneReqsStep(now, lines);
      reqs := lines;
      Move(DoPruneReqs(now, lines));
    }

    method RemoveBlobs(dropped: seq<Record>)
      requires Valid() && now.mode == Pruning(3, dropped)
      modifies this`blobs, this`now, this`trace
      ensures Valid() && now.mode == Pruning(3, [])
      ensures Dropped(blobs, old(blobs), dropped)
      ensures old(trace) <= trace
    {
      hide Reachable, Step, Does;
      var i := 0;
      while i < |dropped|
        invariant i <= |dropped| && Valid() && now.mode == Pruning(3, dropped[i..])
        invariant Dropped(blobs, old(blobs), dropped[..i])
        invariant old(trace) <= trace
      {
        PruneBlobStep(now);
        blobs := blobs - {dropped[i].id};
        Move(DoPruneBlob(now));
        i := i + 1;
      }
      assert dropped[..|dropped|] == dropped;
    }
  }

  /** Up to the request log: id high-water mark, operation log, request log. */
  ghost function PruneSteps(s: State, keep: nat, lines: seq<RequestLine>): seq<State>
    requires CanPruneBegin(s, keep) && Rewrites(lines, DoPruneBegin(s, keep).mem.requests)
  {
    var a := DoPruneBegin(s, keep);
    var b := DoPruneCounter(a);
    var c := DoPruneOps(b);
    [a, b, c, DoPruneReqs(c, lines)]
  }

  /** All blobs but those of the dropped records. */
  ghost predicate Dropped(blobs: Blobs, before: Blobs, dropped: seq<Record>) {
    && (forall id :: id in blobs <==> id in before && forall r :: r in dropped ==> r.id != id)
    && (forall id :: id in blobs ==> blobs[id] == before[id])
  }

  /** A marker settled, and its request answered where the source answers it. */
  ghost function Resolved(s: State, ts: nat): State
    requires CanResolveMarker(s, ts)
  {
    var t := DoResolveMarker(s, ts);
    if t.mode.Telling? then DoTell(t) else t
  }

  lemma ResolvedFacts(s: State, ts: nat, goal: Table, start: Answers)
    requires Reachable(s) && CanResolveMarker(s, ts)
    ensures Resolved(s, ts).mode == Marking(s.mode.todo[1..])
    ensures OnTrack(s, goal, start) ==> OnTrack(Resolved(s, ts), goal, start)
  {
    hide Reachable, OnTrack, Inv, Classify, Reconstruct, Upsert, WithoutMarker;
    ReachableInv(s);
    var t := DoResolveMarker(s, ts);
    if OnTrack(s, goal, start) {
      ResolveOnTrack(s, ts, goal, start);
      StillReachable(s, ts);
      ReachableInv(t);
      if t.mode.Telling? {
        TellOnTrack(t, goal, start);
      }
    }
  }

  lemma StillReachable(s: State, ts: nat)
    requires Reachable(s) && CanResolveMarker(s, ts)
    ensures Reachable(DoResolveMarker(s, ts))
  {
    hide Reachable, Step, Does, DoResolveMarker;
    ResolveMarkerStep(s, ts);
    ReachableByStep(s, DoResolveMarker(s, ts));
  }

  lemma OneMarker(s: State)
    requires Reachable(s) && s.mode.Marking?
    ensures |s.mode.todo| <= 1
  {
    ReachableInv(s);
    hide Fold, RequestFold, MaxId, IdsOk, CounterOk, ReservedOk, BlobsOk, EffectsOk, RidsOk, MarkerOk, LockOk, MemOk,
      RequestsOk, CallersOk, CoveredOk, OwnersOk, InstallsOk, RepliesOk, ExecOk, HistoryOk;
  }

  lemma MarkersDoneFacts(s: State, goal: Table, start: Answers)
    requires Reachable(s) && CanMarkersDone(s)
    ensures Step(s, DoMarkersDone(s))
    ensures OnTrack(s, goal, start) ==> OnTrack(DoMarkersDone(s), goal, start)
  {
    hide Reachable, OnTrack, Inv, Step, Enabled, Apply, CanMarkersDone, DoMarkersDone;
    ReachableInv(s);
    MarkersDoneStep(s);
    if OnTrack(s, goal, start) {
      OtherOnTrack(s, MarkersDone, goal, start);
    }
  }

  lemma UnstickFacts(s: State, rid: Rid, goal: Table, start: Answers)
    requires Reachable(s) && s.mode.Unsticking? && rid in s.mode.stuck
    ensures CanUnstick(s, rid)
    ensures DoUnstick(s, rid).mode == Unsticking(s.mode.stuck - {rid})
    ensures OnTrack(s, goal, start) ==> OnTrack(DoUnstick(s, rid), goal, start)
  {
    hide Reachable, OnTrack, StuckVerdict, LineOf;
    ReachableInv(s);
    StuckHere(s);
    hide Inv;
    if OnTrack(s, goal, start) {
      UnstickOnTrack(s, rid, goal, start);
    }
  }

  lemma OpenFacts(s: State, goal: Table, start: Answers)
    requires Reachable(s) && CanOpen(s)
    ensures Step(s, DoOpen(s)) && StuckRids(s.mem.requests) == {} && Markers(s.mem.records) == []
    ensures s.owners == map[] && s.callers == map[] && s.lock.Free?
    ensures OnTrack(s, goal, start) ==> Recovered(DoOpen(s), goal, start)
  {
    hide Reachable, OnTrack, Recovered, Inv, Step, Markers, StuckRids, Enabled, Apply;
    ReachableInv(s);
    StuckHere(s);
    OpenStep(s);
    ReachableByStep(s, DoOpen(s));
    ReachableInv(DoOpen(s));
    if OnTrack(s, goal, start) {
      OtherOnTrack(s, Open, goal, start);
      ServingRecovered(DoOpen(s), goal, start);
    }
  }

  /** A crash state, loaded, is on track to the goal its logs and files commit it to. */
  lemma Loaded(s: State, order: seq<Record>)
    requires Reachable(s) && CanLoad(s, order)
    ensures Reachable(DoLoad(s, order))
    ensures NoClash(s.ws, s.disk.files, Fold(s.disk.ops)) ==>
      OnTrack(DoLoad(s, order), Goal(s.ws, s.disk.files, Fold(s.disk.ops)), RequestFold(s.disk.reqs))
  {
    assert s.mode.Down?;
    hide Fold, RequestFold, Reachable, Inv, NoClash, OnTrack, Goal, DoLoad, CanLoad, Step;
    LoadStep(s, order);
    ReachableByStep(s, DoLoad(s, order));
    ReachableInv(s);
    if NoClash(s.ws, s.disk.files, Fold(s.disk.ops)) {
      DownOnTrack(s);
      OtherOnTrack(s, Load(order), Goal(s.ws, s.disk.files, Fold(s.disk.ops)), RequestFold(s.disk.reqs));
    }
  }
}
