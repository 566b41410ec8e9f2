/** Every step a serving instance takes keeps the invariant. */
module ServingProofs {
  import opened Prelude
  import opened Protocol
  import opened Tables
  import opened Replies
  import opened Plans
  import opened Machine
  import opened Invariant

  // ---- shared facts ----

  /** A request being executed is pending, in memory and in the log. */
  lemma OwnerPending(s: State, rid: Rid)
    requires InMode(s) && Requests(s) && s.mode.Serving? && rid in s.owners
    ensures rid in s.mem.requests && IsPending(s.mem.requests[rid])
    ensures var answers := RequestFold(s.disk.reqs); rid in answers && IsPending(answers[rid])
  {
    hide RequestFold, Fold;
    assert rid in StuckRids(s.mem.requests);
  }

  /** An executing request that has not logged its record has none, rolled back ones aside. */
  lemma NoRecordYet(s: State, rid: Rid)
    requires Owners(s) && Marker(s) && Effects(s) && rid in s.owners && !s.owners[rid].Answering?
    requires s.lock.Held? ==> s.lock.m.rid != rid || !s.lock.Durable()
    ensures forall id :: !Live1(Fold(s.disk.ops), id, rid)
  {
    hide Fold;
  }

  /** What the handler answers is what the committed record reconstructs to; for undo this rests on the blob. */
  lemma CommitReply(m: Mutation, ws: Workspace, ts: nat)
    requires GoodPlan(ws, m.plan)
    ensures var r := CommitOf(m.id, m.rid, m.plan, ts);
      Wire(m.rid, StoredDone(ReplyTo(m.id, m.rid, m.plan))) == Reconstruct(r)
  {
  }

  /** Logging a record for a request that has no other keeps one record a request. */
  lemma RidsAfterLog(table: Table, answers: Answers, r: Record)
    requires RidsOk(table, answers)
    requires !r.Aborted? && r.rid in answers && (r.Prepared? ==> IsPending(answers[r.rid]))
    requires forall id :: Live1(table, id, r.rid) ==> id == r.id
    ensures RidsOk(table[r.id := r], answers)
  {
    var t := table[r.id := r];
    forall i, j | i in t && j in t && i != j && !t[i].Aborted? && !t[j].Aborted? ensures t[i].rid != t[j].rid {
      assert i in table ==> (Live1(table, i, r.rid) ==> i == r.id);
      assert j in table ==> (Live1(table, j, r.rid) ==> j == r.id);
    }
  }

  lemma StoredAfterLog(table: Table, entries: Answers, r: Record)
    requires RepliesOk(table, entries)
    requires r.IsCommitted() ==> (r.rid in entries ==> entries[r.rid].result.None?)
    ensures RepliesOk(table[r.id := r], entries)
  {
  }

  /** Logging a record that is no file record, under a new id, carries no install. */
  lemma CarriedAfterLog(table: Table, lock: Lock, r: Record, installs: multiset<Rid>, pruned: multiset<Rid>,
                        undone: multiset<Rid>)
    requires InstallsOk(table, lock, installs, pruned, undone) && !r.Fs? && r.id !in table
    ensures InstallsOk(table[r.id := r], lock, installs, pruned, undone)
  {
    assert FileRids(table[r.id := r]) == FileRids(table) by {
      assert forall id :: id in table ==> id in table[r.id := r] && table[r.id := r][id] == table[id];
    }
  }

  /** The guard carries an install exactly while its mutation is installed. */
  lemma CarriedByGuard(table: Table, lock: Lock, after: Lock, installs: multiset<Rid>, pruned: multiset<Rid>,
                       undone: multiset<Rid>)
    requires InstallsOk(table, lock, installs, pruned, undone)
    requires lock.Held? && lock.stage.Installed? ==> after.Held? && after.stage.Installed? && after.m.rid == lock.m.rid
    ensures InstallsOk(table, after, installs, pruned, undone)
  {
    hide FileRids;
    assert forall rid :: Carried(table, lock, rid) ==> Carried(table, after, rid);
  }

  // ---- claims ----

  /** Callers may come and go, as long as claims without an entry keep theirs. */
  lemma RequestsKept(answers: Answers, requests: Answers, callers: map<nat, Caller>, after: map<nat, Caller>,
                     requestOf: map<Rid, Request>, later: map<Rid, Request>)
    requires RequestsOk(Serving, answers, requests, callers, requestOf)
    requires forall rid :: rid in requestOf ==> rid in later && later[rid] == requestOf[rid]
    requires forall rid :: Claiming(callers, rid) && rid !in requests ==> Claiming(after, rid)
    ensures RequestsOk(Serving, answers, requests, after, later)
  {
    hide Claiming;
  }

  /** A claim line, whether or not there is an entry already. */
  lemma RequestsClaimed(answers: Answers, requests: Answers, callers: map<nat, Caller>, requestOf: map<Rid, Request>,
                        rid: Rid)
    requires RequestsOk(Serving, answers, requests, callers, requestOf)
    requires rid in requestOf && (rid !in requests ==> Claiming(callers, rid))
    ensures RequestsOk(Serving, answers[rid := Pending(requestOf[rid].Op())], requests, callers, requestOf)
  {
    hide Claiming;
    assert rid in requests ==> EntryOk(rid, requests[rid], requestOf);
  }

  /** The entry of a claim that is on disk. */
  lemma RequestsEntered(answers: Answers, requests: Answers, callers: map<nat, Caller>, requestOf: map<Rid, Request>,
                        rid: Rid)
    requires RequestsOk(Serving, answers, requests, callers, requestOf)
    requires rid in requestOf && rid in answers && answers[rid] == Pending(requestOf[rid].Op())
    ensures RequestsOk(Serving, answers, requests[rid := answers[rid]], callers, requestOf)
  {
    hide Claiming;
  }

  lemma ArriveKeeps(s: State, c: nat, rid: Rid, request: Request)
    requires Inv(s) && CanArrive(s, c, rid, request)
    ensures Inv(DoArrive(s, c, rid, request))
  {
    hide Fold, RequestFold, MaxId, IdsOk, CounterOk, ReservedOk, BlobsOk, EffectsOk, RidsOk, MarkerOk, LockOk, MemOk,
      RequestsOk, CallersOk, CoveredOk, OwnersOk, RepliesOk, InstallsOk, ExecOk, HistoryOk;
    ArriveRequests(s, c, rid, request);
    ArriveOwners(s, c, rid, request);
  }

  lemma ArriveRequests(s: State, c: nat, rid: Rid, request: Request)
    requires Inv(s) && CanArrive(s, c, rid, request)
    ensures var t := DoArrive(s, c, rid, request); Requests(t) && Callers(t)
  {
    hide Fold, RequestFold, MaxId, IdsOk, CounterOk, ReservedOk, BlobsOk, EffectsOk, RidsOk, MarkerOk, LockOk, MemOk,
      ModeOk, RequestsOk, CoveredOk, OwnersOk, RepliesOk, InstallsOk, ExecOk, HistoryOk;
    var t := DoArrive(s, c, rid, request);
    ArriveClaims(s.callers, c, Caller(rid, request, false));
    RequestsKept(RequestFold(s.disk.reqs), s.mem.requests, s.callers, t.callers, s.h.requestOf, t.h.requestOf);
  }

  lemma ArriveClaims(callers: map<nat, Caller>, c: nat, k: Caller)
    requires c !in callers
    ensures forall r :: Claiming(callers, r) ==> Claiming(callers[c := k], r)
  {
    forall r | Claiming(callers, r) ensures Claiming(callers[c := k], r) {
      var d :| d in callers && callers[d].appended && callers[d].rid == r;
      assert d in callers[c := k] && callers[c := k][d] == callers[d];
    }
  }

  lemma ArriveOwners(s: State, c: nat, rid: Rid, request: Request)
    requires Inv(s) && CanArrive(s, c, rid, request)
    ensures var t := DoArrive(s, c, rid, request); Owners(t) && Execs(t)
  {
    hide Fold, RequestFold, MaxId, IdsOk, CounterOk, ReservedOk, BlobsOk, EffectsOk, RidsOk, MarkerOk, LockOk, MemOk,
      ModeOk, RequestsOk, CallersOk, CoveredOk, RepliesOk, InstallsOk, HistoryOk;
  }

  lemma ReplayKeeps(s: State, rid: Rid)
    requires Inv(s) && CanReplay(s, rid)
    ensures Inv(DoReplay(s, rid))
  {
  }

  lemma RefuseKeeps(s: State, rid: Rid)
    requires Inv(s) && CanRefuse(s, rid)
    ensures Inv(DoRefuse(s, rid))
  {
  }

  lemma AppendClaimKeeps(s: State, c: nat)
    requires Inv(s) && CanAppendClaim(s, c)
    ensures Inv(DoAppendClaim(s, c))
  {
    hide Fold, RequestFold, MaxId, IdsOk, CounterOk, ReservedOk, BlobsOk, EffectsOk, RidsOk, MarkerOk, LockOk, MemOk,
      ModeOk, RequestsOk, CallersOk, CoveredOk, OwnersOk, RepliesOk, InstallsOk, ExecOk, HistoryOk;
    AppendClaimRecords(s, c);
    AppendClaimEntries(s, c);
    AppendClaimRequests(s, c);
  }

  lemma AppendClaimRecords(s: State, c: nat)
    requires Inv(s) && CanAppendClaim(s, c)
    ensures var t := DoAppendClaim(s, c); Rids(t) && InMode(t) && Stored(t)
  {
    hide Fold, RequestFold, MaxId, IdsOk, CounterOk, ReservedOk, BlobsOk, EffectsOk, MarkerOk, LockOk, MemOk, CoveredOk,
      OwnersOk, HistoryOk, RequestsOk, InstallsOk, ExecOk, CallersOk;
    RequestFoldAppend(s.disk.reqs, LineOf(s.callers[c].rid, Pending(s.callers[c].request.Op())));
  }

  lemma AppendClaimEntries(s: State, c: nat)
    requires Inv(s) && CanAppendClaim(s, c)
    ensures var t := DoAppendClaim(s, c); Callers(t) && Execs(t)
  {
    hide Fold, RequestFold, MaxId, IdsOk, CounterOk, ReservedOk, BlobsOk, EffectsOk, RidsOk, MarkerOk, LockOk, MemOk,
      ModeOk, RequestsOk, CoveredOk, OwnersOk, RepliesOk, InstallsOk, HistoryOk;
    RequestFoldAppend(s.disk.reqs, LineOf(s.callers[c].rid, Pending(s.callers[c].request.Op())));
  }

  lemma AppendClaimRequests(s: State, c: nat)
    requires Inv(s) && CanAppendClaim(s, c)
    ensures Requests(DoAppendClaim(s, c))
  {
    hide Fold, RequestFold, MaxId, IdsOk, CounterOk, ReservedOk, BlobsOk, EffectsOk, RidsOk, MarkerOk, LockOk, MemOk,
      ModeOk, RequestsOk, CoveredOk, OwnersOk, RepliesOk, InstallsOk, ExecOk, HistoryOk, LineOf, EntryOf;
    var k := s.callers[c];
    var t := DoAppendClaim(s, c);
    var answers := RequestFold(s.disk.reqs);
    EntryOfLineOf(k.rid, Pending(k.request.Op()));
    RequestFoldAppend(s.disk.reqs, LineOf(k.rid, Pending(k.request.Op())));
    AppendClaims(s.callers, c);
    RequestsKept(answers, s.mem.requests, s.callers, t.callers, s.h.requestOf, s.h.requestOf);
    RequestsClaimed(answers, s.mem.requests, t.callers, s.h.requestOf, k.rid);
  }

  lemma AppendClaims(callers: map<nat, Caller>, c: nat)
    requires c in callers
    ensures var after := callers[c := callers[c].(appended := true)];
      Claiming(after, callers[c].rid) && forall r :: Claiming(callers, r) ==> Claiming(after, r)
  {
    var after := callers[c := callers[c].(appended := true)];
    assert after[c].appended && after[c].rid == callers[c].rid;
    forall r | Claiming(callers, r) ensures Claiming(after, r) {
      var d :| d in callers && callers[d].appended && callers[d].rid == r;
      assert d in after && after[d].appended && after[d].rid == r;
    }
  }

  lemma SettleKeeps(s: State, c: nat)
    requires Inv(s) && CanSettle(s, c)
    ensures Inv(DoSettle(s, c))
  {
    hide Fold, RequestFold, MaxId, IdsOk, ReservedOk, BlobsOk, EffectsOk, RidsOk, MarkerOk, LockOk, MemOk, ModeOk,
      RequestsOk, CallersOk, CoveredOk, OwnersOk, RepliesOk, InstallsOk, ExecOk, HistoryOk;
    var k := s.callers[c];
    SettleReserved(s, c);
    SettleTables(s, c);
    SettleRequests(s, c);
    SettleOwners(s, c);
    SettleHistory(s, c);
  }

  lemma SettleReserved(s: State, c: nat)
    requires Inv(s) && CanSettle(s, c)
    ensures var t := DoSettle(s, c); Reserved(t) && InMode(t)
  {
    hide Fold, RequestFold, MaxId, IdsOk, BlobsOk, EffectsOk, RidsOk, MarkerOk, LockOk, MemOk, RequestsOk, CallersOk,
      CoveredOk, OwnersOk, RepliesOk, InstallsOk, ExecOk, HistoryOk;
  }

  lemma SettleTables(s: State, c: nat)
    requires Inv(s) && CanSettle(s, c)
    ensures var t := DoSettle(s, c); Callers(t) && Covered(t)
  {
    hide Fold, RequestFold, MaxId, IdsOk, ReservedOk, BlobsOk, EffectsOk, RidsOk, MarkerOk, LockOk, MemOk, OwnersOk,
      ModeOk, RequestsOk, RepliesOk, InstallsOk, ExecOk, HistoryOk;
  }

  lemma SettleRequests(s: State, c: nat)
    requires Inv(s) && CanSettle(s, c)
    ensures Requests(DoSettle(s, c))
  {
    hide Fold, RequestFold, MaxId, IdsOk, ReservedOk, BlobsOk, EffectsOk, RidsOk, MarkerOk, LockOk, MemOk, OwnersOk,
      ModeOk, RequestsOk, CoveredOk, RepliesOk, InstallsOk, ExecOk, HistoryOk;
    var k := s.callers[c];
    var t := DoSettle(s, c);
    var answers := RequestFold(s.disk.reqs);
    if k.rid !in s.mem.requests {
      RequestsEntered(answers, s.mem.requests, s.callers, s.h.requestOf, k.rid);
    }
    SettleClaims(s.callers, c);
    RequestsKept(answers, t.mem.requests, s.callers, t.callers, s.h.requestOf, s.h.requestOf);
  }

  lemma SettleClaims(callers: map<nat, Caller>, c: nat)
    requires c in callers
    ensures forall r :: Claiming(callers, r) && r != callers[c].rid ==> Claiming(callers - {c}, r)
  {
    forall r | Claiming(callers, r) && r != callers[c].rid ensures Claiming(callers - {c}, r) {
      var d :| d in callers && callers[d].appended && callers[d].rid == r;
      assert d in callers - {c} && (callers - {c})[d] == callers[d];
    }
  }

  lemma RecordsCovered(s: State)
    requires Mem(s) && Covered(s) && !s.mode.Down?
    ensures forall id :: id in Live(Fold(s.mem.records)) ==> Live(Fold(s.mem.records))[id].rid in s.mem.requests
  {
    hide Fold;
    FoldMember(s.mem.records);
  }

  lemma UnclaimedHasNoRecord(s: State, rid: Rid)
    requires Inv(s) && s.mode.Serving? && rid !in s.mem.requests
    ensures forall id :: !Live1(Fold(s.disk.ops), id, rid)
  {
    hide Fold, RequestFold, MaxId, IdsOk, ReservedOk, BlobsOk, LockOk, RepliesOk, InstallsOk, ExecOk,
      HistoryOk, RequestsOk, CallersOk, RidsOk, CoveredOk;
    var table := Fold(s.disk.ops);
    if s.lock.Held? {
      OwnerPending(s, s.lock.m.rid);
    }
    RecordsCovered(s);
    assert s.lock.Durable() ==> Describes(table[s.lock.m.id], s.lock.m);
    assert forall id :: Live1(table, id, rid) ==> id in Live(table);
    assert forall id :: id in Live(Fold(s.mem.records)) ==>
        id in Live(table) && Live(table)[id] == Live(Fold(s.mem.records))[id];
    assert forall id :: id in Live(table) && id !in Live(Fold(s.mem.records)) ==> s.lock.Durable() && id == s.lock.m.id;
  }

  lemma SettleOwners(s: State, c: nat)
    requires Inv(s) && CanSettle(s, c)
    ensures Owners(DoSettle(s, c))
  {
    hide Fold, RequestFold, MaxId, IdsOk, ReservedOk, BlobsOk, EffectsOk, RidsOk, MarkerOk, LockOk, MemOk, RequestsOk,
      ModeOk, CoveredOk, RepliesOk, InstallsOk, ExecOk, HistoryOk;
    if s.callers[c].rid !in s.mem.requests {
      UnclaimedHasNoRecord(s, s.callers[c].rid);
      assert s.lock.Held? && s.lock.m.rid !in s.mem.requests ==> s.lock.m.rid in s.owners;
    }
  }

  lemma SettleHistory(s: State, c: nat)
    requires Inv(s) && CanSettle(s, c)
    ensures var t := DoSettle(s, c); Stored(t) && Execs(t)
  {
    hide Fold, RequestFold, MaxId, IdsOk, ReservedOk, BlobsOk, EffectsOk, RidsOk, MarkerOk, LockOk, MemOk, OwnersOk,
      ModeOk, InstallsOk, CoveredOk, HistoryOk;
  }

  // ---- mutations ----

  lemma BeginKeeps(s: State, rid: Rid)
    requires Inv(s) && CanBegin(s, rid)
    ensures Inv(DoBegin(s, rid))
  {
    hide Fold, RequestFold, MaxId, Decide, IdsOk, CounterOk, ReservedOk, BlobsOk, EffectsOk, RidsOk, MarkerOk, LockOk,
      MemOk, ModeOk, RequestsOk, CallersOk, CoveredOk, OwnersOk, RepliesOk, InstallsOk, ExecOk, HistoryOk;
    BeginInstalls(s, rid);
    BeginGuard(s, rid);
    BeginReserved(s, rid);
    BeginModes(s, rid);
    BeginOwners(s, rid);
  }

  lemma OwnerAsked(s: State, rid: Rid)
    requires Inv(s) && rid in s.owners && s.owners[rid].Claimed?
    ensures rid in s.h.requestOf && s.owners[rid].request == s.h.requestOf[rid]
  {
    hide Fold, RequestFold, MaxId;
  }

  lemma RecordsInTable(s: State)
    requires Inv(s) && !s.mode.Down?
    ensures forall r :: r in s.mem.records ==> r.id in Fold(s.disk.ops) && Fold(s.disk.ops)[r.id] == r
  {
    hide Fold, RequestFold, MaxId, IdsOk, CounterOk, ReservedOk, BlobsOk, EffectsOk, MarkerOk, RidsOk, LockOk, ModeOk,
      RequestsOk, CallersOk, CoveredOk, OwnersOk, RepliesOk, InstallsOk, ExecOk, HistoryOk;
    FoldIsElements(s.mem.records);
  }

  lemma UndoTarget(s: State, r: Record)
    requires Inv(s) && r.Fs? && r.id in Fold(s.disk.ops) && Fold(s.disk.ops)[r.id] == r
    ensures r.id in s.h.effects
    ensures var m := s.h.effects[r.id]; var d := PlanUndo(s.ws, s.disk.files, s.disk.blobs, r);
      && (d.Ok? <==> !m.plan.kind.Undo? && Lookup(s.disk.files, m.plan.key) == m.plan.after)
      && (d.Ok? ==> d.value == ReversalOf(m.plan))
  {
    hide Fold, RequestFold, MaxId, IdsOk, CounterOk, ReservedOk, MarkerOk, RidsOk, LockOk, ModeOk, MemOk, RequestsOk,
      CallersOk, CoveredOk, OwnersOk, InstallsOk, RepliesOk, ExecOk, HistoryOk;
    assert BlobFor(s.disk.blobs, r) && Describes(r, s.h.effects[r.id]);
  }

  lemma BeginInstalls(s: State, rid: Rid)
    requires Inv(s) && CanBegin(s, rid)
    ensures Installs(DoBegin(s, rid))
  {
    hide Fold, RequestFold, MaxId, Decide, Reconstruct, Upsert, IdsOk, CounterOk, ReservedOk, BlobsOk, EffectsOk,
      RidsOk, MarkerOk, LockOk, MemOk, ModeOk, RequestsOk, CallersOk, CoveredOk, OwnersOk, RepliesOk, ExecOk, HistoryOk,
      InstallsOk;
    CarriedByGuard(Fold(s.disk.ops), s.lock, DoBegin(s, rid).lock, s.h.installs, s.h.pruned, s.h.undone);
  }

  lemma TargetsUndoable(s: State)
    requires Inv(s) && s.mode.Serving?
    ensures forall r :: r in s.mem.records && r.Fs? ==> UndoableTarget(s.disk.blobs, r)
  {
    hide RequestFold, MaxId, IdsOk, CounterOk, ReservedOk, RidsOk, MarkerOk, LockOk, ModeOk, RequestsOk, CallersOk,
      CoveredOk, OwnersOk, RepliesOk, InstallsOk, ExecOk, HistoryOk;
    var table := Fold(s.disk.ops);
    FoldIsElements(s.mem.records);
    forall r | r in s.mem.records && r.Fs? ensures UndoableTarget(s.disk.blobs, r) {
      assert r.id in Live(Fold(s.mem.records)) && Live(Fold(s.mem.records))[r.id] == r;
      assert r.id in Live(table) && table[r.id] == r;
      assert BlobFor(s.disk.blobs, r) && Describes(r, s.h.effects[r.id]) && GoodPlan(s.ws, s.h.effects[r.id].plan);
    }
  }

  lemma BeginGuard(s: State, rid: Rid)
    requires Inv(s) && CanBegin(s, rid)
    ensures Guard(DoBegin(s, rid))
  {
    hide Fold, RequestFold, MaxId, Decide, BlobsOk, RidsOk, MarkerOk, MemOk, ModeOk, RequestsOk, CallersOk, CoveredOk,
      OwnersOk, RepliesOk, InstallsOk, ExecOk, HistoryOk;
    TargetsUndoable(s);
    DecisionSound(s.ws, s.disk.files, s.disk.blobs, s.mem.records, s.owners[rid].request);
    FreshId(s);
  }

  /** The next id is above every id that ever reached the log, so it is new to every set of logged ids. */
  lemma FreshId(s: State)
    requires Inv(s) && !s.mode.Down?
    ensures forall id :: id in s.h.logged ==> id < s.mem.nextId + 1
    ensures s.mem.nextId + 1 !in s.h.installed && s.mem.nextId + 1 !in s.h.committed
  {
    hide Fold, RequestFold, MaxId, Decide, BlobsOk, RidsOk, MarkerOk, MemOk, ModeOk, LockOk, ReservedOk, RequestsOk,
      CallersOk, CoveredOk, OwnersOk, RepliesOk, InstallsOk, ExecOk;
  }

  lemma BeginReserved(s: State, rid: Rid)
    requires Inv(s) && CanBegin(s, rid)
    ensures var t := DoBegin(s, rid); Reserved(t) && Counter(t) && HasBlobs(t) && Marker(t)
  {
    hide Fold, RequestFold, MaxId, Decide, IdsOk, EffectsOk, RidsOk, MemOk, ModeOk, LockOk, RequestsOk, CallersOk,
      CoveredOk, OwnersOk, RepliesOk, InstallsOk, ExecOk, HistoryOk;
    FreshId(s);
  }

  lemma BeginModes(s: State, rid: Rid)
    requires Inv(s) && CanBegin(s, rid)
    ensures var t := DoBegin(s, rid); InMode(t) && Mem(t) && Past(t)
  {
    hide Fold, RequestFold, MaxId, Decide, IdsOk, ReservedOk, BlobsOk, EffectsOk, RidsOk, MarkerOk, LockOk, RequestsOk,
      CallersOk, CoveredOk, OwnersOk, RepliesOk, InstallsOk, ExecOk;
  }

  lemma BeginOwners(s: State, rid: Rid)
    requires Inv(s) && CanBegin(s, rid)
    ensures var t := DoBegin(s, rid); Owners(t) && Execs(t)
  {
    hide Fold, RequestFold, MaxId, Decide, IdsOk, ReservedOk, BlobsOk, EffectsOk, RidsOk, MarkerOk, LockOk, MemOk,
      ModeOk, RequestsOk, CallersOk, CoveredOk, RepliesOk, InstallsOk, HistoryOk;
  }

  lemma SaveBlobKeeps(s: State)
    requires Inv(s) && CanSaveBlob(s)
    ensures Inv(DoSaveBlob(s))
  {
    hide Fold, RequestFold, MaxId, IdsOk, CounterOk, BlobsOk, EffectsOk, RidsOk, MarkerOk, RequestsOk, CallersOk,
      CoveredOk, OwnersOk, RepliesOk, InstallsOk, ExecOk, HistoryOk;
    SaveBlobInstalls(s);
    SaveBlobRecords(s);
  }

  lemma SaveBlobInstalls(s: State)
    requires Inv(s) && CanSaveBlob(s)
    ensures Installs(DoSaveBlob(s))
  {
    hide Fold, RequestFold, MaxId, Decide, Reconstruct, Upsert, IdsOk, CounterOk, ReservedOk, BlobsOk, EffectsOk,
      RidsOk, MarkerOk, LockOk, MemOk, ModeOk, RequestsOk, CallersOk, CoveredOk, OwnersOk, RepliesOk, ExecOk, HistoryOk,
      InstallsOk;
    CarriedByGuard(Fold(s.disk.ops), s.lock, DoSaveBlob(s).lock, s.h.installs, s.h.pruned, s.h.undone);
  }

  lemma SaveBlobRecords(s: State)
    requires Inv(s) && CanSaveBlob(s)
    ensures var t := DoSaveBlob(s); HasBlobs(t) && Marker(t) && Owners(t) && Past(t)
  {
    hide Fold, RequestFold, MaxId, CounterOk, EffectsOk, RidsOk, LockOk, MemOk, ModeOk, RequestsOk, CallersOk,
      CoveredOk, RepliesOk, InstallsOk, ExecOk;
    FoldMember(s.disk.ops);
  }

  lemma LogMarkerKeeps(s: State, ts: nat)
    requires Inv(s) && CanLogMarker(s, ts)
    ensures Inv(DoLogMarker(s, ts))
  {
    hide Fold, RequestFold, MaxId, IdsOk, CounterOk, ReservedOk, BlobsOk, EffectsOk, RidsOk, MarkerOk, LockOk, MemOk,
      ModeOk, RequestsOk, CallersOk, CoveredOk, OwnersOk, RepliesOk, InstallsOk, ExecOk, HistoryOk;
    LogMarkerInstalls(s, ts);
    LogMarkerIds(s, ts);
    LogMarkerRecords(s, ts);
    LogMarkerPast(s, ts);
    LogMarkerRids(s, ts);
    LogMarkerMem(s, ts);
    LogMarkerOwners(s, ts);
  }

  lemma LogMarkerInstalls(s: State, ts: nat)
    requires Inv(s) && CanLogMarker(s, ts)
    ensures Installs(DoLogMarker(s, ts))
  {
    hide Fold, RequestFold, MaxId, Decide, Reconstruct, Upsert, CounterOk, BlobsOk, EffectsOk, RidsOk, MarkerOk, LockOk,
      MemOk, ModeOk, RequestsOk, CallersOk, CoveredOk, OwnersOk, RepliesOk, ExecOk, HistoryOk, InstallsOk;
    var m := s.lock.m;
    var r := MarkerOf(m.id, m.rid, m.plan, ts);
    FoldAppend(s.disk.ops, r);
    CarriedByGuard(Fold(s.disk.ops), s.lock, DoLogMarker(s, ts).lock, s.h.installs, s.h.pruned, s.h.undone);
    CarriedAfterLog(Fold(s.disk.ops), DoLogMarker(s, ts).lock, r, s.h.installs, s.h.pruned, s.h.undone);
  }

  lemma LogMarkerIds(s: State, ts: nat)
    requires Inv(s) && CanLogMarker(s, ts)
    ensures var t := DoLogMarker(s, ts); Ids(t) && Counter(t) && Reserved(t) && Guard(t)
  {
    hide Fold, RequestFold, MaxId, BlobsOk, EffectsOk, RidsOk, MarkerOk, MemOk, ModeOk, RequestsOk, CallersOk,
      CoveredOk, OwnersOk, RepliesOk, InstallsOk, ExecOk, HistoryOk;
    FoldAppend(s.disk.ops, MarkerOf(s.lock.m.id, s.lock.m.rid, s.lock.m.plan, ts));
  }

  lemma LogMarkerRecords(s: State, ts: nat)
    requires Inv(s) && CanLogMarker(s, ts)
    ensures var t := DoLogMarker(s, ts); HasBlobs(t) && Effects(t)
  {
    hide Fold, RequestFold, MaxId, CounterOk, RidsOk, MarkerOk, MemOk, ModeOk, RequestsOk, CallersOk, CoveredOk,
      OwnersOk, RepliesOk, InstallsOk, ExecOk, HistoryOk;
    FoldAppend(s.disk.ops, MarkerOf(s.lock.m.id, s.lock.m.rid, s.lock.m.plan, ts));
  }

  lemma LogMarkerPast(s: State, ts: nat)
    requires Inv(s) && CanLogMarker(s, ts)
    ensures var t := DoLogMarker(s, ts); Marker(t) && Past(t)
  {
    hide Fold, RequestFold, MaxId, CounterOk, BlobsOk, RidsOk, MemOk, ModeOk, RequestsOk, CallersOk, CoveredOk,
      OwnersOk, RepliesOk, InstallsOk, ExecOk;
    FoldAppend(s.disk.ops, MarkerOf(s.lock.m.id, s.lock.m.rid, s.lock.m.plan, ts));
  }

  lemma LogMarkerRids(s: State, ts: nat)
    requires Inv(s) && CanLogMarker(s, ts)
    ensures var t := DoLogMarker(s, ts); Rids(t) && Stored(t)
  {
    hide Fold, RequestFold, MaxId, IdsOk, CounterOk, ReservedOk, BlobsOk, EffectsOk, RidsOk, MarkerOk, LockOk, MemOk,
      ModeOk, RequestsOk, CallersOk, CoveredOk, RepliesOk, InstallsOk, ExecOk, HistoryOk;
    var m := s.lock.m;
    var r := MarkerOf(m.id, m.rid, m.plan, ts);
    FoldAppend(s.disk.ops, r);
    OwnerPending(s, m.rid);
    NoRecordYet(s, m.rid);
    RidsAfterLog(Fold(s.disk.ops), RequestFold(s.disk.reqs), r);
    StoredAfterLog(Fold(s.disk.ops), RequestFold(s.disk.reqs), r);
    StoredAfterLog(Fold(s.disk.ops), s.mem.requests, r);
  }

  lemma LogMarkerMem(s: State, ts: nat)
    requires Inv(s) && CanLogMarker(s, ts)
    ensures var t := DoLogMarker(s, ts); InMode(t) && Mem(t)
  {
    hide Fold, RequestFold, MaxId, CounterOk, BlobsOk, EffectsOk, RidsOk, MarkerOk, LockOk, RequestsOk, CallersOk,
      CoveredOk, OwnersOk, RepliesOk, InstallsOk, ExecOk, HistoryOk;
    var m := s.lock.m;
    FoldAppend(s.disk.ops, MarkerOf(m.id, m.rid, m.plan, ts));
    var table := Fold(s.disk.ops);
    assert m.id !in table;
    assert Live(table) == Live(table[m.id := MarkerOf(m.id, m.rid, m.plan, ts)]) - {m.id};
  }

  lemma LogMarkerOwners(s: State, ts: nat)
    requires Inv(s) && CanLogMarker(s, ts)
    ensures Owners(DoLogMarker(s, ts))
  {
    hide Fold, RequestFold, MaxId, CounterOk, BlobsOk, EffectsOk, RidsOk, MarkerOk, LockOk, RequestsOk, CallersOk,
      CoveredOk, RepliesOk, InstallsOk, ExecOk, HistoryOk;
    FoldAppend(s.disk.ops, MarkerOf(s.lock.m.id, s.lock.m.rid, s.lock.m.plan, ts));
  }

  lemma InstallKeeps(s: State)
    requires Inv(s) && CanInstall(s)
    ensures Inv(DoInstall(s))
  {
    hide Fold, RequestFold, MaxId, IdsOk, CounterOk, BlobsOk, EffectsOk, RidsOk, MarkerOk, RequestsOk, CallersOk,
      CoveredOk, OwnersOk, RepliesOk, InstallsOk, ExecOk, HistoryOk;
    InstallInstalls(s);
    InstallRecords(s);
  }

  /** A mutation about to be installed is not carried yet. */
  lemma InstallInstalls(s: State)
    requires Inv(s) && CanInstall(s)
    ensures Installs(DoInstall(s))
  {
    hide Fold, RequestFold, MaxId, Decide, Reconstruct, Upsert, IdsOk, CounterOk, ReservedOk, BlobsOk, EffectsOk,
      RidsOk, MarkerOk, LockOk, MemOk, ModeOk, RequestsOk, CallersOk, CoveredOk, OwnersOk, RepliesOk, ExecOk, HistoryOk;
    var t := DoInstall(s);
    OnlyMarker(s);
    MarkerNotCarried(s);
    assert forall rid :: rid != s.lock.m.rid ==>
        (Carried(Fold(s.disk.ops), s.lock, rid) <==> Carried(Fold(s.disk.ops), t.lock, rid));
  }

  lemma MarkerNotCarried(s: State)
    requires Inv(s) && s.lock.Durable() && !s.lock.stage.Installed?
    ensures !Carried(Fold(s.disk.ops), s.lock, s.lock.m.rid)
  {
    hide Fold, RequestFold, MaxId, Decide, Reconstruct, Upsert, IdsOk, CounterOk, ReservedOk, BlobsOk, EffectsOk,
      RidsOk, LockOk, MemOk, ModeOk, RequestsOk, CallersOk, CoveredOk, OwnersOk, RepliesOk, ExecOk, HistoryOk,
      InstallsOk;
    OnlyMarker(s);
    var table := Fold(s.disk.ops);
    assert forall id :: id in table && table[id].Fs? && table[id].rid == s.lock.m.rid ==>
        Live1(table, id, s.lock.m.rid);
  }

  lemma InstallRecords(s: State)
    requires Inv(s) && CanInstall(s)
    ensures var t := DoInstall(s); HasBlobs(t) && Marker(t) && Owners(t) && Past(t)
  {
    hide Fold, RequestFold, MaxId, IdsOk, CounterOk, ReservedOk, EffectsOk, RidsOk, LockOk, MemOk, ModeOk, RequestsOk,
      CallersOk, CoveredOk, RepliesOk, InstallsOk, ExecOk;
  }

  lemma CommitKeeps(s: State, ts: nat)
    requires Inv(s) && CanCommit(s, ts)
    ensures Inv(DoCommit(s, ts))
  {
    hide Fold, RequestFold, MaxId, Upsert, IdsOk, CounterOk, ReservedOk, BlobsOk, EffectsOk, RidsOk, MarkerOk, LockOk,
      MemOk, ModeOk, RequestsOk, CallersOk, CoveredOk, OwnersOk, RepliesOk, InstallsOk, ExecOk, HistoryOk;
    CommitInstalls(s, ts);
    CommitIds(s, ts);
    CommitModes(s, ts);
    CommitRecords(s, ts);
    CommitRids(s, ts);
    CommitMem(s, ts);
    CommitOwners(s, ts);
    CommitPast(s, ts);
  }

  lemma CommitInstalls(s: State, ts: nat)
    requires Inv(s) && CanCommit(s, ts)
    ensures Installs(DoCommit(s, ts))
  {
    hide Fold, RequestFold, MaxId, Decide, Reconstruct, Upsert, IdsOk, CounterOk, ReservedOk, BlobsOk, EffectsOk,
      RidsOk, LockOk, MemOk, ModeOk, RequestsOk, CallersOk, CoveredOk, OwnersOk, RepliesOk, ExecOk, HistoryOk,
      InstallsOk;
    var m := s.lock.m;
    var r := CommitOf(m.id, m.rid, m.plan, ts);
    FoldAppend(s.disk.ops, r);
    CarriedAfterCommit(Fold(s.disk.ops), s.lock, r, s.h.installs, s.h.pruned, s.h.undone);
  }

  /** The install the guard carried is now carried by the log. */
  lemma CarriedAfterCommit(table: Table, lock: Lock, r: Record, installs: multiset<Rid>, pruned: multiset<Rid>,
                           undone: multiset<Rid>)
    requires InstallsOk(table, lock, installs, pruned, undone)
    requires lock.Held? && r.Fs? && r.rid == lock.m.rid && (r.id in table ==> !table[r.id].Fs?)
    ensures InstallsOk(table[r.id := r], Free, installs, pruned, undone)
  {
    var after := table[r.id := r];
    assert after[r.id].Fs? && r.rid in FileRids(after);
    assert FileRids(table) <= FileRids(after) by {
      assert forall id :: id in table && table[id].Fs? ==> id in after && after[id] == table[id];
    }
    assert forall rid :: Carried(table, lock, rid) ==> Carried(after, Free, rid);
  }

  lemma CommitIds(s: State, ts: nat)
    requires Inv(s) && CanCommit(s, ts)
    ensures var t := DoCommit(s, ts); Ids(t) && Counter(t) && Reserved(t) && Guard(t)
  {
    hide Fold, RequestFold, MaxId, Upsert, BlobsOk, RidsOk, MemOk, RequestsOk, CallersOk, CoveredOk, RepliesOk,
      InstallsOk, HistoryOk;
    FoldAppend(s.disk.ops, CommitOf(s.lock.m.id, s.lock.m.rid, s.lock.m.plan, ts));
    assert s.lock.m.id in Fold(s.disk.ops);
  }

  lemma CommitModes(s: State, ts: nat)
    requires Inv(s) && CanCommit(s, ts)
    ensures var t := DoCommit(s, ts); InMode(t) && Execs(t)
  {
    hide Fold, RequestFold, MaxId, Upsert, IdsOk, CounterOk, ReservedOk, BlobsOk, EffectsOk, RidsOk, MarkerOk, LockOk,
      MemOk, RequestsOk, CallersOk, CoveredOk, InstallsOk, RepliesOk, HistoryOk;
    FoldAppend(s.disk.ops, CommitOf(s.lock.m.id, s.lock.m.rid, s.lock.m.plan, ts));
  }

  lemma CommitRecords(s: State, ts: nat)
    requires Inv(s) && CanCommit(s, ts)
    ensures var t := DoCommit(s, ts); HasBlobs(t) && Effects(t) && Marker(t)
  {
    hide Fold, RequestFold, MaxId, Upsert, IdsOk, CounterOk, RidsOk, LockOk, MemOk, ModeOk, RequestsOk, CallersOk,
      CoveredOk, OwnersOk, RepliesOk, InstallsOk, ExecOk;
    FoldAppend(s.disk.ops, CommitOf(s.lock.m.id, s.lock.m.rid, s.lock.m.plan, ts));
  }

  /** The marker's request has no other live record. */
  lemma OnlyMarker(s: State)
    requires Rids(s) && Marker(s) && Effects(s) && s.lock.Durable()
    ensures forall id :: Live1(Fold(s.disk.ops), id, s.lock.m.rid) ==> id == s.lock.m.id
  {
    hide Fold, RequestFold;
  }

  lemma CommitRids(s: State, ts: nat)
    requires Inv(s) && CanCommit(s, ts)
    ensures var t := DoCommit(s, ts); Rids(t) && Stored(t)
  {
    hide Fold, RequestFold, MaxId, Upsert, IdsOk, CounterOk, ReservedOk, BlobsOk, EffectsOk, RidsOk, MarkerOk, LockOk,
      MemOk, ModeOk, RequestsOk, CallersOk, CoveredOk, RepliesOk, InstallsOk, ExecOk, HistoryOk;
    var m := s.lock.m;
    var r := CommitOf(m.id, m.rid, m.plan, ts);
    FoldAppend(s.disk.ops, r);
    OwnerPending(s, m.rid);
    OnlyMarker(s);
    RidsAfterLog(Fold(s.disk.ops), RequestFold(s.disk.reqs), r);
    StoredAfterLog(Fold(s.disk.ops), RequestFold(s.disk.reqs), r);
    StoredAfterLog(Fold(s.disk.ops), s.mem.requests, r);
  }

  /** The table in memory after replacing or pushing a record, against the log after appending it. */
  lemma LiveAfterUpsert(table: Table, records: seq<Record>, r: Record)
    requires Distinct(records) && !r.Aborted?
    requires Live(Fold(records)) == Live(table) || Live(Fold(records)) == Live(table) - {r.id}
    ensures Distinct(Upsert(records, r))
    ensures Live(Fold(Upsert(records, r))) == Live(table[r.id := r])
  {
    hide Fold, Upsert;
    FoldUpsert(records, r);
    var a := Live(Fold(records)[r.id := r]);
    var b := Live(table[r.id := r]);
    forall id ensures id in a <==> id in b {
      assert id != r.id ==> (id in a <==> id in Live(Fold(records)));
      assert id != r.id ==> (id in b <==> id in Live(table));
    }
    forall id | id in a && id != r.id ensures a[id] == b[id] {
      assert a[id] == Live(Fold(records))[id] && b[id] == Live(table)[id];
    }
  }

  lemma CommitMem(s: State, ts: nat)
    requires Inv(s) && CanCommit(s, ts)
    ensures var t := DoCommit(s, ts); Mem(t) && Covered(t)
  {
    hide Fold, RequestFold, MaxId, Upsert, Live, IdsOk, CounterOk, ReservedOk, BlobsOk, EffectsOk, RidsOk, MarkerOk,
      LockOk, RequestsOk, CallersOk, ModeOk, RepliesOk, InstallsOk, ExecOk, HistoryOk;
    var m := s.lock.m;
    var r := CommitOf(m.id, m.rid, m.plan, ts);
    FoldAppend(s.disk.ops, r);
    OwnerPending(s, m.rid);
    LiveAfterUpsert(Fold(s.disk.ops), s.mem.records, r);
    FoldUpsert(s.mem.records, r);
    UpsertElements(s.mem.records, r);
  }

  lemma CommitOwners(s: State, ts: nat)
    requires Inv(s) && CanCommit(s, ts)
    ensures Owners(DoCommit(s, ts))
  {
    hide Fold, RequestFold, MaxId, Upsert, Reconstruct, ReplyTo, IdsOk, CounterOk, ReservedOk, BlobsOk, EffectsOk,
      RidsOk, MemOk, RequestsOk, CallersOk, CoveredOk, ModeOk, RepliesOk, InstallsOk, ExecOk, HistoryOk;
    var m := s.lock.m;
    FoldAppend(s.disk.ops, CommitOf(m.id, m.rid, m.plan, ts));
    CommitReply(m, s.ws, ts);
    OnlyMarker(s);
  }

  lemma CommitPast(s: State, ts: nat)
    requires Inv(s) && CanCommit(s, ts)
    ensures Past(DoCommit(s, ts))
  {
    hide Fold, RequestFold, MaxId, Upsert, IdsOk, CounterOk, ReservedOk, BlobsOk, RidsOk, MemOk, RequestsOk, CallersOk,
      CoveredOk, ModeOk, RepliesOk, InstallsOk, ExecOk, OwnersOk;
    FoldAppend(s.disk.ops, CommitOf(s.lock.m.id, s.lock.m.rid, s.lock.m.plan, ts));
  }

  // ---- commands and transfers ----

  lemma StartExecKeeps(s: State, rid: Rid)
    requires Inv(s) && CanStartExec(s, rid)
    ensures Inv(DoStartExec(s, rid))
  {
    hide Fold, RequestFold, MaxId, IdsOk, ReservedOk, BlobsOk, EffectsOk, RidsOk, MarkerOk, LockOk, MemOk, RequestsOk,
      CallersOk, CoveredOk, OwnersOk, RepliesOk, InstallsOk, ExecOk, HistoryOk;
    StartExecReserved(s, rid);
    StartExecOwners(s, rid);
  }

  lemma StartExecReserved(s: State, rid: Rid)
    requires Inv(s) && CanStartExec(s, rid)
    ensures Reserved(DoStartExec(s, rid))
  {
    hide Fold, RequestFold, MaxId, BlobsOk, RidsOk, LockOk, MemOk, RequestsOk, ModeOk, CallersOk, CoveredOk, OwnersOk,
      RepliesOk, InstallsOk, ExecOk, HistoryOk;
    FreshId(s);
  }

  lemma StartExecOwners(s: State, rid: Rid)
    requires Inv(s) && CanStartExec(s, rid)
    ensures var t := DoStartExec(s, rid); Owners(t) && Execs(t)
  {
    hide Fold, RequestFold, MaxId, IdsOk, ReservedOk, BlobsOk, EffectsOk, RidsOk, LockOk, MemOk, RequestsOk, ModeOk,
      CallersOk, CoveredOk, RepliesOk, InstallsOk, HistoryOk;
  }

  lemma SpawnKeeps(s: State, rid: Rid)
    requires Inv(s) && CanSpawn(s, rid)
    ensures Inv(DoSpawn(s, rid))
  {
    hide Fold, RequestFold, MaxId, IdsOk, ReservedOk, BlobsOk, EffectsOk, RidsOk, MarkerOk, LockOk, MemOk, RequestsOk,
      CallersOk, CoveredOk, OwnersOk, RepliesOk, InstallsOk, ExecOk, HistoryOk;
    SpawnReserved(s, rid);
    SpawnExecs(s, rid);
  }

  lemma SpawnReserved(s: State, rid: Rid)
    requires Inv(s) && CanSpawn(s, rid)
    ensures var t := DoSpawn(s, rid); Reserved(t) && Owners(t)
  {
    hide Fold, RequestFold, MaxId, IdsOk, BlobsOk, EffectsOk, RidsOk, MarkerOk, LockOk, MemOk, RequestsOk, CallersOk,
      CoveredOk, RepliesOk, InstallsOk, ExecOk, HistoryOk;
  }

  lemma SpawnExecs(s: State, rid: Rid)
    requires Inv(s) && CanSpawn(s, rid)
    ensures Execs(DoSpawn(s, rid))
  {
    hide Fold, RequestFold, MaxId, IdsOk, ReservedOk, BlobsOk, EffectsOk, RidsOk, MarkerOk, LockOk, MemOk, CallersOk,
      CoveredOk, RepliesOk, InstallsOk, HistoryOk;
    OwnerPending(s, rid);
  }

  /** What appending a finished command's or transfer's record asks of the state. */
  ghost predicate Recordable(s: State, r: Record, reply: StoredResult) {
    && s.mode.Serving? && (r.Exec? || r.Transfer?)
    && r.rid in s.owners && !s.owners[r.rid].Answering?
    && (s.lock.Held? ==> s.lock.m.rid != r.rid && s.lock.m.id != r.id)
    && (forall rid :: rid in s.owners && rid != r.rid && s.owners[rid].Running? ==> s.owners[rid].id != r.id)
    && r.id <= s.mem.nextId && r.id !in s.h.logged
    && Wire(r.rid, reply) == Reconstruct(r)
  }

  lemma LogRecordKeeps(s: State, r: Record, reply: StoredResult)
    requires Inv(s) && Recordable(s, r, reply)
    ensures Inv(LogRecord(s, r, reply))
  {
    hide Fold, RequestFold, MaxId, IdsOk, CounterOk, ReservedOk, BlobsOk, EffectsOk, RidsOk, MarkerOk, LockOk, MemOk,
      ModeOk, RequestsOk, CallersOk, CoveredOk, OwnersOk, RepliesOk, InstallsOk, ExecOk, HistoryOk,
      Recordable;
    LogRecordInstalls(s, r, reply);
    LogRecordIds(s, r, reply);
    LogRecordTables(s, r, reply);
    LogRecordRids(s, r, reply);
    LogRecordMem(s, r, reply);
    LogRecordOwners(s, r, reply);
    LogRecordExecs(s, r, reply);
  }

  lemma LogRecordInstalls(s: State, r: Record, reply: StoredResult)
    requires Inv(s) && Recordable(s, r, reply)
    ensures Installs(LogRecord(s, r, reply))
  {
    hide Fold, RequestFold, MaxId, Decide, Reconstruct, Upsert, CounterOk, ReservedOk, BlobsOk, EffectsOk, RidsOk,
      MarkerOk, LockOk, MemOk, ModeOk, RequestsOk, CallersOk, CoveredOk, OwnersOk, RepliesOk, ExecOk, HistoryOk,
      InstallsOk;
    FoldAppend(s.disk.ops, r);
    CarriedAfterLog(Fold(s.disk.ops), s.lock, r, s.h.installs, s.h.pruned, s.h.undone);
  }

  lemma LogRecordIds(s: State, r: Record, reply: StoredResult)
    requires Inv(s) && Recordable(s, r, reply)
    ensures var t := LogRecord(s, r, reply); Ids(t) && Counter(t) && Reserved(t)
  {
    hide Fold, RequestFold, MaxId, BlobsOk, EffectsOk, RidsOk, MarkerOk, LockOk, MemOk, ModeOk, RequestsOk, CallersOk,
      CoveredOk, OwnersOk, RepliesOk, InstallsOk, ExecOk, HistoryOk, Reconstruct;
    FoldAppend(s.disk.ops, r);
  }

  lemma LogRecordTables(s: State, r: Record, reply: StoredResult)
    requires Inv(s) && Recordable(s, r, reply)
    ensures var t := LogRecord(s, r, reply); HasBlobs(t) && Effects(t) && Marker(t) && Past(t)
  {
    hide Fold, RequestFold, MaxId, CounterOk, ReservedOk, RidsOk, LockOk, MemOk, ModeOk, RequestsOk, CallersOk,
      CoveredOk, OwnersOk, RepliesOk, InstallsOk, ExecOk, Reconstruct;
    FoldAppend(s.disk.ops, r);
  }

  lemma LogRecordRids(s: State, r: Record, reply: StoredResult)
    requires Inv(s) && Recordable(s, r, reply)
    ensures var t := LogRecord(s, r, reply); Rids(t) && Stored(t)
  {
    hide Fold, RequestFold, MaxId, IdsOk, CounterOk, ReservedOk, BlobsOk, EffectsOk, RidsOk, MarkerOk, LockOk, MemOk,
      ModeOk, RequestsOk, CallersOk, CoveredOk, OwnersOk, RepliesOk, InstallsOk, ExecOk, HistoryOk,
      Reconstruct;
    FoldAppend(s.disk.ops, r);
    OwnerPending(s, r.rid);
    NoRecordYet(s, r.rid);
    RidsAfterLog(Fold(s.disk.ops), RequestFold(s.disk.reqs), r);
    StoredAfterLog(Fold(s.disk.ops), RequestFold(s.disk.reqs), r);
    StoredAfterLog(Fold(s.disk.ops), s.mem.requests, r);
  }

  lemma PushIsUpsert(records: seq<Record>, r: Record)
    requires Distinct(records) && r.id !in Fold(records)
    ensures Distinct(records + [r]) && Fold(records + [r]) == Fold(records)[r.id := r]
  {
    hide Fold;
    FoldAppend(records, r);
    FoldIsElements(records);
  }

  /** Adding a record under a new id to both sides keeps them in step, whatever id is set aside. */
  lemma LiveAfterPush(table: Table, part: Table, r: Record, aside: set<nat>)
    requires !r.Aborted? && Live(part) == Live(table) - aside && r.id !in aside
    ensures Live(part[r.id := r]) == Live(table[r.id := r]) - aside
  {
    var a := Live(part[r.id := r]);
    var b := Live(table[r.id := r]) - aside;
    forall id ensures id in a <==> id in b {
      assert id != r.id ==> (id in a <==> id in Live(part));
      assert id != r.id ==> (id in b <==> id in Live(table) - aside);
    }
    forall id | id in a && id != r.id ensures a[id] == b[id] {
      assert a[id] == Live(part)[id] && b[id] == (Live(table) - aside)[id];
    }
  }

  lemma LogRecordMem(s: State, r: Record, reply: StoredResult)
    requires Inv(s) && Recordable(s, r, reply)
    ensures var t := LogRecord(s, r, reply); InMode(t) && Mem(t) && Covered(t)
  {
    hide Fold, RequestFold, MaxId, Live, CounterOk, ReservedOk, BlobsOk, EffectsOk, RidsOk, LockOk, RequestsOk,
      CallersOk, OwnersOk, RepliesOk, InstallsOk, ExecOk, HistoryOk, Reconstruct;
    FoldAppend(s.disk.ops, r);
    OwnerPending(s, r.rid);
    PushIsUpsert(s.mem.records, r);
    var aside := if s.lock.Durable() then {s.lock.m.id} else {};
    assert Live(Fold(s.disk.ops)) - {} == Live(Fold(s.disk.ops));
    LiveAfterPush(Fold(s.disk.ops), Fold(s.mem.records), r, aside);
    assert Live(Fold(s.disk.ops)[r.id := r]) - {} == Live(Fold(s.disk.ops)[r.id := r]);
  }

  lemma LogRecordOwners(s: State, r: Record, reply: StoredResult)
    requires Inv(s) && Recordable(s, r, reply)
    ensures Owners(LogRecord(s, r, reply))
  {
    hide Fold, RequestFold, MaxId, IdsOk, CounterOk, ReservedOk, BlobsOk, RidsOk, LockOk, MemOk, ModeOk, RequestsOk,
      CallersOk, CoveredOk, RepliesOk, InstallsOk, ExecOk, HistoryOk, Reconstruct;
    FoldAppend(s.disk.ops, r);
    NoRecordYet(s, r.rid);
  }

  lemma LogRecordExecs(s: State, r: Record, reply: StoredResult)
    requires Inv(s) && Recordable(s, r, reply)
    ensures Execs(LogRecord(s, r, reply))
  {
    hide Fold, RequestFold, MaxId, IdsOk, CounterOk, ReservedOk, BlobsOk, EffectsOk, RidsOk, MarkerOk, LockOk, MemOk,
      ModeOk, RequestsOk, CallersOk, CoveredOk, OwnersOk, RepliesOk, InstallsOk, HistoryOk, Reconstruct;
  }

  lemma EndExecKeeps(s: State, rid: Rid, o: ExecOutcome, msg: string, ts: nat)
    requires Inv(s) && CanEndExec(s, rid, o, msg, ts)
    ensures Inv(DoEndExec(s, rid, o, msg, ts))
  {
    hide Fold, RequestFold, MaxId, IdsOk, CounterOk, BlobsOk, EffectsOk, RidsOk, MarkerOk, LockOk, MemOk, ModeOk,
      RequestsOk, CallersOk, CoveredOk, RepliesOk, InstallsOk, ExecOk, HistoryOk, Reconstruct;
    var id := s.owners[rid].id;
    ExecReplySurvives(id, rid, o, msg, ts);
    LogRecordKeeps(s, Exec(id, rid, ExecDataOf(o, msg), ts), ExecReply(id, rid, o));
  }

  /** Handing out an id keeps everything. */
  lemma NextIdKeeps(s: State)
    requires Inv(s) && !s.mode.Down? && !s.mode.Pruning?
    ensures Inv(s.(mem := s.mem.(nextId := s.mem.nextId + 1)))
  {
    hide Fold, RequestFold, MaxId, IdsOk, BlobsOk, EffectsOk, RidsOk, MarkerOk, LockOk, MemOk, ModeOk, RequestsOk,
      CallersOk, CoveredOk, OwnersOk, RepliesOk, InstallsOk, ExecOk, HistoryOk;
  }

  lemma LogTransferKeeps(s: State, rid: Rid, data: TransferData, ts: nat)
    requires Inv(s) && CanLogTransfer(s, rid, data, ts)
    ensures Inv(DoLogTransfer(s, rid, data, ts))
  {
    hide Fold, RequestFold, MaxId, IdsOk, CounterOk, BlobsOk, EffectsOk, RidsOk, MarkerOk, LockOk, MemOk, ModeOk,
      RequestsOk, CallersOk, CoveredOk, RepliesOk, InstallsOk, ExecOk, HistoryOk, OwnersOk;
    var id := s.mem.nextId + 1;
    FreshId(s);
    NextIdKeeps(s);
    LogRecordKeeps(s.(mem := s.mem.(nextId := id)), Transfer(id, rid, data, ts),
        StoredDone(ResultMsg(rid, TransferBody(id, data))));
  }

  // ---- answers ----

  lemma AnswerKeeps(s: State, rid: Rid, reply: StoredResult)
    requires Inv(s) && CanAnswer(s, rid, reply)
    ensures Inv(DoAnswer(s, rid, reply))
  {
    hide Fold, RequestFold, MaxId, IdsOk, CounterOk, BlobsOk, EffectsOk, RidsOk, MarkerOk, LockOk, MemOk, RequestsOk,
      CallersOk, CoveredOk, OwnersOk, RepliesOk, InstallsOk, HistoryOk;
    AnswerOwners(s, rid, reply);
  }

  lemma AnswerOwners(s: State, rid: Rid, reply: StoredResult)
    requires Inv(s) && CanAnswer(s, rid, reply)
    ensures Owners(DoAnswer(s, rid, reply))
  {
    hide Fold, RequestFold, MaxId, IdsOk, CounterOk, BlobsOk, RidsOk, LockOk, MemOk, RequestsOk, CallersOk, CoveredOk,
      RepliesOk, InstallsOk, HistoryOk;
    NoRecordYet(s, rid);
  }

  lemma RememberKeeps(s: State, rid: Rid)
    requires Inv(s) && CanRemember(s, rid)
    ensures Inv(DoRemember(s, rid))
  {
    hide Fold, RequestFold, MaxId, IdsOk, CounterOk, ReservedOk, BlobsOk, EffectsOk, RidsOk, MarkerOk, LockOk, MemOk,
      ModeOk, RequestsOk, CallersOk, CoveredOk, OwnersOk, RepliesOk, InstallsOk, ExecOk, HistoryOk;
    RememberRids(s, rid);
    RememberOwners(s, rid);
    RememberStored(s, rid);
    RememberEntries(s, rid);
    RememberCallers(s, rid);
    RememberExecs(s, rid);
  }

  lemma RememberRids(s: State, rid: Rid)
    requires Inv(s) && CanRemember(s, rid)
    ensures Rids(DoRemember(s, rid))
  {
    hide Fold, RequestFold, MaxId, IdsOk, CounterOk, ReservedOk, BlobsOk, EffectsOk, MarkerOk, LockOk, MemOk, ModeOk,
      RequestsOk, CallersOk, CoveredOk, RepliesOk, InstallsOk, ExecOk, HistoryOk;
    RequestFoldAppend(s.disk.reqs, LineOf(rid, Terminal(s.owners[rid].reply)));
    assert forall id :: Live1(Fold(s.disk.ops), id, rid) ==> Fold(s.disk.ops)[id].IsCommitted();
  }

  lemma RememberOwners(s: State, rid: Rid)
    requires Inv(s) && CanRemember(s, rid)
    ensures var t := DoRemember(s, rid); Reserved(t) && InMode(t) && Owners(t) && Covered(t)
  {
    hide Fold, RequestFold, MaxId, IdsOk, CounterOk, BlobsOk, EffectsOk, RidsOk, MarkerOk, LockOk, MemOk, RequestsOk,
      CallersOk, RepliesOk, InstallsOk, ExecOk, HistoryOk;
  }

  lemma RememberStored(s: State, rid: Rid)
    requires Inv(s) && CanRemember(s, rid)
    ensures Stored(DoRemember(s, rid))
  {
    hide Fold, RequestFold, MaxId, IdsOk, CounterOk, ReservedOk, BlobsOk, EffectsOk, RidsOk, MarkerOk, LockOk, MemOk,
      ModeOk, RequestsOk, CallersOk, CoveredOk, InstallsOk, ExecOk, HistoryOk, Reconstruct;
    var reply := s.owners[rid].reply;
    RequestFoldAppend(s.disk.reqs, LineOf(rid, Terminal(reply)));
    StoredAfterAnswer(Fold(s.disk.ops), RequestFold(s.disk.reqs), rid, reply);
    StoredAfterAnswer(Fold(s.disk.ops), s.mem.requests, rid, reply);
  }

  /** Storing an answer that agrees with the request's record keeps stored answers and records in agreement. */
  lemma StoredAfterAnswer(table: Table, entries: Answers, rid: Rid, reply: StoredResult)
    requires RepliesOk(table, entries)
    requires forall id :: Live1(table, id, rid) ==>
        table[id].IsCommitted() && Wire(rid, reply) == Reconstruct(table[id])
    ensures RepliesOk(table, entries[rid := Terminal(reply)])
  {
    hide Reconstruct;
    assert forall id :: id in table && table[id].IsCommitted() && table[id].rid == rid ==> Live1(table, id, rid);
  }

  lemma RememberEntries(s: State, rid: Rid)
    requires Inv(s) && CanRemember(s, rid)
    ensures Requests(DoRemember(s, rid))
  {
    hide Fold, RequestFold, MaxId, IdsOk, CounterOk, ReservedOk, BlobsOk, EffectsOk, RidsOk, MarkerOk, LockOk, MemOk,
      ModeOk, CallersOk, CoveredOk, OwnersOk, RepliesOk, InstallsOk, ExecOk, HistoryOk, LineOf;
    var reply := s.owners[rid].reply;
    EntryOfLineOf(rid, Terminal(reply));
    RequestFoldAppend(s.disk.reqs, LineOf(rid, Terminal(reply)));
    OwnerPending(s, rid);
  }

  lemma RememberCallers(s: State, rid: Rid)
    requires Inv(s) && CanRemember(s, rid)
    ensures Callers(DoRemember(s, rid))
  {
    hide Fold, RequestFold, MaxId, IdsOk, CounterOk, ReservedOk, BlobsOk, EffectsOk, RidsOk, MarkerOk, LockOk, MemOk,
      ModeOk, RequestsOk, CoveredOk, OwnersOk, RepliesOk, InstallsOk, ExecOk, HistoryOk, LineOf;
    var reply := s.owners[rid].reply;
    EntryOfLineOf(rid, Terminal(reply));
    RequestFoldAppend(s.disk.reqs, LineOf(rid, Terminal(reply)));
  }

  lemma RememberExecs(s: State, rid: Rid)
    requires Inv(s) && CanRemember(s, rid)
    ensures Execs(DoRemember(s, rid))
  {
    hide Fold, RequestFold, MaxId, IdsOk, CounterOk, ReservedOk, BlobsOk, EffectsOk, RidsOk, MarkerOk, LockOk, MemOk,
      CoveredOk, OwnersOk, RepliesOk, HistoryOk;
    RequestFoldAppend(s.disk.reqs, LineOf(rid, Terminal(s.owners[rid].reply)));
    OwnerPending(s, rid);
  }

  /** Somebody else writes a file while no mutation is running, or while the server is down. */
  lemma TouchKeeps(s: State, key: string, content: Option<Bytes>)
    requires Inv(s) && CanTouch(s, key, content)
    ensures Inv(DoTouch(s, key, content))
  {
    hide Fold, RequestFold, MaxId, IdsOk, CounterOk, EffectsOk, RidsOk, RequestsOk, CallersOk, CoveredOk, RepliesOk,
      InstallsOk, ExecOk;
    CarriedByGuard(Fold(s.disk.ops), s.lock, DoTouch(s, key, content).lock, s.h.installs, s.h.pruned, s.h.undone);
  }
}
