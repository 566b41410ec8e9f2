/** Crash, load and every step of startup recovery keep the invariant. */
module RecoveryProofs {
  import opened Prelude
  import opened Protocol
  import opened Tables
  import opened Replies
  import opened Plans
  import opened Machine
  import opened Invariant
  import opened ServingProofs

  lemma CrashKeeps(s: State)
    requires Inv(s) && CanCrash(s)
    ensures Inv(DoCrash(s))
  {
    hide Fold, RequestFold, MaxId, IdsOk, BlobsOk, EffectsOk, RidsOk, MarkerOk, LockOk, RequestsOk, OwnersOk, RepliesOk,
      InstallsOk, ExecOk, HistoryOk;
    CarriedByGuard(Fold(s.disk.ops), s.lock, DoCrash(s).lock, s.h.installs, s.h.pruned, s.h.undone);
    CrashGuard(s);
    CrashOwners(s);
  }

  lemma CrashGuard(s: State)
    requires Inv(s) && CanCrash(s)
    ensures var t := DoCrash(s); HasBlobs(t) && Marker(t) && Guard(t) && Past(t)
  {
    hide Fold, RequestFold, MaxId, IdsOk, ReservedOk, RidsOk, MemOk, ModeOk, CallersOk, CoveredOk, RequestsOk, OwnersOk,
      RepliesOk, InstallsOk, ExecOk;
  }

  lemma CrashOwners(s: State)
    requires Inv(s) && CanCrash(s)
    ensures var t := DoCrash(s); Requests(t) && Owners(t) && Execs(t)
  {
    hide Fold, RequestFold, MaxId, IdsOk, ReservedOk, BlobsOk, EffectsOk, RidsOk, MarkerOk, LockOk, MemOk, ModeOk,
      CallersOk, CoveredOk, RepliesOk, InstallsOk, HistoryOk;
  }

  lemma LoadKeeps(s: State, order: seq<Record>)
    requires Inv(s) && CanLoad(s, order)
    ensures Inv(DoLoad(s, order))
  {
    hide Fold, RequestFold, MaxId, IdsOk, ReservedOk, BlobsOk, EffectsOk, RidsOk, MarkerOk, LockOk, MemOk, ModeOk,
      RequestsOk, CallersOk, CoveredOk, OwnersOk, RepliesOk, InstallsOk, ExecOk, HistoryOk, Markers;
    LoadModes(s, order);
    LoadTables(s, order);
    LoadRest(s, order);
  }

  /** The markers a load finds are exactly the unresolved mutation's, if there is one. */
  lemma LoadMarkers(s: State, order: seq<Record>)
    requires Marker(s) && Enumerates(order, Fold(s.disk.ops))
    ensures Markers(order) == if s.lock.Durable() then [Fold(s.disk.ops)[s.lock.m.id]] else []
  {
    hide Fold, Markers;
    MarkersElements(order);
    FoldIsElements(order);
    var found := Markers(order);
    if s.lock.Durable() {
      var p := Fold(s.disk.ops)[s.lock.m.id];
      FoldMember(order);
      assert p in found;
      assert forall r :: r in found ==> r == p;
      AllAlike(found, p);
    } else {
      NonemptyHas(found);
    }
  }

  lemma AllAlike(found: seq<Record>, p: Record)
    ensures |found| > 1 && (forall r :: r in found ==> r == p) ==> !Distinct(found)
  {
    if |found| > 1 && (forall r :: r in found ==> r == p) {
      assert found[0] in found && found[1] in found;
    }
  }

  lemma NonemptyHas(found: seq<Record>)
    ensures found != [] ==> exists r :: r in found
  {
    if found != [] {
      assert found[0] in found;
    }
  }

  lemma LoadModes(s: State, order: seq<Record>)
    requires Inv(s) && CanLoad(s, order)
    ensures var t := DoLoad(s, order); InMode(t) && Guard(t) && Owners(t) && Reserved(t) && Counter(t)
  {
    hide Fold, RequestFold, MaxId, IdsOk, BlobsOk, EffectsOk, RidsOk, MemOk, RequestsOk, CallersOk, CoveredOk,
      RepliesOk, InstallsOk, ExecOk, HistoryOk, Markers;
    LoadMarkers(s, order);
  }

  lemma LoadTables(s: State, order: seq<Record>)
    requires Inv(s) && CanLoad(s, order)
    ensures var t := DoLoad(s, order); Mem(t) && Covered(t)
  {
    hide Fold, RequestFold, MaxId, IdsOk, BlobsOk, EffectsOk, LockOk, MarkerOk, ModeOk, RequestsOk, CallersOk,
      RepliesOk, InstallsOk, ExecOk, HistoryOk, Markers, OwnersOk, ReservedOk;
    FoldIsElements(order);
  }

  lemma LoadRest(s: State, order: seq<Record>)
    requires Inv(s) && CanLoad(s, order)
    ensures var t := DoLoad(s, order); Requests(t) && Callers(t) && Stored(t) && Execs(t)
  {
    hide Fold, RequestFold, MaxId, IdsOk, BlobsOk, EffectsOk, RidsOk, LockOk, MarkerOk, MemOk, CoveredOk, InstallsOk,
      HistoryOk, Markers, OwnersOk, ReservedOk;
  }

  lemma MarkersDoneKeeps(s: State)
    requires Inv(s) && CanMarkersDone(s)
    ensures Inv(DoMarkersDone(s))
  {
    hide Fold, RequestFold, MaxId, StuckRids, IdsOk, ReservedOk, BlobsOk, EffectsOk, RidsOk, MarkerOk, CallersOk,
      InstallsOk, RepliesOk, HistoryOk;
  }

  lemma OpenKeeps(s: State)
    requires Inv(s) && CanOpen(s)
    ensures Inv(DoOpen(s))
  {
    hide Fold, RequestFold, MaxId, StuckRids, IdsOk, ReservedOk, BlobsOk, EffectsOk, RidsOk, MarkerOk, CallersOk,
      InstallsOk, RepliesOk, HistoryOk;
  }

  // ---- recorded answers ----

  lemma TellKeeps(s: State)
    requires Inv(s) && CanTell(s)
    ensures Inv(DoTell(s))
  {
    hide Fold, RequestFold, MaxId, IdsOk, ReservedOk, BlobsOk, EffectsOk, RidsOk, MarkerOk, LockOk, MemOk, ModeOk,
      RequestsOk, CallersOk, CoveredOk, OwnersOk, RepliesOk, InstallsOk, ExecOk, HistoryOk;
    TellRids(s);
    TellModes(s);
    TellEntries(s);
    TellStored(s);
  }

  lemma TellRids(s: State)
    requires Inv(s) && CanTell(s)
    ensures Rids(DoTell(s))
  {
    hide Fold, RequestFold, MaxId, IdsOk, ReservedOk, BlobsOk, EffectsOk, LockOk, MemOk, RequestsOk, CallersOk,
      CoveredOk, OwnersOk, RepliesOk, InstallsOk, ExecOk, HistoryOk;
    RequestFoldAppend(s.disk.reqs, LineOf(s.mode.rid, Terminal(s.mode.reply)));
    assert forall id :: Live1(Fold(s.disk.ops), id, s.mode.rid) ==> Fold(s.disk.ops)[id].IsCommitted();
  }

  lemma TellModes(s: State)
    requires Inv(s) && CanTell(s)
    ensures var t := DoTell(s); InMode(t) && Guard(t) && Mem(t) && Owners(t) && Covered(t) && Counter(t)
  {
    hide Fold, RequestFold, MaxId, IdsOk, ReservedOk, BlobsOk, EffectsOk, RidsOk, RequestsOk, CallersOk, RepliesOk,
      InstallsOk, ExecOk, HistoryOk;
    RequestFoldAppend(s.disk.reqs, LineOf(s.mode.rid, Terminal(s.mode.reply)));
  }

  lemma TellEntries(s: State)
    requires Inv(s) && CanTell(s)
    ensures var t := DoTell(s); Requests(t) && Callers(t) && Execs(t)
  {
    hide Fold, RequestFold, MaxId, IdsOk, ReservedOk, BlobsOk, EffectsOk, RidsOk, MarkerOk, LockOk, MemOk, CoveredOk,
      OwnersOk, RepliesOk, InstallsOk, HistoryOk;
    RequestFoldAppend(s.disk.reqs, LineOf(s.mode.rid, Terminal(s.mode.reply)));
  }

  lemma TellStored(s: State)
    requires Inv(s) && CanTell(s)
    ensures Stored(DoTell(s))
  {
    hide Fold, RequestFold, MaxId, IdsOk, ReservedOk, BlobsOk, EffectsOk, RidsOk, MarkerOk, LockOk, MemOk, RequestsOk,
      CallersOk, CoveredOk, OwnersOk, RepliesOk, InstallsOk, ExecOk, HistoryOk, Reconstruct;
    RequestFoldAppend(s.disk.reqs, LineOf(s.mode.rid, Terminal(s.mode.reply)));
    StoredAfterAnswer(Fold(s.disk.ops), RequestFold(s.disk.reqs), s.mode.rid, s.mode.reply);
    StoredAfterAnswer(Fold(s.disk.ops), s.mem.requests, s.mode.rid, s.mode.reply);
  }

  // ---- stuck requests ----

  /** A stuck request with a record is answered from it; the record is the request's only one. */
  lemma VerdictFacts(s: State, rid: Rid)
    requires Inv(s) && CanUnstick(s, rid)
    ensures IsPending(s.mem.requests[rid]) && rid in RequestFold(s.disk.reqs)
    ensures IsPending(RequestFold(s.disk.reqs)[rid])
    ensures rid in s.h.requestOf && s.mem.requests[rid].op == Some(s.h.requestOf[rid].Op())
    ensures var v := StuckVerdict(s.mem.records, rid, s.mem.requests[rid]);
      if v.Some? then forall id :: Live1(Fold(s.disk.ops), id, rid) ==>
                        Fold(s.disk.ops)[id].IsCommitted() && Wire(rid, v.value) == Reconstruct(Fold(s.disk.ops)[id])
      else !s.h.requestOf[rid].ExecRequest? && forall id :: !Live1(Fold(s.disk.ops), id, rid)
  {
    hide Fold, RequestFold, FindByRequest, MaxId, IdsOk, ReservedOk, BlobsOk, EffectsOk, RidsOk, MemOk, MarkerOk,
      CallersOk, CoveredOk, OwnersOk, RepliesOk, InstallsOk, ExecOk, HistoryOk, Reconstruct;
    assert rid in StuckRids(s.mem.requests);
    FindByRequestFacts(s.mem.records, rid);
    VerdictRecord(s, rid);
  }

  lemma VerdictRecord(s: State, rid: Rid)
    requires Inv(s) && CanUnstick(s, rid)
    ensures var f := FindByRequest(s.mem.records, rid);
      forall id :: Live1(Fold(s.disk.ops), id, rid) ==> f.Some? && f.value == Fold(s.disk.ops)[id]
    ensures var f := FindByRequest(s.mem.records, rid); f.Some? ==> f.value.IsCommitted() && f.value.rid == rid
  {
    hide Fold, RequestFold, FindByRequest, MaxId, IdsOk, ReservedOk, BlobsOk, EffectsOk, CallersOk, CoveredOk, OwnersOk,
      RepliesOk, InstallsOk, ExecOk, HistoryOk, RequestsOk;
    var table := Fold(s.disk.ops);
    FindByRequestFacts(s.mem.records, rid);
    FoldIsElements(s.mem.records);
    FoldMember(s.mem.records);
    var f := FindByRequest(s.mem.records, rid);
    assert forall id: nat :: Live1(table, id, rid) ==>
        id in Live(table) && Live(table)[id] == table[id] && table[id].IsCommitted();
    assert forall id: nat :: Live1(table, id, rid) ==>
        id in Fold(s.mem.records) && Fold(s.mem.records)[id] == table[id] && table[id] in s.mem.records;
    if f.Some? {
      assert f.value.id in table && table[f.value.id] == f.value;
    }
  }

  lemma UnstickKeeps(s: State, rid: Rid)
    requires Inv(s) && CanUnstick(s, rid)
    ensures Inv(DoUnstick(s, rid))
  {
    hide Fold, RequestFold, MaxId, StuckVerdict, IdsOk, ReservedOk, BlobsOk, EffectsOk, RidsOk, MarkerOk, LockOk, MemOk,
      ModeOk, RequestsOk, CallersOk, CoveredOk, OwnersOk, RepliesOk, InstallsOk, ExecOk, HistoryOk;
    UnstickRids(s, rid);
    UnstickModes(s, rid);
    UnstickEntries(s, rid);
    UnstickExecs(s, rid);
    UnstickCovered(s, rid);
    UnstickStored(s, rid);
  }

  lemma UnstickRids(s: State, rid: Rid)
    requires Inv(s) && CanUnstick(s, rid)
    ensures Rids(DoUnstick(s, rid))
  {
    hide Fold, RequestFold, MaxId, StuckVerdict, IdsOk, ReservedOk, BlobsOk, EffectsOk, LockOk, MemOk, ModeOk,
      RequestsOk, CallersOk, CoveredOk, OwnersOk, RepliesOk, InstallsOk, ExecOk, HistoryOk, Reconstruct;
    VerdictFacts(s, rid);
    var v := StuckVerdict(s.mem.records, rid, s.mem.requests[rid]);
    if v.Some? {
      RequestFoldAppend(s.disk.reqs, LineOf(rid, Terminal(v.value)));
      assert forall id :: Live1(Fold(s.disk.ops), id, rid) ==> Fold(s.disk.ops)[id].IsCommitted();
    }
  }

  lemma UnstickModes(s: State, rid: Rid)
    requires Inv(s) && CanUnstick(s, rid)
    ensures var t := DoUnstick(s, rid); InMode(t) && Guard(t) && Mem(t) && Owners(t) && Counter(t)
  {
    hide Fold, RequestFold, MaxId, StuckVerdict, IdsOk, ReservedOk, BlobsOk, EffectsOk, RidsOk, RequestsOk, CallersOk,
      CoveredOk, RepliesOk, InstallsOk, ExecOk, HistoryOk;
  }

  lemma RequestsRecalled(m: Mode, n: Mode, answers: Answers, requests: Answers, callers: map<nat, Caller>,
                         requestOf: map<Rid, Request>, rid: Rid, reply: StoredResult)
    requires m.Unsticking? && n.Unsticking? && RequestsOk(m, answers, requests, callers, requestOf) && rid in requests
    ensures RequestsOk(n, answers[rid := Terminal(reply)], requests[rid := Terminal(reply)], callers, requestOf)
  {
    hide Claiming;
  }

  /** What recovery clears is pending and no command's. */
  lemma RequestsCleared(m: Mode, n: Mode, answers: Answers, requests: Answers, callers: map<nat, Caller>,
                        requestOf: map<Rid, Request>, rid: Rid)
    requires m.Unsticking? && n.Unsticking? && RequestsOk(m, answers, requests, callers, requestOf)
    requires rid in requests && IsPending(requests[rid]) && rid in requestOf && !requestOf[rid].ExecRequest?
    ensures RequestsOk(n, answers, requests - {rid}, callers, requestOf)
  {
    hide Claiming;
    assert EntryOk(rid, requests[rid], requestOf);
  }

  lemma UnstickEntries(s: State, rid: Rid)
    requires Inv(s) && CanUnstick(s, rid)
    ensures var t := DoUnstick(s, rid); Requests(t) && Callers(t)
  {
    hide Fold, RequestFold, MaxId, IdsOk, CounterOk, ReservedOk, BlobsOk, EffectsOk, RidsOk, MarkerOk, LockOk, MemOk,
      ModeOk, CoveredOk, OwnersOk, RepliesOk, InstallsOk, ExecOk, HistoryOk, RequestsOk, StuckVerdict, Live1,
      Reconstruct, Inv, LineOf, Terminal;
    VerdictFacts(s, rid);
    assert Requests(s) && InMode(s) && Callers(s) by { InvParts(s); }
    NobodyCalls(s);
    var answers := RequestFold(s.disk.reqs);
    var v := StuckVerdict(s.mem.records, rid, s.mem.requests[rid]);
    if v.Some? {
      EntryOfLineOf(rid, Terminal(v.value));
      RequestFoldAppend(s.disk.reqs, LineOf(rid, Terminal(v.value)));
      RequestsRecalled(s.mode, DoUnstick(s, rid).mode, answers, s.mem.requests, s.callers, s.h.requestOf, rid, v.value);
    } else {
      RequestsCleared(s.mode, DoUnstick(s, rid).mode, answers, s.mem.requests, s.callers, s.h.requestOf, rid);
    }
  }

  lemma NobodyCalls(s: State)
    requires InMode(s) && s.mode.Unsticking?
    ensures s.callers == map[]
  {
    hide Fold, RequestFold;
  }

  lemma InvParts(s: State)
    requires Inv(s)
    ensures LogInv(s) && TableInv(s) && PastInv(s)
  {
  }

  /** A command that may have run is never forgotten by recovery. */
  lemma UnstickExecs(s: State, rid: Rid)
    requires Inv(s) && CanUnstick(s, rid)
    ensures Execs(DoUnstick(s, rid))
  {
    hide Fold, RequestFold, MaxId, StuckVerdict, IdsOk, ReservedOk, BlobsOk, EffectsOk, RidsOk, MarkerOk, LockOk, MemOk,
      CoveredOk, OwnersOk, RepliesOk, InstallsOk, HistoryOk, RequestsOk, CallersOk, Live1, Reconstruct;
    VerdictFacts(s, rid);
    var v := StuckVerdict(s.mem.records, rid, s.mem.requests[rid]);
    if v.Some? {
      RequestFoldAppend(s.disk.reqs, LineOf(rid, Terminal(v.value)));
    }
  }

  lemma UnstickCovered(s: State, rid: Rid)
    requires Inv(s) && CanUnstick(s, rid)
    ensures Covered(DoUnstick(s, rid))
  {
    hide Fold, RequestFold, MaxId, FindByRequest, IdsOk, ReservedOk, BlobsOk, EffectsOk, RidsOk, OwnersOk, RepliesOk,
      InstallsOk, HistoryOk, Reconstruct, CallersOk, ExecOk, RequestsOk;
    FindByRequestFacts(s.mem.records, rid);
    FoldIsElements(s.mem.records);
  }

  lemma UnstickStored(s: State, rid: Rid)
    requires Inv(s) && CanUnstick(s, rid)
    ensures Stored(DoUnstick(s, rid))
  {
    hide Fold, RequestFold, MaxId, StuckVerdict, IdsOk, ReservedOk, BlobsOk, EffectsOk, RidsOk, MarkerOk, LockOk, MemOk,
      ModeOk, RequestsOk, CallersOk, CoveredOk, OwnersOk, RepliesOk, InstallsOk, ExecOk, HistoryOk,
      Reconstruct;
    VerdictFacts(s, rid);
    var v := StuckVerdict(s.mem.records, rid, s.mem.requests[rid]);
    if v.Some? {
      RequestFoldAppend(s.disk.reqs, LineOf(rid, Terminal(v.value)));
      StoredAfterAnswer(Fold(s.disk.ops), RequestFold(s.disk.reqs), rid, v.value);
      StoredAfterAnswer(Fold(s.disk.ops), s.mem.requests, rid, v.value);
    } else {
      StoredAfterForget(Fold(s.disk.ops), s.mem.requests, rid);
    }
  }

  lemma StoredAfterForget(table: Table, entries: Answers, rid: Rid)
    requires RepliesOk(table, entries)
    ensures RepliesOk(table, entries - {rid})
  {
    hide Reconstruct, Wire;
  }

  // ---- markers ----

  /**
   The marker recovery looks at is the unresolved mutation's, and unless the file was tampered with it is told
   apart correctly: the install either happened, and the file is in the after state, or it did not.
   */
  lemma MarkerFacts(s: State)
    requires Inv(s) && s.mode.Marking? && s.mode.todo != []
    ensures var table := Fold(s.disk.ops);
      && s.lock.Durable() && s.lock.m.id in table && table[s.lock.m.id].id == s.lock.m.id
      && s.mode.todo == [table[s.lock.m.id]]
      && table[s.lock.m.id].Prepared? && Describes(table[s.lock.m.id], s.lock.m) && GoodPlan(s.ws, s.lock.m.plan)
      && s.lock.m.id in s.h.effects && s.h.effects[s.lock.m.id] == s.lock.m
    ensures !s.lock.tampered ==>
        Classify(s.ws, s.disk.files, s.mode.todo[0]) == if s.lock.m.id in s.h.installed then Took else NoOp
  {
    hide Fold, RequestFold, MaxId, IdsOk, ReservedOk, BlobsOk, MemOk, CallersOk, CoveredOk, OwnersOk, RequestsOk,
      RepliesOk, InstallsOk, ExecOk, HistoryOk;
  }

  lemma ResolveMarkerKeeps(s: State, ts: nat)
    requires Inv(s) && CanResolveMarker(s, ts)
    ensures Inv(DoResolveMarker(s, ts))
  {
    hide Fold, RequestFold, MaxId, Upsert, WithoutMarker, Reconstruct, Classify, IdsOk, CounterOk, ReservedOk, BlobsOk,
      EffectsOk, RidsOk, MarkerOk, LockOk, MemOk, ModeOk, RequestsOk, CallersOk, CoveredOk, OwnersOk, RepliesOk,
      InstallsOk, ExecOk, HistoryOk;
    ResolveInstalls(s, ts);
    ResolveIds(s, ts);
    ResolveRecords(s, ts);
    ResolveRids(s, ts);
    ResolveModes(s, ts);
    ResolveOwners(s, ts);
    ResolveMem(s, ts);
    ResolveCovered(s, ts);
    ResolvePast(s, ts);
    ResolveRest(s, ts);
  }

  lemma ResolveInstalls(s: State, ts: nat)
    requires Inv(s) && CanResolveMarker(s, ts)
    ensures Installs(DoResolveMarker(s, ts))
  {
    hide Fold, RequestFold, MaxId, Decide, Reconstruct, Resolution, DoResolveMarker, Classify, Upsert, IdsOk, CounterOk,
      ReservedOk, BlobsOk, EffectsOk, RidsOk, MarkerOk, LockOk, MemOk, ModeOk, RequestsOk, CallersOk, CoveredOk,
      OwnersOk, RepliesOk, ExecOk, HistoryOk, InstallsOk;
    MarkerFacts(s);
    ResolveDisk(s, ts);
    ResolutionShape(s, ts);
    CarriedAfterResolve(Fold(s.disk.ops), s.lock, Resolution(s, ts), s.h.installs, s.h.pruned, s.h.undone);
  }

  /** An installed mutation ends up in the log, or is counted as undone. */
  lemma CarriedAfterResolve(table: Table, lock: Lock, r: Record, installs: multiset<Rid>, pruned: multiset<Rid>,
                            undone: multiset<Rid>)
    requires InstallsOk(table, lock, installs, pruned, undone)
    requires lock.Held? && r.id in table && table[r.id].Prepared? && (r.Aborted? || (r.Fs? && r.rid == lock.m.rid))
    ensures var now := if r.Aborted? && lock.stage.Installed? then multiset{lock.m.rid} else multiset{};
      InstallsOk(table[r.id := r], Free, installs, pruned, undone + now)
  {
    var after := table[r.id := r];
    assert r.Fs? ==> after[r.id].Fs? && r.rid in FileRids(after);
    assert FileRids(table) <= FileRids(after) by {
      assert forall id :: id in table && table[id].Fs? ==> id in after && after[id] == table[id];
    }
    assert forall rid :: Carried(table, lock, rid) ==>
        Carried(after, Free, rid) || (r.Aborted? && lock.stage.Installed? && rid == lock.m.rid);
  }

  /** The line recovery appends for a marker. */
  function Resolution(s: State, ts: nat): Record
    requires s.mode.Marking? && s.mode.todo != [] && s.mode.todo[0].Prepared?
  {
    var p := s.mode.todo[0];
    if Classify(s.ws, s.disk.files, p).Took? then Synthesized(p, ts) else Aborted(p.id, ts)
  }

  lemma ResolveDisk(s: State, ts: nat)
    requires Inv(s) && CanResolveMarker(s, ts)
    ensures var t := DoResolveMarker(s, ts); var r := Resolution(s, ts);
      && t.disk == AppendOp(s.disk, r) && r.id == s.lock.m.id
      && Fold(t.disk.ops) == Fold(s.disk.ops)[r.id := r] && MaxId(t.disk.ops) == Max(MaxId(s.disk.ops), r.id)
      && t.lock == Free && t.mem.requests == s.mem.requests && t.mem.nextId == s.mem.nextId
      && t.ws == s.ws && t.owners == s.owners && t.callers == s.callers
      && t.h.(committed := s.h.committed, tampered := s.h.tampered, undone := s.h.undone) == s.h
      && t.h.undone ==
           s.h.undone + (if r.Aborted? && s.lock.stage.Installed? then multiset{s.lock.m.rid} else multiset{})
      && t.h.committed == s.h.committed + (if r.Fs? then {r.id} else {})
      && t.h.tampered == s.h.tampered + (if s.lock.tampered then {r.id} else {})
  {
    hide Fold, RequestFold, MaxId, Upsert, WithoutMarker, Reconstruct, Classify, Inv;
    MarkerFacts(s);
    FoldAppend(s.disk.ops, Resolution(s, ts));
  }

  lemma ResolveIds(s: State, ts: nat)
    requires Inv(s) && CanResolveMarker(s, ts)
    ensures var t := DoResolveMarker(s, ts); Ids(t) && Counter(t) && Reserved(t) && Guard(t)
  {
    hide Fold, RequestFold, MaxId, Resolution, DoResolveMarker, BlobsOk, EffectsOk, RidsOk, MemOk, RequestsOk,
      CallersOk, CoveredOk, OwnersOk, RepliesOk, InstallsOk, ExecOk, HistoryOk;
    MarkerFacts(s);
    ResolveDisk(s, ts);
    ResolveShape(s, ts);
  }

  /** After a marker is resolved recovery goes on, to answer its request or to the next marker. */
  lemma ResolveShape(s: State, ts: nat)
    requires Inv(s) && CanResolveMarker(s, ts)
    ensures var t := DoResolveMarker(s, ts); var p := s.mode.todo[0];
      && (|| t.mode == Marking([])
          || t.mode == Telling(p.rid, StoredDone(Reconstruct(Synthesized(p, ts))), [])
          || t.mode == Telling(p.rid, StoredError(CLASH_ERROR), []))
      && (t.mode.Telling? && t.mode.reply.StoredDone? <==> Resolution(s, ts).Fs?)
      && t.mem.records == (if Resolution(s, ts).Fs? then Upsert(s.mem.records, Resolution(s, ts))
                           else WithoutMarker(s.mem.records, p.id))
  {
    hide Fold, RequestFold, MaxId, Upsert, WithoutMarker, Reconstruct, Classify, Inv;
    MarkerFacts(s);
  }

  lemma ResolutionShape(s: State, ts: nat)
    requires Inv(s) && CanResolveMarker(s, ts)
    ensures var r := Resolution(s, ts); var p := s.mode.todo[0];
      r == Synthesized(p, ts) || r == Aborted(p.id, ts)
  {
  }

  lemma ResolveRecords(s: State, ts: nat)
    requires Inv(s) && CanResolveMarker(s, ts)
    ensures var t := DoResolveMarker(s, ts); HasBlobs(t) && Effects(t) && Marker(t)
  {
    hide Fold, RequestFold, MaxId, Resolution, DoResolveMarker, IdsOk, ReservedOk, RidsOk, LockOk, MemOk, ModeOk,
      RequestsOk, CallersOk, CoveredOk, OwnersOk, RepliesOk, InstallsOk, ExecOk, HistoryOk;
    MarkerFacts(s);
    ResolveDisk(s, ts);
    ResolutionShape(s, ts);
  }

  lemma RidsAfterAbort(table: Table, answers: Answers, r: Record)
    requires RidsOk(table, answers) && r.Aborted?
    ensures RidsOk(table[r.id := r], answers)
  {
  }

  lemma ResolveRids(s: State, ts: nat)
    requires Inv(s) && CanResolveMarker(s, ts)
    ensures var t := DoResolveMarker(s, ts); Rids(t) && Stored(t)
  {
    hide Fold, RequestFold, MaxId, Resolution, DoResolveMarker, Reconstruct, IdsOk, ReservedOk, BlobsOk, EffectsOk,
      RidsOk, MarkerOk, LockOk, MemOk, RequestsOk, CallersOk, CoveredOk, OwnersOk, RepliesOk, InstallsOk,
      ExecOk, HistoryOk, ModeOk;
    MarkerFacts(s);
    ResolveDisk(s, ts);
    ResolutionShape(s, ts);
    MarkerPending(s);
    OnlyMarker(s);
    var r := Resolution(s, ts);
    if r.Fs? {
      RidsAfterLog(Fold(s.disk.ops), RequestFold(s.disk.reqs), r);
    } else {
      RidsAfterAbort(Fold(s.disk.ops), RequestFold(s.disk.reqs), r);
    }
    StoredAfterLog(Fold(s.disk.ops), RequestFold(s.disk.reqs), r);
    StoredAfterLog(Fold(s.disk.ops), s.mem.requests, r);
  }

  lemma MarkerPending(s: State)
    requires Inv(s) && s.mode.Marking? && s.mode.todo != []
    ensures var answers := RequestFold(s.disk.reqs);
      s.mem.requests == answers && s.lock.m.rid in answers && IsPending(answers[s.lock.m.rid])
  {
    hide Fold, RequestFold, MaxId, IdsOk, ReservedOk, BlobsOk, EffectsOk, MarkerOk, LockOk, MemOk, RequestsOk,
      CallersOk, CoveredOk, OwnersOk, RepliesOk, InstallsOk, ExecOk, HistoryOk;
    MarkerFacts(s);
  }

  lemma ResolveModes(s: State, ts: nat)
    requires Inv(s) && CanResolveMarker(s, ts)
    ensures var t := DoResolveMarker(s, ts); InMode(t)
  {
    hide Fold, RequestFold, MaxId, Resolution, DoResolveMarker, Reconstruct, IdsOk, ReservedOk, BlobsOk, EffectsOk,
      RidsOk, MarkerOk, LockOk, MemOk, RequestsOk, CallersOk, CoveredOk, RepliesOk, InstallsOk, ExecOk,
      HistoryOk;
    MarkerFacts(s);
    ResolveDisk(s, ts);
    ResolveShape(s, ts);
    ResolutionShape(s, ts);
    MarkerPending(s);
    OnlyMarker(s);
    var table := Fold(s.disk.ops);
    var after := table[s.lock.m.id := Resolution(s, ts)];
    assert forall id: nat :: id != s.lock.m.id && Live1(after, id, s.lock.m.rid) ==> Live1(table, id, s.lock.m.rid);
  }

  lemma ResolveOwners(s: State, ts: nat)
    requires Inv(s) && CanResolveMarker(s, ts)
    ensures Owners(DoResolveMarker(s, ts))
  {
    hide Fold, RequestFold, MaxId, Resolution, DoResolveMarker, Reconstruct, IdsOk, ReservedOk, BlobsOk, EffectsOk,
      RidsOk, MarkerOk, LockOk, MemOk, RequestsOk, CallersOk, CoveredOk, RepliesOk, InstallsOk, ExecOk,
      HistoryOk;
    MarkerFacts(s);
    ResolveDisk(s, ts);
    ResolveShape(s, ts);
    assert s.owners == map[];
  }

  lemma LiveAfterAbort(table: Table, part: Table, r: Record)
    requires Live(part) == Live(table) && r.Aborted?
    ensures Live(part - {r.id}) == Live(table[r.id := r])
  {
    var a := Live(part - {r.id});
    var b := Live(table[r.id := r]);
    forall id ensures id in a <==> id in b {
      assert id != r.id ==> (id in a <==> id in Live(part));
      assert id != r.id ==> (id in b <==> id in Live(table));
    }
    forall id | id in a ensures a[id] == b[id] {
      assert a[id] == Live(part)[id] && b[id] == Live(table)[id];
    }
  }

  lemma ResolveMem(s: State, ts: nat)
    requires Inv(s) && CanResolveMarker(s, ts)
    ensures Mem(DoResolveMarker(s, ts))
  {
    hide Fold, RequestFold, MaxId, Live, Upsert, WithoutMarker, Resolution, DoResolveMarker, Reconstruct, IdsOk,
      ReservedOk, BlobsOk, EffectsOk, RidsOk, MarkerOk, LockOk, ModeOk, RequestsOk, CallersOk, CoveredOk, OwnersOk,
      RepliesOk, InstallsOk, ExecOk, HistoryOk;
    MarkerFacts(s);
    ResolveDisk(s, ts);
    ResolveShape(s, ts);
    ResolutionShape(s, ts);
    var r := Resolution(s, ts);
    MarkerInMemory(s);
    if r.Fs? {
      LiveAfterUpsert(Fold(s.disk.ops), s.mem.records, r);
      FoldUpsert(s.mem.records, r);
    } else {
      FoldWithoutMarker(s.mem.records, r.id);
      LiveAfterAbort(Fold(s.disk.ops), Fold(s.mem.records), r);
    }
  }

  lemma MarkerInMemory(s: State)
    requires Inv(s) && s.mode.Marking? && s.mode.todo != []
    ensures s.lock.m.id in Fold(s.mem.records) && Fold(s.mem.records)[s.lock.m.id] == s.mode.todo[0]
  {
    hide Fold, RequestFold, MaxId, IdsOk, ReservedOk, BlobsOk, EffectsOk, RidsOk, MarkerOk, LockOk, ModeOk, RequestsOk,
      CallersOk, CoveredOk, OwnersOk, RepliesOk, InstallsOk, ExecOk, HistoryOk;
    MarkerFacts(s);
    assert s.lock.m.id in Live(Fold(s.disk.ops));
  }

  lemma ResolveCovered(s: State, ts: nat)
    requires Inv(s) && CanResolveMarker(s, ts)
    ensures Covered(DoResolveMarker(s, ts))
  {
    hide Fold, RequestFold, MaxId, Live, Upsert, WithoutMarker, Resolution, DoResolveMarker, Reconstruct, IdsOk,
      ReservedOk, BlobsOk, EffectsOk, RidsOk, MarkerOk, LockOk, ModeOk, RequestsOk, CallersOk, OwnersOk, RepliesOk,
      InstallsOk, ExecOk, HistoryOk;
    MarkerFacts(s);
    MarkerPending(s);
    ResolveDisk(s, ts);
    ResolveShape(s, ts);
    ResolutionShape(s, ts);
    UpsertElements(s.mem.records, Resolution(s, ts));
    WithoutMarkerElements(s.mem.records, s.mode.todo[0].id);
  }

  lemma ResolvePast(s: State, ts: nat)
    requires Inv(s) && CanResolveMarker(s, ts)
    ensures Past(DoResolveMarker(s, ts))
  {
    hide Fold, RequestFold, MaxId, DoResolveMarker, Classify, IdsOk, ReservedOk, BlobsOk, EffectsOk, RidsOk, MarkerOk,
      ModeOk, MemOk, CoveredOk, RequestsOk, CallersOk, OwnersOk, RepliesOk, InstallsOk, ExecOk;
    MarkerFacts(s);
    ResolveDisk(s, ts);
  }

  lemma ResolveRest(s: State, ts: nat)
    requires Inv(s) && CanResolveMarker(s, ts)
    ensures var t := DoResolveMarker(s, ts); Requests(t) && Callers(t) && Execs(t)
  {
    hide Fold, RequestFold, MaxId, DoResolveMarker, Resolution, Reconstruct, IdsOk, ReservedOk, BlobsOk, EffectsOk,
      RidsOk, MarkerOk, ModeOk, MemOk, CoveredOk, OwnersOk, RepliesOk, InstallsOk, HistoryOk;
    ResolveDisk(s, ts);
    ResolveShape(s, ts);
  }
}
