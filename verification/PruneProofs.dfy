/** Every step of a prune keeps the invariant, so a crash inside one is no worse than a crash elsewhere. */
module PruneProofs {
  import opened Protocol
  import opened Tables
  import opened Replies
  import opened Plans
  import opened Machine
  import opened Invariant

  lemma PruneBeginKeeps(s: State, keep: nat)
    requires Inv(s) && CanPruneBegin(s, keep)
    ensures Inv(DoPruneBegin(s, keep))
  {
    hide Fold, RequestFold, MaxId, IdsOk, ReservedOk, BlobsOk, EffectsOk, RidsOk, MarkerOk, LockOk, MemOk, ModeOk,
      RequestsOk, CallersOk, CoveredOk, OwnersOk, RepliesOk, InstallsOk, ExecOk, HistoryOk;
    PruneBeginMem(s, keep);
    PruneBeginRequests(s, keep);
    PruneBeginReplies(s, keep);
    PruneBeginModes(s, keep);
  }

  lemma PruneBeginMem(s: State, keep: nat)
    requires Inv(s) && CanPruneBegin(s, keep)
    ensures Mem(DoPruneBegin(s, keep))
  {
    hide Fold, RequestFold, MaxId, IdsOk, ReservedOk, BlobsOk, EffectsOk, RidsOk, MarkerOk, LockOk, ModeOk, RequestsOk,
      CallersOk, CoveredOk, OwnersOk, RepliesOk, InstallsOk, ExecOk, HistoryOk;
    var k := |s.mem.records| - |Newest(s.mem.records, keep)|;
    var kept := s.mem.records[k..];
    FoldSuffix(s.mem.records, k);
  }

  lemma PruneBeginModes(s: State, keep: nat)
    requires Inv(s) && CanPruneBegin(s, keep)
    ensures var t := DoPruneBegin(s, keep); InMode(t) && Counter(t) && Owners(t) && Guard(t)
  {
    hide Fold, RequestFold, MaxId, IdsOk, ReservedOk, BlobsOk, EffectsOk, RidsOk, MarkerOk, MemOk, RequestsOk,
      CallersOk, CoveredOk, RepliesOk, InstallsOk, ExecOk, HistoryOk;
  }

  lemma PruneBeginRequests(s: State, keep: nat)
    requires Inv(s) && CanPruneBegin(s, keep)
    ensures var t := DoPruneBegin(s, keep); Requests(t) && Callers(t) && Covered(t)
  {
    hide Fold, RequestFold, MaxId, IdsOk, ReservedOk, BlobsOk, EffectsOk, RidsOk, MarkerOk, LockOk, ModeOk, MemOk,
      OwnersOk, RepliesOk, InstallsOk, ExecOk, HistoryOk;
  }

  lemma PruneBeginReplies(s: State, keep: nat)
    requires Inv(s) && CanPruneBegin(s, keep)
    ensures var t := DoPruneBegin(s, keep); Stored(t) && Execs(t)
  {
    hide Fold, RequestFold, MaxId, IdsOk, ReservedOk, BlobsOk, EffectsOk, RidsOk, MarkerOk, LockOk, ModeOk, MemOk,
      RequestsOk, CallersOk, CoveredOk, OwnersOk, HistoryOk;
  }

  /** Moving from one phase of a prune to the next changes nothing these predicates look at. */
  lemma PhaseOnly(s: State, mode: Mode)
    requires Inv(s) && s.mode.Pruning? && mode.Pruning?
    ensures LockOk(s.ws, s.disk.files, mode, s.lock, s.h.installed, s.h.committed)
    ensures mode.phase < 3 || s.mode.phase == 3 ==>
        RequestsOk(mode, RequestFold(s.disk.reqs), s.mem.requests, s.callers, s.h.requestOf)
    ensures CoveredOk(mode, s.mem.records, s.mem.requests)
    ensures OwnersOk(Fold(s.disk.ops), s.owners, mode, s.lock, s.h.requestOf)
    ensures ExecOk(mode, RequestFold(s.disk.reqs), s.mem.requests, s.owners, s.h.spawned, s.h.forgotten, s.h.requestOf)
  {
    hide Fold, RequestFold, MaxId, IdsOk, CounterOk, ReservedOk, BlobsOk, EffectsOk, RidsOk, MarkerOk, MemOk, ModeOk,
      CallersOk, RepliesOk, InstallsOk, HistoryOk;
  }

  lemma PruneCounterKeeps(s: State)
    requires Inv(s) && CanPruneCounter(s)
    ensures Inv(DoPruneCounter(s))
  {
    hide Fold, RequestFold, MaxId, ReservedOk, BlobsOk, EffectsOk, RidsOk, MarkerOk, LockOk, RequestsOk, CallersOk,
      CoveredOk, OwnersOk, RepliesOk, InstallsOk, ExecOk, HistoryOk;
    PhaseOnly(s, DoPruneCounter(s).mode);
  }

  lemma {:induction false} MaxIdBound(records: seq<Record>, n: nat)
    requires forall r :: r in records ==> r.id <= n
    ensures MaxId(records) <= n
  {
    if records != [] {
      MaxIdBound(records[..|records| - 1], n);
    }
  }

  lemma PruneOpsKeeps(s: State)
    requires Inv(s) && CanPruneOps(s)
    ensures Inv(DoPruneOps(s))
  {
    hide Fold, RequestFold, MaxId, IdsOk, CounterOk, ReservedOk, BlobsOk, EffectsOk, RidsOk, MarkerOk, LockOk, MemOk,
      ModeOk, RequestsOk, CallersOk, CoveredOk, OwnersOk, RepliesOk, InstallsOk, ExecOk, HistoryOk;
    PruneOpsInstalls(s);
    PhaseOnly(s, DoPruneOps(s).mode);
    PruneOpsIds(s);
    PruneOpsRecords(s);
    PruneOpsRids(s);
    PruneOpsRest(s);
  }

  lemma PruneOpsInstalls(s: State)
    requires Inv(s) && CanPruneOps(s)
    ensures Installs(DoPruneOps(s))
  {
    hide Fold, RequestFold, MaxId, Decide, Reconstruct, Upsert, IdsOk, CounterOk, ReservedOk, BlobsOk, EffectsOk,
      RidsOk, MarkerOk, LockOk, MemOk, ModeOk, RequestsOk, CallersOk, CoveredOk, OwnersOk, RepliesOk, ExecOk, HistoryOk,
      InstallsOk;
    CarriedAfterPrune(Fold(s.disk.ops), Fold(s.mem.records), s.lock, s.h.installs, s.h.pruned, s.h.undone);
  }

  /** What the log no longer carries is counted as pruned. */
  lemma CarriedAfterPrune(table: Table, kept: Table, lock: Lock, installs: multiset<Rid>, pruned: multiset<Rid>,
                          undone: multiset<Rid>)
    requires InstallsOk(table, lock, installs, pruned, undone)
    ensures InstallsOk(kept, lock, installs, pruned + multiset(FileRids(table) - FileRids(kept)), undone)
  {
    hide FileRids;
  }

  /** The records that survive are in the log's table unchanged. */
  lemma SurvivorsInTable(s: State)
    requires Inv(s) && s.mode.Pruning? && s.mode.phase < 2
    ensures SubTable(Fold(s.mem.records), Fold(s.disk.ops))
  {
    hide Fold, RequestFold, MaxId, IdsOk, CounterOk, ReservedOk, BlobsOk, EffectsOk, RidsOk, MarkerOk, LockOk, ModeOk,
      RequestsOk, CallersOk, CoveredOk, OwnersOk, RepliesOk, InstallsOk, ExecOk, HistoryOk;
  }

  lemma PruneOpsIds(s: State)
    requires Inv(s) && CanPruneOps(s)
    ensures var t := DoPruneOps(s); Ids(t) && Counter(t)
  {
    hide Fold, RequestFold, MaxId, ReservedOk, BlobsOk, EffectsOk, RidsOk, MarkerOk, LockOk, ModeOk, RequestsOk,
      CallersOk, CoveredOk, OwnersOk, RepliesOk, InstallsOk, ExecOk, HistoryOk;
    FoldMember(s.mem.records);
    MaxIdBound(s.mem.records, s.mem.nextId);
  }

  lemma PruneOpsRecords(s: State)
    requires Inv(s) && CanPruneOps(s)
    ensures var t := DoPruneOps(s); HasBlobs(t) && Effects(t) && Marker(t) && Past(t)
  {
    hide Fold, RequestFold, MaxId, CounterOk, ReservedOk, RidsOk, MemOk, LockOk, ModeOk, RequestsOk, CallersOk,
      CoveredOk, OwnersOk, RepliesOk, InstallsOk, ExecOk;
    SurvivorsInTable(s);
    NoMarkerWhenPruning(s);
    PruneOpsPast(s);
  }

  lemma NoMarkerWhenPruning(s: State)
    requires Inv(s) && s.mode.Pruning?
    ensures s.lock.Free?
    ensures forall id :: id in Fold(s.disk.ops) ==> !Fold(s.disk.ops)[id].Prepared?
  {
    hide Fold, RequestFold, MaxId, CounterOk, ReservedOk, RidsOk, MemOk, ModeOk, RequestsOk, CallersOk, CoveredOk,
      OwnersOk, RepliesOk, InstallsOk, ExecOk;
  }

  lemma PruneOpsPast(s: State)
    requires Inv(s) && CanPruneOps(s)
    ensures Past(DoPruneOps(s))
  {
    hide Fold, RequestFold, MaxId, CounterOk, ReservedOk, RidsOk, MemOk, LockOk, ModeOk, RequestsOk, CallersOk,
      CoveredOk, OwnersOk, RepliesOk, InstallsOk, ExecOk;
    SurvivorsInTable(s);
  }

  lemma PruneOpsRids(s: State)
    requires Inv(s) && CanPruneOps(s)
    ensures Rids(DoPruneOps(s))
  {
    hide Fold, RequestFold, MaxId, IdsOk, CounterOk, ReservedOk, BlobsOk, EffectsOk, MarkerOk, MemOk, LockOk, ModeOk,
      RequestsOk, CallersOk, CoveredOk, OwnersOk, RepliesOk, InstallsOk, ExecOk, HistoryOk;
    FoldMember(s.mem.records);
    SurvivorsInTable(s);
  }

  lemma PruneOpsRest(s: State)
    requires Inv(s) && CanPruneOps(s)
    ensures var t := DoPruneOps(s); InMode(t) && Mem(t) && Owners(t) && Stored(t)
  {
    hide Fold, RequestFold, MaxId, IdsOk, CounterOk, ReservedOk, BlobsOk, EffectsOk, MarkerOk, RidsOk, RequestsOk,
      CallersOk, CoveredOk, InstallsOk, ExecOk, HistoryOk, Reconstruct;
    SurvivorsInTable(s);
  }

  lemma PruneReqsKeeps(s: State, lines: seq<RequestLine>)
    requires Inv(s) && CanPruneReqs(s, lines)
    ensures Inv(DoPruneReqs(s, lines))
  {
    hide Fold, RequestFold, MaxId, IdsOk, ReservedOk, BlobsOk, EffectsOk, RidsOk, MarkerOk, LockOk, MemOk, ModeOk,
      RequestsOk, CallersOk, CoveredOk, OwnersOk, RepliesOk, InstallsOk, ExecOk, HistoryOk;
    PhaseOnly(s, DoPruneReqs(s, lines).mode);
    PruneReqsRids(s, lines);
    PruneReqsRest(s, lines);
  }

  lemma PruneReqsRids(s: State, lines: seq<RequestLine>)
    requires Inv(s) && CanPruneReqs(s, lines)
    ensures Rids(DoPruneReqs(s, lines))
  {
    hide Fold, RequestFold, MaxId, IdsOk, ReservedOk, BlobsOk, EffectsOk, LockOk, ModeOk, RequestsOk, CallersOk,
      OwnersOk, RepliesOk, InstallsOk, ExecOk, HistoryOk;
    NoMarkerWhenPruning(s);
    FoldMember(s.mem.records);
  }

  lemma PruneReqsRest(s: State, lines: seq<RequestLine>)
    requires Inv(s) && CanPruneReqs(s, lines)
    ensures var t := DoPruneReqs(s, lines); Counter(t) && InMode(t) && Mem(t) && Requests(t) && Callers(t) && Execs(t)
  {
    hide Fold, RequestFold, MaxId, IdsOk, ReservedOk, BlobsOk, EffectsOk, LockOk, MarkerOk, RidsOk, CoveredOk, OwnersOk,
      RepliesOk, HistoryOk;
  }

  lemma PruneBlobKeeps(s: State)
    requires Inv(s) && CanPruneBlob(s)
    ensures Inv(DoPruneBlob(s))
  {
    hide Fold, RequestFold, MaxId, IdsOk, ReservedOk, EffectsOk, RidsOk, MarkerOk, RequestsOk, CallersOk, CoveredOk,
      OwnersOk, RepliesOk, InstallsOk, ExecOk, HistoryOk;
    var id := s.mode.dropped[0].id;
    FoldMember(s.disk.ops);
    NoMarkerWhenPruning(s);
    PhaseOnly(s, DoPruneBlob(s).mode);
    assert s.mode.dropped[0] in s.mode.dropped;
    assert id !in Fold(s.disk.ops);
    assert forall r :: r in s.mode.dropped[1..] ==> r in s.mode.dropped;
  }

  lemma PruneEndKeeps(s: State)
    requires Inv(s) && CanPruneEnd(s)
    ensures Inv(DoPruneEnd(s))
  {
    hide Fold, RequestFold, MaxId, IdsOk, ReservedOk, BlobsOk, EffectsOk, RidsOk, MarkerOk, CallersOk, OwnersOk,
      RepliesOk, InstallsOk, ExecOk, HistoryOk;
    NoMarkerWhenPruning(s);
    PruneEndOwners(s);
  }

  lemma PruneEndOwners(s: State)
    requires Inv(s) && CanPruneEnd(s)
    ensures var t := DoPruneEnd(s); Owners(t) && Execs(t)
  {
    hide Fold, RequestFold, MaxId, IdsOk, CounterOk, ReservedOk, BlobsOk, EffectsOk, RidsOk, MarkerOk, MemOk, ModeOk,
      RequestsOk, CallersOk, CoveredOk, RepliesOk, InstallsOk, HistoryOk;
  }
}
