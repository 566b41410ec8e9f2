/** The invariant over whole runs, and what it says to a client. */
module Runs {
  import opened Protocol
  import opened Tables
  import opened Replies
  import opened Plans
  import opened Machine
  import opened Cases
  import opened Invariant
  import opened ServingProofs
  import opened PruneProofs
  import opened RecoveryProofs

  lemma RecoveryStepKeeps(s: State, e: Event)
    requires Inv(s) && Enabled(s, e)
    requires RecoveryEvent(e)
    ensures Inv(Apply(s, e))
  {
    hide *;
    RecoveryCases(s, e);
    if e.Crash? {
      CrashKeeps(s);
    } else if e.Load? {
      LoadKeeps(s, e.order);
    } else if e.ResolveMarker? {
      ResolveMarkerKeeps(s, e.ts);
    } else if e.Tell? {
      TellKeeps(s);
    } else if e.MarkersDone? {
      MarkersDoneKeeps(s);
    } else if e.Unstick? {
      UnstickKeeps(s, e.rid);
    } else if e.Open? {
      OpenKeeps(s);
    }
  }

  lemma PruneStepKeeps(s: State, e: Event)
    requires Inv(s) && Enabled(s, e)
    requires PruneEvent(e) || e.PruneBegin?
    ensures Inv(Apply(s, e))
  {
    hide *;
    PruneCases(s, e);
    if e.PruneBegin? {
      PruneBeginKeeps(s, e.keep);
    } else if e.PruneCounter? {
      PruneCounterKeeps(s);
    } else if e.PruneOps? {
      PruneOpsKeeps(s);
    } else if e.PruneReqs? {
      PruneReqsKeeps(s, e.lines);
    } else if e.PruneBlob? {
      PruneBlobKeeps(s);
    } else if e.PruneEnd? {
      PruneEndKeeps(s);
    }
  }

  lemma WorkStepKeeps(s: State, e: Event)
    requires Inv(s) && Enabled(s, e)
    requires WorkEvent(e)
    ensures Inv(Apply(s, e))
  {
    hide *;
    WorkCases(s, e);
    if e.Begin? {
      BeginKeeps(s, e.rid);
    } else if e.SaveBlob? {
      SaveBlobKeeps(s);
    } else if e.LogMarker? {
      LogMarkerKeeps(s, e.ts);
    } else if e.Install? {
      InstallKeeps(s);
    } else if e.Commit? {
      CommitKeeps(s, e.ts);
    } else if e.StartExec? {
      StartExecKeeps(s, e.rid);
    } else if e.Spawn? {
      SpawnKeeps(s, e.rid);
    } else if e.EndExec? {
      EndExecKeeps(s, e.rid, e.outcome, e.timeoutMessage, e.ts);
    } else if e.LogTransfer? {
      LogTransferKeeps(s, e.rid, e.data, e.ts);
    }
  }

  lemma ClaimStepKeeps(s: State, e: Event)
    requires Inv(s) && Enabled(s, e)
    requires ClaimEvent(e)
    ensures Inv(Apply(s, e))
  {
    hide *;
    ClaimCases(s, e);
    if e.Arrive? {
      ArriveKeeps(s, e.c, e.rid, e.request);
    } else if e.Replay? {
      ReplayKeeps(s, e.rid);
    } else if e.Refuse? {
      RefuseKeeps(s, e.rid);
    } else if e.AppendClaim? {
      AppendClaimKeeps(s, e.c);
    } else if e.Settle? {
      SettleKeeps(s, e.c);
    } else if e.Answer? {
      AnswerKeeps(s, e.rid, e.reply);
    } else if e.Remember? {
      RememberKeeps(s, e.rid);
    } else if e.Touch? {
      TouchKeeps(s, e.key, e.content);
    }
  }

  lemma StepKeeps(s: State, e: Event)
    requires Inv(s) && Enabled(s, e)
    ensures Inv(Apply(s, e))
  {
    hide *;
    EventKinds(e);
    if RecoveryEvent(e) {
      RecoveryStepKeeps(s, e);
    } else if PruneEvent(e) || e.PruneBegin? {
      PruneStepKeeps(s, e);
    } else if WorkEvent(e) {
      WorkStepKeeps(s, e);
    } else {
      ClaimStepKeeps(s, e);
    }
  }

  lemma {:induction false} RunKeeps(s: State, run: seq<Event>)
    requires Inv(s) && ValidRun(s, run)
    ensures Inv(After(s, run))
    decreases |run|
  {
    hide Inv, Enabled, Apply;
    if run != [] {
      StepKeeps(s, run[0]);
      RunKeeps(Apply(s, run[0]), run[1..]);
    }
  }

  /** Every reachable state satisfies the invariant. */
  lemma ReachableInv(s: State)
    requires Reachable(s)
    ensures Inv(s)
  {
    hide Inv, Initial, ValidRun, After;
    var s0: State, run: seq<Event> :| Initial(s0) && ValidRun(s0, run) && After(s0, run) == s;
    InitialInv(s0);
    RunKeeps(s0, run);
  }

  lemma {:induction false} RunExtends(s: State, run: seq<Event>, e: Event)
    requires ValidRun(s, run) && Enabled(After(s, run), e)
    ensures ValidRun(s, run + [e]) && After(s, run + [e]) == Apply(After(s, run), e)
    decreases |run|
  {
    hide Enabled, Apply;
    if run == [] {
      assert [e][1..] == [];
    } else {
      assert (run + [e])[1..] == run[1..] + [e];
      RunExtends(Apply(s, run[0]), run[1..], e);
    }
  }

  lemma ReachableStep(s: State, e: Event)
    requires Reachable(s) && Enabled(s, e)
    ensures Reachable(Apply(s, e))
  {
    hide Initial, Enabled, Apply, ValidRun, After;
    var s0: State, run: seq<Event> :| Initial(s0) && ValidRun(s0, run) && After(s0, run) == s;
    RunExtends(s0, run, e);
  }

  // ---- at most once ----

  /**
   At most one retained committed record carries a request id, on disk and in memory; while the server is up each
   such id has an entry, so no replay can execute it again.
   */
  lemma AtMostOnce(s: State, a: Record, b: Record)
    requires Reachable(s)
    requires a.IsCommitted() && b.IsCommitted() && a.rid == b.rid
    ensures var table := Fold(s.disk.ops);
      a.id in table && table[a.id] == a && b.id in table && table[b.id] == b ==> a == b
    ensures !s.mode.Down? && a in s.mem.records ==> a.rid in s.mem.requests && (b in s.mem.records ==> a == b)
    ensures !s.mode.Down? && a in s.mem.records ==> forall c, request :: !CanArrive(s, c, a.rid, request)
  {
    hide Inv, Reachable, CanArrive, Fold, RequestFold;
    ReachableInv(s);
    OneRecordARequest(s, a, b);
    if !s.mode.Down? {
      RecordsInTable(s);
      RecordBlocksReplay(s, a);
    }
  }

  lemma OneRecordARequest(s: State, a: Record, b: Record)
    requires Inv(s) && a.IsCommitted() && b.IsCommitted() && a.rid == b.rid
    ensures var table := Fold(s.disk.ops);
      a.id in table && table[a.id] == a && b.id in table && table[b.id] == b ==> a == b
  {
    hide Fold, RequestFold, MaxId, IdsOk, CounterOk, ReservedOk, BlobsOk, EffectsOk, MarkerOk, LockOk, MemOk, ModeOk,
      RequestsOk, CallersOk, CoveredOk, OwnersOk, RepliesOk, InstallsOk, ExecOk, HistoryOk;
  }

  lemma RecordBlocksReplay(s: State, a: Record)
    requires Inv(s) && !s.mode.Down? && a.IsCommitted()
    ensures a in s.mem.records ==> a.rid in s.mem.requests && forall c, request :: !CanArrive(s, c, a.rid, request)
  {
    hide Fold, RequestFold, MaxId, IdsOk, CounterOk, ReservedOk, BlobsOk, EffectsOk, RidsOk, MarkerOk, LockOk, MemOk,
      ModeOk, RequestsOk, CallersOk, OwnersOk, RepliesOk, InstallsOk, ExecOk, HistoryOk;
  }

  // ---- replies ----

  /** What is replayed for a request with a record is what the record reconstructs to, duplicates or not. */
  lemma ReplayIsReconstruction(s: State, rid: Rid, id: nat)
    requires Reachable(s) && CanReplay(s, rid) && Committed1(Fold(s.disk.ops), id, rid)
    ensures Wire(rid, s.mem.requests[rid].result.value) == Reconstruct(Fold(s.disk.ops)[id])
  {
    ReachableInv(s);
    hide Fold, RequestFold, MaxId, IdsOk, CounterOk, ReservedOk, BlobsOk, EffectsOk, MarkerOk, RidsOk, LockOk, ModeOk,
      MemOk, RequestsOk, CallersOk, CoveredOk, OwnersOk, ExecOk, InstallsOk, HistoryOk, Reconstruct, Wire;
  }

  // ---- ids ----

  /** An id handed out exceeds every id that ever reached the operation log, whatever was pruned or lost since. */
  lemma IdsNeverReused(s: State, run: seq<Event>, id: nat)
    requires Reachable(s) && id in s.h.logged
    requires ValidRun(s, run) && !After(s, run).mode.Down?
    ensures id < After(s, run).mem.nextId + 1
  {
    hide Inv, ValidRun, After, Enabled, Apply;
    ReachableInv(s);
    RunKeeps(s, run);
    LoggedGrows(s, run);
    FreshId(After(s, run));
  }

  lemma {:induction false} LoggedGrows(s: State, run: seq<Event>)
    requires ValidRun(s, run)
    ensures s.h.logged <= After(s, run).h.logged
    ensures s.h.effects.Keys <= After(s, run).h.effects.Keys
    decreases |run|
  {
    hide Enabled, Apply;
    if run != [] {
      HistoryGrows(s, run[0]);
      LoggedGrows(Apply(s, run[0]), run[1..]);
    }
  }

  /** The past only grows, and only prune forgets. */
  ghost predicate Later(h: History, g: History) {
    h.logged <= g.logged && h.effects.Keys <= g.effects.Keys && h.forgotten <= g.forgotten && h.pruned <= g.pruned
  }

  /** A step that neither prunes nor forgets. */
  ghost predicate Steady(s: State, t: State) {
    && Later(s.h, t.h) && t.h.forgotten == s.h.forgotten && t.h.pruned == s.h.pruned
    && (t.mode.Pruning? ==> s.mode.Pruning?)
  }

  /** No step forgets a logged id or a mutation, only prune forgets requests, and only prune takes records away. */
  lemma HistoryGrows(s: State, e: Event)
    requires Enabled(s, e)
    ensures Later(s.h, Apply(s, e).h)
    ensures !e.PruneBegin? ==> Apply(s, e).h.forgotten == s.h.forgotten
    ensures !e.PruneBegin? && !s.mode.Pruning? ==> Steady(s, Apply(s, e))
  {
    hide Enabled, Apply, Later, WorkEvent, RecoveryEvent, PruneEvent, ClaimEvent;
    EventKinds(e);
    if PruneEvent(e) || e.PruneBegin? {
      PruneGrows(s, e);
    } else if WorkEvent(e) {
      WorkGrows(s, e);
    } else if RecoveryEvent(e) {
      RecoveryGrows(s, e);
    } else {
      ClaimsGrow(s, e);
    }
  }

  lemma WorkGrows(s: State, e: Event)
    requires Enabled(s, e) && WorkEvent(e)
    ensures Steady(s, Apply(s, e))
  {
    hide Enabled, Apply;
    WorkCases(s, e);
    hide Decide, MaxId, Upsert, ExecReply, ExecDataOf, MarkerOf, CommitOf, ReplyTo, Store;
  }

  lemma RecoveryGrows(s: State, e: Event)
    requires Enabled(s, e) && RecoveryEvent(e)
    ensures Steady(s, Apply(s, e))
  {
    hide *;
    RecoveryCases(s, e);
    if e.Crash? {
      ModeStepsKeepPast(s, []);
    } else if e.Load? {
      ModeStepsKeepPast(s, e.order);
    } else if e.ResolveMarker? {
      ResolveGrows(s, e.ts);
    } else if e.Tell? {
      TellGrows(s);
    } else if e.MarkersDone? {
      ModeStepsKeepPast(s, []);
    } else if e.Unstick? {
      AnswersGrow(s, e.rid);
    } else if e.Open? {
      ModeStepsKeepPast(s, []);
    }
  }

  lemma ModeStepsKeepPast(s: State, order: seq<Record>)
    ensures Steady(s, DoCrash(s)) && Steady(s, DoLoad(s, order)) && Steady(s, DoMarkersDone(s)) && Steady(s, DoOpen(s))
  {
    hide StuckRids, Markers, RequestFold, MaxId;
  }

  lemma ResolveGrows(s: State, ts: nat)
    requires CanResolveMarker(s, ts)
    ensures Steady(s, DoResolveMarker(s, ts))
  {
    hide Classify, Reconstruct, Upsert, WithoutMarker;
  }

  lemma AnswersGrow(s: State, rid: Rid)
    requires CanUnstick(s, rid)
    ensures Steady(s, DoUnstick(s, rid))
  {
    hide StuckVerdict, LineOf;
  }

  lemma TellGrows(s: State)
    requires CanTell(s)
    ensures Steady(s, DoTell(s))
  {
    hide LineOf;
  }

  lemma PruneGrows(s: State, e: Event)
    requires Enabled(s, e) && (PruneEvent(e) || e.PruneBegin?)
    ensures Later(s.h, Apply(s, e).h)
    ensures !e.PruneBegin? ==> Apply(s, e).h.forgotten == s.h.forgotten && s.mode.Pruning?
  {
    hide Enabled, Apply, Later, Rewrites, DoPruneBegin, DoPruneOps, CanPruneBegin;
    PruneCases(s, e);
    NotEarlier(s.h);
    if e.PruneBegin? {
      PruneBeginGrows(s, e.keep);
    } else if e.PruneOps? {
      PruneOpsGrows(s);
    }
  }

  lemma NotEarlier(h: History)
    ensures Later(h, h)
  {
  }

  lemma PruneBeginGrows(s: State, keep: nat)
    ensures Later(s.h, DoPruneBegin(s, keep).h)
  {
    hide Retained;
  }

  lemma PruneOpsGrows(s: State)
    requires CanPruneOps(s)
    ensures Later(s.h, DoPruneOps(s).h) && DoPruneOps(s).h.forgotten == s.h.forgotten
  {
    hide FileRids, Fold;
  }

  lemma ClaimsGrow(s: State, e: Event)
    requires Enabled(s, e) && ClaimEvent(e)
    ensures Steady(s, Apply(s, e))
  {
    hide Enabled, Apply;
    ClaimCases(s, e);
    hide Wire, Store, LineOf, Lookup;
  }

  // ---- commands ----

  /** A command is started at most once for a request, and once more for each time prune forgot the request. */
  lemma ExecAtMostOnce(s: State, rid: Rid)
    requires Reachable(s)
    ensures s.h.spawned[rid] <= 1 + s.h.forgotten[rid]
    ensures s.h.spawned[rid] > s.h.forgotten[rid] ==> !CanSpawn(s, rid)
  {
    ReachableInv(s);
    hide Fold, RequestFold, MaxId, IdsOk, CounterOk, ReservedOk, BlobsOk, EffectsOk, MarkerOk, RidsOk, LockOk, ModeOk,
      MemOk, RequestsOk, CallersOk, CoveredOk, OwnersOk, InstallsOk, RepliesOk, HistoryOk;
  }

  /**
   A mutation is installed at most once for a request, once more for each time prune took its record out of the log,
   and once more for each time recovery rolled it back because somebody had written the file.
   */
  lemma InstallAtMostOnce(s: State, rid: Rid)
    requires Reachable(s)
    ensures s.h.installs[rid] <= 1 + s.h.pruned[rid] + s.h.undone[rid]
    ensures s.lock.Held? && s.lock.m.rid == rid && CanInstall(s) ==>
        s.h.installs[rid] <= s.h.pruned[rid] + s.h.undone[rid]
  {
    ReachableInv(s);
    hide Fold, RequestFold, MaxId, IdsOk, CounterOk, ReservedOk, BlobsOk, RidsOk, LockOk, ModeOk, MemOk, RequestsOk,
      CallersOk, CoveredOk, OwnersOk, ExecOk, RepliesOk, HistoryOk, Carried, MarkerOk, EffectsOk;
    if s.lock.Held? && CanInstall(s) {
      MarkerNotCarried(s);
    }
  }

  /**
   What prune forgets, exactly: a finished request is claimable after a prune if and only if no retained record
   mentions it. A command that was running at a crash has no record, so its "do not retry" marker is always dropped.
   */
  lemma PruneForgets(s: State, keep: nat, rid: Rid)
    requires Reachable(s) && CanPruneBegin(s, keep) && rid in s.mem.requests
    ensures var t := DoPruneBegin(s, keep); var kept := Newest(s.mem.records, keep);
      rid !in t.mem.requests <==> rid !in s.owners && forall r :: r in kept && !r.Aborted? ==> r.rid != rid
  {
    hide Reachable, Inv, DoPruneBegin, CanPruneBegin;
    ReachableInv(s);
    PruneForgetsExactly(s, keep, rid);
  }

  lemma PruneForgetsExactly(s: State, keep: nat, rid: Rid)
    requires Inv(s) && CanPruneBegin(s, keep) && rid in s.mem.requests
    ensures var t := DoPruneBegin(s, keep); var kept := Newest(s.mem.records, keep);
      rid !in t.mem.requests <==> rid !in s.owners && forall r :: r in kept && !r.Aborted? ==> r.rid != rid
  {
    hide Fold, RequestFold, MaxId, IdsOk, CounterOk, ReservedOk, BlobsOk, EffectsOk, RidsOk, MarkerOk, LockOk, MemOk,
      CallersOk, CoveredOk, OwnersOk, RepliesOk, InstallsOk, ExecOk, HistoryOk;
    assert rid in s.owners <==> rid in StuckRids(s.mem.requests);
    assert EntryOk(rid, s.mem.requests[rid], s.h.requestOf);
  }

  // ---- no request is stuck, and the logs are the memory ----

  /**
   While serving, the requests in progress are exactly those somebody is executing: of these duplicates are refused, of
   all others the table knows they get the answer.
   */
  lemma NothingStuck(s: State)
    requires Reachable(s) && s.mode.Serving?
    ensures StuckRids(s.mem.requests) == s.owners.Keys
    ensures forall rid :: CanRefuse(s, rid) <==> rid in s.owners
    ensures forall rid :: CanReplay(s, rid) <==> rid in s.mem.requests && rid !in s.owners
  {
    ReachableInv(s);
    hide Fold, RequestFold, MaxId, IdsOk, CounterOk, ReservedOk, BlobsOk, EffectsOk, MarkerOk, RidsOk, LockOk, MemOk,
      CallersOk, CoveredOk, OwnersOk, InstallsOk, RepliesOk, ExecOk, HistoryOk;
  }

  /**
   While no mutation is under way the tables in memory are what the logs fold to. An entry may differ from its last
   line only if it is an answer and the line a losing duplicate's claim; a line without an entry is a claim being
   made or one recovery cleared, which is never a command's.
   */
  lemma LogRefinesMemory(s: State)
    requires Reachable(s) && s.mode.Serving? && s.lock.Free?
    ensures Committed(Fold(s.mem.records)) == Committed(Fold(s.disk.ops))
    ensures var answers := RequestFold(s.disk.reqs);
      && (forall rid :: rid in s.mem.requests ==>
            && rid in answers
            && (answers[rid] == s.mem.requests[rid] || (IsPending(answers[rid]) && s.mem.requests[rid].result.Some?)))
      && (forall rid :: rid in answers && rid !in s.mem.requests ==> Unentered(rid, answers[rid], s.callers))
  {
    ReachableInv(s);
    hide Fold, RequestFold, MaxId, IdsOk, CounterOk, ReservedOk, BlobsOk, EffectsOk, MarkerOk, RidsOk, LockOk, ModeOk,
      CallersOk, CoveredOk, OwnersOk, InstallsOk, RepliesOk, ExecOk, HistoryOk, Unentered;
    CommittedOfLive(Fold(s.mem.records));
    CommittedOfLive(Fold(s.disk.ops));
  }

  lemma CommittedOfLive(table: Table)
    ensures Committed(table) == Committed(Live(table))
  {
  }

  // ---- undo ----

  /**
   Undo inverts: for a retained operation that is not itself an undo, undo goes ahead exactly when the file is in
   the state the operation left, and then puts back precisely the content, or the absence, the operation found.
   */
  lemma UndoInverts(s: State, target: nat)
    requires Reachable(s) && s.mode.Serving?
    requires FindRecord(s.mem.records, target).Some? && FindRecord(s.mem.records, target).value.Fs?
    ensures target in s.h.effects
    ensures var m := s.h.effects[target];
      var d := Decide(s.ws, s.disk.files, s.disk.blobs, s.mem.records, UndoRequest(target));
      && (d.Ok? <==> !m.plan.kind.Undo? && Lookup(s.disk.files, m.plan.key) == m.plan.after)
      && (d.Ok? ==> d.value == ReversalOf(m.plan))
  {
    hide Fold, Inv;
    ReachableInv(s);
    FindRecordFacts(s.mem.records, target);
    RecordsInTable(s);
    UndoTarget(s, FindRecord(s.mem.records, target).value);
  }
}
