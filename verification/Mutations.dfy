/**
 How often a request's mutation can be installed, and exactly when its request can be claimed once more (fs_ops.rs,
 undo.rs: prepare, install, commit; store.rs: recover, prune).
 */
module Mutations {
  import opened Prelude
  import opened Protocol
  import opened Tables
  import opened Replies
  import opened Plans
  import opened Machine
  import opened Cases
  import opened Invariant
  import opened ServingProofs
  import opened RecoveryProofs
  import opened Runs
  import opened Steps
  import opened Restart
  import opened Pruning
  import opened Commands
  import opened Answers

  // ---- at most once, without prune and without interference ----

  /** Recovery rolls an installed mutation back only after somebody wrote its file while the server was down. */
  ghost predicate Tidy(s: State, t: State) {
    s.h.tampered <= t.h.tampered && (t.h.tampered == {} ==> t.h.undone == s.h.undone)
  }

  lemma StepTidy(s: State, e: Event)
    requires Inv(s) && Enabled(s, e)
    ensures Tidy(s, Apply(s, e))
  {
    hide *;
    EventKinds(e);
    if WorkEvent(e) {
      WorkTidy(s, e);
    } else if RecoveryEvent(e) {
      RecoveryTidy(s, e);
    } else if ClaimEvent(e) {
      ClaimTidy(s, e);
    } else {
      PruneTidy(s, e);
    }
  }

  lemma WorkTidy(s: State, e: Event)
    requires Enabled(s, e) && WorkEvent(e)
    ensures Tidy(s, Apply(s, e))
  {
    hide Enabled, Apply;
    WorkCases(s, e);
    hide Decide, MaxId, Upsert, ExecReply, ExecDataOf, MarkerOf, CommitOf, ReplyTo, Store;
  }

  lemma ClaimTidy(s: State, e: Event)
    requires Enabled(s, e) && ClaimEvent(e)
    ensures Tidy(s, Apply(s, e))
  {
    hide Enabled, Apply, Wire, Store, LineOf;
    ClaimCases(s, e);
  }

  lemma PruneTidy(s: State, e: Event)
    requires Enabled(s, e) && (PruneEvent(e) || e.PruneBegin?)
    ensures Tidy(s, Apply(s, e))
  {
    hide Enabled, Apply, Rewrites, Retained, FileRids, Fold;
    PruneCases(s, e);
  }

  lemma RecoveryTidy(s: State, e: Event)
    requires Inv(s) && Enabled(s, e) && RecoveryEvent(e)
    ensures Tidy(s, Apply(s, e))
  {
    hide *;
    RecoveryCases(s, e);
    if e.Crash? {
      ModeStepsTidy(s, []);
    } else if e.Load? {
      ModeStepsTidy(s, e.order);
    } else if e.ResolveMarker? {
      ResolveTidy(s, e.ts);
    } else if e.Tell? {
      TellTidy(s);
    } else if e.MarkersDone? {
      ModeStepsTidy(s, []);
    } else if e.Unstick? {
      UnstickTidy(s, e.rid);
    } else if e.Open? {
      ModeStepsTidy(s, []);
    }
  }

  lemma ModeStepsTidy(s: State, order: seq<Record>)
    ensures Tidy(s, DoCrash(s)) && Tidy(s, DoLoad(s, order)) && Tidy(s, DoMarkersDone(s)) && Tidy(s, DoOpen(s))
  {
    hide StuckRids, Markers, RequestFold, MaxId;
  }

  lemma UnstickTidy(s: State, rid: Rid)
    requires CanUnstick(s, rid)
    ensures Tidy(s, DoUnstick(s, rid))
  {
    hide StuckVerdict, LineOf;
  }

  lemma TellTidy(s: State)
    requires CanTell(s)
    ensures Tidy(s, DoTell(s))
  {
    hide LineOf;
  }

  lemma ResolveTidy(s: State, ts: nat)
    requires Inv(s) && CanResolveMarker(s, ts)
    ensures Tidy(s, DoResolveMarker(s, ts))
  {
    hide Inv, DoResolveMarker, Classify, Fold, RequestFold, MaxId;
    MarkerFacts(s);
    ResolveDisk(s, ts);
    GuardedInstall(s);
  }

  lemma GuardedInstall(s: State)
    requires Inv(s) && s.lock.Held?
    ensures s.lock.stage.Installed? <==> s.lock.m.id in s.h.installed
  {
    hide Fold, RequestFold, MaxId;
  }

  lemma {:induction false} RunTidy(s: State, run: seq<Event>)
    requires Inv(s) && ValidRun(s, run)
    ensures Tidy(s, After(s, run))
    decreases |run|
  {
    hide Inv, Enabled, Apply;
    if run != [] {
      StepKeeps(s, run[0]);
      StepTidy(s, run[0]);
      RunTidy(Apply(s, run[0]), run[1..]);
    }
  }

  /**
   In a run that never prunes, and in which nobody writes the file of an unresolved mutation while the server is down,
   each request's mutation is installed at most once, however often the server dies.
   */
  lemma InstallOnceWithoutPrune(s: State, run: seq<Event>, rid: Rid)
    requires Initial(s) && ValidRun(s, run) && NoPrune(run)
    requires After(s, run).h.tampered == {}
    ensures After(s, run).h.installs[rid] <= 1
  {
    hide ValidRun, After, Enabled, Apply, Inv, Later;
    InitialInv(s);
    NoPruneDropsNothing(s, run);
    RunTidy(s, run);
    assert Reachable(After(s, run));
    InstallAtMostOnce(After(s, run), rid);
  }

  // ---- exactly which deaths open the request again ----

  /**
   Exactly which requests a death opens again: of what is being executed or has been answered, a restart forgets those
   whose last line is a claim, of anything but a command, with neither a record in the log nor an install under the
   guard.
   */
  lemma CrashForgets(s: State, run: seq<Event>, t: State, rid: Rid)
    requires Reachable(s) && s.mode.Serving? && rid in s.mem.requests && Restarts(DoCrash(s), run, t)
    ensures rid !in t.mem.requests <==>
      var answers := RequestFold(s.disk.reqs);
      && rid in answers && IsPending(answers[rid]) && answers[rid].op != Some(OpExec)
      && !HasRecord(Fold(s.disk.ops), rid) && !(s.lock.Held? && s.lock.stage.Installed? && s.lock.m.rid == rid)
  {
    hide Reachable, Inv, Fold, RequestFold, NoClash, Restarts, OnRecord, HasRecord, Step;
    var c := DoCrash(s);
    ReachableInv(s);
    CrashStep(s);
    ReachableByStep(s, c);
    ReachableInv(c);
    ServingUntampered(s);
    UntamperedNoClash(c);
    RestartForgets(c, run, t, rid);
    EntryHasLine(s, rid);
    RecordsNow(s, rid);
  }

  lemma EntryHasLine(s: State, rid: Rid)
    requires Inv(s) && s.mode.Serving? && rid in s.mem.requests
    ensures rid in RequestFold(s.disk.reqs)
  {
    hide Fold, RequestFold, MaxId;
  }

  /** While serving, what is on record is a committed record, or the marker of the install under the guard. */
  lemma RecordsNow(s: State, rid: Rid)
    requires Inv(s) && s.mode.Serving?
    ensures OnRecord(s.ws, s.disk.files, Fold(s.disk.ops), rid) <==>
      HasRecord(Fold(s.disk.ops), rid) || (s.lock.Held? && s.lock.stage.Installed? && s.lock.m.rid == rid)
  {
    hide Fold, RequestFold, MaxId, Classify, IdsOk, CounterOk, ReservedOk, BlobsOk, RidsOk, MemOk, ModeOk, RequestsOk,
      CallersOk, CoveredOk, OwnersOk, InstallsOk, RepliesOk, ExecOk, HistoryOk;
    var table := Fold(s.disk.ops);
    ServingUntampered(s);
    UntamperedNoClash(s);
    assert s.lock.Durable() ==> Describes(table[s.lock.m.id], s.lock.m);
    if OnRecord(s.ws, s.disk.files, table, rid) {
      var id :| Live1(table, id, rid) && (table[id].Prepared? ==> Classify(s.ws, s.disk.files, table[id]).Took?);
      assert table[id].IsCommitted() ==> Committed1(table, id, rid);
    }
    if HasRecord(table, rid) {
      var id :| Committed1(table, id, rid);
      assert Live1(table, id, rid);
    }
    if s.lock.Held? && s.lock.stage.Installed? && s.lock.m.rid == rid {
      assert Live1(table, s.lock.m.id, rid);
    }
  }

  // ---- a mutation that is done and can be claimed again ----

  /** A gc that keeps nothing, and death before its second log is rewritten. */
  function GcAndDie(rid: Rid): seq<Event> {
    [PruneBegin(0), PruneCounter, PruneOps, Crash, Load([]), MarkersDone, Unstick(rid)]
  }

  /**
   How an installed and committed mutation is opened again although prune forgot no entry: its guard is released before
   its answer is durable, a gc drops its record in between, and the server dies before the answer. This run is possible
   from every state in which a mutation is about to be answered.
   */
  lemma PrunedInFlight(s: State, rid: Rid) returns (t: State)
    requires Reachable(s) && CanPruneBegin(s, 0)
    requires rid in s.owners && s.owners[rid].Answering? && rid in s.h.requestOf && s.h.requestOf[rid].IsMutation()
    ensures Leads(s, GcAndDie(rid), t) && rid !in t.mem.requests
    ensures t.h.installs == s.h.installs && t.h.forgotten[rid] == s.h.forgotten[rid] && t.h.undone == s.h.undone
    ensures t.h.pruned[rid] == s.h.pruned[rid] + if rid in FileRids(Fold(s.disk.ops)) then 1 else 0
    ensures t.mode == Unsticking(StuckRids(RequestFold(s.disk.reqs)) - {rid}) && t.mem.records == []
    ensures t.owners == map[]
    ensures t.callers == map[] && t.lock.Free? && t.ws == s.ws && t.disk.files == s.disk.files
    ensures t.h.requestOf == s.h.requestOf
  {
    hide Reachable, Inv, Does, Step, Leads, RequestFold, StuckRids, FileRids;
    ReachableInv(s);
    InFlight(s, rid);
    var a := DropAll(s, rid);
    CrashStep(a);
    var b := DoCrash(a);
    var c := LoadBare(b);
    UnstickStep(c, rid);
    t := DoUnstick(c, rid);
    LeadsOn(s, [PruneBegin(0), PruneCounter, PruneOps], a, Crash, b);
    LeadsFurther(s, [PruneBegin(0), PruneCounter, PruneOps] + [Crash], b, [Load([]), MarkersDone], c);
    LeadsOn(s, [PruneBegin(0), PruneCounter, PruneOps] + [Crash] + [Load([]), MarkersDone], c, Unstick(rid), t);
    assert GcAndDie(rid)
        == [PruneBegin(0), PruneCounter, PruneOps] + [Crash] + [Load([]), MarkersDone] + [Unstick(rid)];
  }

  lemma InFlight(s: State, rid: Rid)
    requires Inv(s) && s.mode.Serving? && rid in s.owners && rid in s.h.requestOf && s.h.requestOf[rid].IsMutation()
    ensures rid in s.mem.requests && IsPending(s.mem.requests[rid])
    ensures var answers := RequestFold(s.disk.reqs);
      rid in answers && IsPending(answers[rid]) && rid in StuckRids(answers) && StuckVerdict([], rid,
          answers[rid]) == None
  {
    hide Fold, RequestFold, MaxId, IdsOk, CounterOk, ReservedOk, BlobsOk, EffectsOk, RidsOk, MarkerOk, LockOk, MemOk,
      CallersOk, CoveredOk, OwnersOk, InstallsOk, RepliesOk, ExecOk, HistoryOk;
    OwnerPending(s, rid);
  }

  lemma DropAll(s: State, rid: Rid) returns (t: State)
    requires CanPruneBegin(s, 0) && rid in s.mem.requests && IsPending(s.mem.requests[rid])
    ensures Leads(s, [PruneBegin(0), PruneCounter, PruneOps], t)
    ensures t.mode == Pruning(2, s.mem.records) && t.disk.ops == [] && t.disk.reqs == s.disk.reqs && t.lock.Free?
    ensures t.ws == s.ws && t.disk.files == s.disk.files && t.h.requestOf == s.h.requestOf
    ensures t.h.installs == s.h.installs && t.h.forgotten[rid] == s.h.forgotten[rid] && t.h.undone == s.h.undone
    ensures t.h.pruned[rid] == s.h.pruned[rid] + if rid in FileRids(Fold(s.disk.ops)) then 1 else 0
  {
    hide Does, Step, Leads;
    PruneBeginStep(s, 0);
    var a := DoPruneBegin(s, 0);
    PruneCounterStep(a);
    var b := DoPruneCounter(a);
    Two(s, PruneBegin(0), a, PruneCounter, b);
    PruneOpsStep(b);
    t := DoPruneOps(b);
    LeadsOn(s, [PruneBegin(0), PruneCounter], b, PruneOps, t);
    assert [PruneBegin(0), PruneCounter] + [PruneOps] == [PruneBegin(0), PruneCounter, PruneOps];
    assert FileRids(map[]) == {};
  }

  // ---- whatever can be claimed can be installed ----

  /** One mutation request up to its install. */
  function OneInstall(c: nat, rid: Rid, request: Request, ts: nat): seq<Event> {
    [Arrive(c, rid, request), AppendClaim(c), Settle(c), Begin(rid), SaveBlob, LogMarker(ts), Install]
  }

  /** A request without an entry is claimed, and if its mutation is accepted, installed. */
  lemma ClaimAndInstall(s: State, c: nat, rid: Rid, request: Request, ts: nat) returns (t: State)
    requires CanArrive(s, c, rid, request) && s.lock.Free? && request.IsMutation()
    requires Decide(s.ws, s.disk.files, s.disk.blobs, s.mem.records, request).Ok?
    ensures Leads(s, OneInstall(c, rid, request, ts), t)
    ensures var p := Decide(s.ws, s.disk.files, s.disk.blobs, s.mem.records, request).value;
      && t.disk.files == Store(s.disk.files, p.key, p.after)
      && t.lock == Held(Mutation(s.mem.nextId + 1, rid, p), Installed, false)
    ensures t.mode.Serving? && t.ws == s.ws && t.owners == s.owners[rid := Claimed(request)] && t.callers == s.callers
    ensures t.disk.reqs == s.disk.reqs + [LineOf(rid, Pending(request.Op()))]
    ensures t.h.installs == s.h.installs + multiset{rid} && t.h.requestOf == s.h.requestOf[rid := request]
    ensures t.h.forgotten == s.h.forgotten && t.h.undone == s.h.undone
  {
    hide Does, Step, Leads, LineOf, Decide, Store;
    var u := Claim(s, c, rid, request);
    t := InstallNow(u, rid, ts);
    LeadsFurther(s, [Arrive(c, rid, request), AppendClaim(c), Settle(c)], u,
        [Begin(rid), SaveBlob, LogMarker(ts), Install], t);
    assert OneInstall(c, rid, request, ts)
        == [Arrive(c, rid, request), AppendClaim(c), Settle(c)] + [Begin(rid), SaveBlob, LogMarker(ts), Install];
  }

  lemma Claim(s: State, c: nat, rid: Rid, request: Request) returns (t: State)
    requires CanArrive(s, c, rid, request)
    ensures Leads(s, [Arrive(c, rid, request), AppendClaim(c), Settle(c)], t)
    ensures t.mode == s.mode && t.lock == s.lock && t.ws == s.ws && t.callers == s.callers
    ensures t.owners == s.owners[rid := Claimed(request)] && t.h == s.h.(requestOf := s.h.requestOf[rid := request])
    ensures t.disk == s.disk.(reqs := s.disk.reqs + [LineOf(rid, Pending(request.Op()))])
    ensures t.mem.records == s.mem.records && t.mem.nextId == s.mem.nextId
  {
    hide Does, Step, Leads, LineOf;
    ArriveStep(s, c, rid, request);
    var s1 := DoArrive(s, c, rid, request);
    AppendClaimStep(s1, c);
    var s2 := DoAppendClaim(s1, c);
    Two(s, Arrive(c, rid, request), s1, AppendClaim(c), s2);
    SettleStep(s2, c);
    t := DoSettle(s2, c);
    LeadsOn(s, [Arrive(c, rid, request), AppendClaim(c)], s2, Settle(c), t);
    assert [Arrive(c, rid, request), AppendClaim(c)] + [Settle(c)]
        == [Arrive(c, rid, request), AppendClaim(c), Settle(c)];
  }

  lemma InstallNow(s: State, rid: Rid, ts: nat) returns (t: State)
    requires CanBegin(s, rid)
    requires Decide(s.ws, s.disk.files, s.disk.blobs, s.mem.records, s.owners[rid].request).Ok?
    ensures Leads(s, [Begin(rid), SaveBlob, LogMarker(ts), Install], t)
    ensures var p := Decide(s.ws, s.disk.files, s.disk.blobs, s.mem.records, s.owners[rid].request).value;
      && t.disk.files == Store(s.disk.files, p.key, p.after)
      && t.lock == Held(Mutation(s.mem.nextId + 1, rid, p), Installed, false)
    ensures t.mode == s.mode && t.ws == s.ws && t.owners == s.owners && t.callers == s.callers
    ensures t.disk.reqs == s.disk.reqs
    ensures t.h.installs == s.h.installs + multiset{rid} && t.h.requestOf == s.h.requestOf
    ensures t.h.forgotten == s.h.forgotten && t.h.undone == s.h.undone
  {
    hide Does, Step, Leads, Decide, MarkerOf, Store;
    BeginStep(s, rid);
    var a := DoBegin(s, rid);
    SaveBlobStep(a);
    var b := DoSaveBlob(a);
    Two(s, Begin(rid), a, SaveBlob, b);
    LogMarkerStep(b, ts);
    var c := DoLogMarker(b, ts);
    InstallStep(c);
    t := DoInstall(c);
    Two(b, LogMarker(ts), c, Install, t);
    LeadsFurther(s, [Begin(rid), SaveBlob], b, [LogMarker(ts), Install], t);
    assert [Begin(rid), SaveBlob] + [LogMarker(ts), Install] == [Begin(rid), SaveBlob, LogMarker(ts), Install];
  }
}
