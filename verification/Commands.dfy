/**
 How often a request's command can be started, and exactly when it can be started once more (server.rs: new,
 handle_exec; store.rs: prune, recover).
 */
module Commands {
  import opened Prelude
  import opened Protocol
  import opened Tables
  import opened Replies
  import opened Plans
  import opened Machine
  import opened Cases
  import opened Invariant
  import opened Runs
  import opened Steps
  import opened Pruning

  /** The request stands for its command already: it has an entry or a line, and its start is not still to come. */
  ghost predicate Spent(s: State, rid: Rid) {
    && rid in s.h.requestOf && s.h.requestOf[rid] == ExecRequest
    && (if Up(s.mode) then rid in s.mem.requests && !NotStarted(s.owners, rid) else rid in RequestFold(s.disk.reqs))
  }

  ghost predicate NoPrune(run: seq<Event>) { forall e :: e in run ==> !e.PruneBegin? }

  // ---- spent requests start nothing ----

  ghost predicate StillSpent(s: State, t: State, rid: Rid) {
    Spent(t, rid) && t.h.spawned[rid] == s.h.spawned[rid]
  }

  lemma SpentStep(s: State, e: Event, rid: Rid)
    requires Inv(s) && Spent(s, rid) && Enabled(s, e) && !e.PruneBegin?
    ensures StillSpent(s, Apply(s, e), rid)
  {
    hide *;
    EventKinds(e);
    if WorkEvent(e) {
      WorkSpent(s, e, rid);
    } else if RecoveryEvent(e) {
      RecoverySpent(s, e, rid);
    } else if ClaimEvent(e) {
      ClaimSpent(s, e, rid);
    } else {
      PruneSpent(s, e, rid);
    }
  }

  lemma WorkSpent(s: State, e: Event, rid: Rid)
    requires Inv(s) && Spent(s, rid) && Enabled(s, e) && WorkEvent(e)
    ensures StillSpent(s, Apply(s, e), rid)
  {
    hide *;
    WorkCases(s, e);
    if e.StartExec? || e.Spawn? || e.EndExec? || e.LogTransfer? {
      CommandSpent(s, e, rid);
    } else {
      MutationSpent(s, e, rid);
    }
  }

  lemma MutationSpent(s: State, e: Event, rid: Rid)
    requires Inv(s) && Spent(s, rid) && Enabled(s, e)
    requires e.Begin? || e.SaveBlob? || e.LogMarker? || e.Install? || e.Commit?
    ensures StillSpent(s, Apply(s, e), rid)
  {
    hide Inv, Decide, MaxId, Upsert, MarkerOf, CommitOf, ReplyTo, Store, RequestFold;
  }

  lemma CommandSpent(s: State, e: Event, rid: Rid)
    requires Inv(s) && Spent(s, rid) && Enabled(s, e)
    requires e.StartExec? || e.Spawn? || e.EndExec? || e.LogTransfer?
    ensures StillSpent(s, Apply(s, e), rid)
  {
    hide Inv, MaxId, ExecReply, ExecDataOf, RequestFold;
  }

  lemma ClaimSpent(s: State, e: Event, rid: Rid)
    requires Spent(s, rid) && Enabled(s, e) && ClaimEvent(e)
    ensures StillSpent(s, Apply(s, e), rid)
  {
    hide Enabled, Apply, Wire, Store, LineOf, RequestFold, DoTouch, CanTouch;
    ClaimCases(s, e);
    if e.Touch? {
      TouchSpent(s, e.key, e.content, rid);
    }
  }

  lemma PruneSpent(s: State, e: Event, rid: Rid)
    requires Spent(s, rid) && Enabled(s, e) && PruneEvent(e)
    ensures StillSpent(s, Apply(s, e), rid)
  {
    hide Enabled, Apply, Rewrites, FileRids, Fold, RequestFold;
    PruneCases(s, e);
  }

  lemma TouchSpent(s: State, key: string, content: Option<Bytes>, rid: Rid)
    requires Spent(s, rid)
    ensures StillSpent(s, DoTouch(s, key, content), rid)
  {
    hide RequestFold, Store;
  }

  lemma RecoverySpent(s: State, e: Event, rid: Rid)
    requires Inv(s) && Spent(s, rid) && Enabled(s, e) && RecoveryEvent(e)
    ensures StillSpent(s, Apply(s, e), rid)
  {
    hide *;
    RecoveryCases(s, e);
    if e.Crash? {
      CrashSpent(s, rid);
    } else if e.Load? {
      LoadSpent(s, e.order, rid);
    } else if e.ResolveMarker? {
      ResolveSpent(s, e.ts, rid);
    } else if e.Tell? {
      TellSpent(s, rid);
    } else if e.MarkersDone? {
      MarkersDoneSpent(s, rid);
    } else if e.Unstick? {
      UnstickSpent(s, e.rid, rid);
    } else if e.Open? {
      OpenSpent(s, rid);
    }
  }

  lemma CrashSpent(s: State, rid: Rid)
    requires Inv(s) && Spent(s, rid) && CanCrash(s)
    ensures StillSpent(s, DoCrash(s), rid)
  {
    hide Fold, RequestFold, MaxId, IdsOk, CounterOk, ReservedOk, BlobsOk, EffectsOk, RidsOk, MarkerOk, LockOk, MemOk,
      ModeOk, CallersOk, CoveredOk, OwnersOk, InstallsOk, RepliesOk, ExecOk, HistoryOk;
  }

  lemma LoadSpent(s: State, order: seq<Record>, rid: Rid)
    requires Spent(s, rid) && CanLoad(s, order)
    ensures StillSpent(s, DoLoad(s, order), rid)
  {
    hide Fold, RequestFold, MaxId, Markers, Enumerates;
  }

  lemma ResolveSpent(s: State, ts: nat, rid: Rid)
    requires Spent(s, rid) && CanResolveMarker(s, ts)
    ensures StillSpent(s, DoResolveMarker(s, ts), rid)
  {
    hide RequestFold, Classify, Reconstruct, Upsert, WithoutMarker;
  }

  lemma TellSpent(s: State, rid: Rid)
    requires Spent(s, rid) && CanTell(s)
    ensures StillSpent(s, DoTell(s), rid)
  {
    hide RequestFold, LineOf;
    RequestFoldAppend(s.disk.reqs, LineOf(s.mode.rid, Terminal(s.mode.reply)));
  }

  lemma MarkersDoneSpent(s: State, rid: Rid)
    requires Spent(s, rid) && CanMarkersDone(s)
    ensures StillSpent(s, DoMarkersDone(s), rid)
  {
    hide RequestFold, StuckRids;
  }

  lemma UnstickSpent(s: State, r: Rid, rid: Rid)
    requires Spent(s, rid) && CanUnstick(s, r)
    ensures StillSpent(s, DoUnstick(s, r), rid)
  {
    hide RequestFold, LineOf, StuckVerdict;
    var v := StuckVerdict(s.mem.records, r, s.mem.requests[r]);
    if v.Some? {
      RequestFoldAppend(s.disk.reqs, LineOf(r, Terminal(v.value)));
    }
  }

  /** Recovery never clears a command, so its line has an entry when serving begins. */
  lemma OpenSpent(s: State, rid: Rid)
    requires Inv(s) && Spent(s, rid) && CanOpen(s)
    ensures StillSpent(s, DoOpen(s), rid)
  {
    hide Fold, RequestFold, MaxId, IdsOk, CounterOk, ReservedOk, BlobsOk, EffectsOk, RidsOk, MarkerOk, LockOk, MemOk,
      CallersOk, CoveredOk, OwnersOk, InstallsOk, RepliesOk, ExecOk, HistoryOk;
    assert s.callers == map[] && s.owners == map[];
    assert rid !in s.mem.requests ==> Unentered(rid, RequestFold(s.disk.reqs)[rid], s.callers);
  }

  lemma {:induction false} SpentRun(s: State, run: seq<Event>, rid: Rid)
    requires Inv(s) && Spent(s, rid) && ValidRun(s, run) && NoPrune(run)
    ensures StillSpent(s, After(s, run), rid)
    decreases |run|
  {
    hide Inv, Spent, Enabled, Apply;
    if run != [] {
      assert run[0] in run;
      StepKeeps(s, run[0]);
      SpentStep(s, run[0], rid);
      SpentRun(Apply(s, run[0]), run[1..], rid);
    }
  }

  // ---- whatever is not spent can be started ----

  /** The server can go on from here to start the request's command, without pruning first. */
  ghost predicate Startable(s: State, rid: Rid) {
    exists run, t :: Leads(s, run, t) && NoPrune(run) && t.h.spawned[rid] > s.h.spawned[rid]
  }

  lemma {:induction false} FreshCaller(callers: map<nat, Caller>) returns (c: nat)
    ensures c !in callers
  {
    c := Above(callers.Keys);
  }

  lemma {:induction false} Above(ids: set<nat>) returns (c: nat)
    ensures forall id :: id in ids ==> id < c
    decreases |ids|
  {
    c := 0;
    if ids != {} {
      var id :| id in ids;
      var d := Above(ids - {id});
      c := Max(id, d) + 1;
      assert forall i :: i in ids ==> i == id || i in ids - {id};
    }
  }

  ghost predicate Starts(s: State, run: seq<Event>, t: State, rid: Rid) {
    Leads(s, run, t) && NoPrune(run) && t.h.spawned[rid] == s.h.spawned[rid] + 1
  }

  lemma Earlier(s: State, e: Event, t: State, run: seq<Event>, u: State, rid: Rid)
    requires Does(s, e, t) && !e.PruneBegin? && t.h.spawned[rid] == s.h.spawned[rid] && Starts(t, run, u, rid)
    ensures Starts(s, [e] + run, u, rid)
  {
    hide Enabled, Apply;
    LeadsNowhere(s);
    LeadsOn(s, [], s, e, t);
    assert [] + [e] == [e];
    LeadsFurther(s, [e], t, run, u);
  }

  lemma SpawnNow(s: State, rid: Rid) returns (run: seq<Event>, t: State)
    requires CanSpawn(s, rid)
    ensures Starts(s, run, t, rid)
  {
    hide Does, Step, Leads;
    SpawnStep(s, rid);
    t := DoSpawn(s, rid);
    LeadsNowhere(s);
    LeadsOn(s, [], s, Spawn(rid), t);
    run := [] + [Spawn(rid)];
  }

  lemma StartNow(s: State, rid: Rid) returns (run: seq<Event>, t: State)
    requires CanStartExec(s, rid)
    ensures Starts(s, run, t, rid)
  {
    hide Does, Step, Leads, Starts;
    StartExecStep(s, rid);
    var more;
    more, t := SpawnNow(DoStartExec(s, rid), rid);
    Earlier(s, StartExec(rid), DoStartExec(s, rid), more, t, rid);
    run := [StartExec(rid)] + more;
  }

  /** Without an entry, the request can be claimed and its command started: the converse of ExecAtMostOnce. */
  lemma ClaimAndStart(s: State, rid: Rid) returns (run: seq<Event>, t: State)
    requires s.mode.Serving? && rid !in s.mem.requests && (rid in s.h.requestOf ==> s.h.requestOf[rid] == ExecRequest)
    ensures Starts(s, run, t, rid)
  {
    hide Does, Step, Leads, Starts, LineOf;
    var c := FreshCaller(s.callers);
    ArriveStep(s, c, rid, ExecRequest);
    var s1 := DoArrive(s, c, rid, ExecRequest);
    AppendClaimStep(s1, c);
    var s2 := DoAppendClaim(s1, c);
    SettleStep(s2, c);
    var s3 := DoSettle(s2, c);
    run, t := StartNow(s3, rid);
    Earlier(s2, Settle(c), s3, run, t, rid);
    Earlier(s1, AppendClaim(c), s2, [Settle(c)] + run, t, rid);
    Earlier(s, Arrive(c, rid, ExecRequest), s1, [AppendClaim(c)] + ([Settle(c)] + run), t, rid);
    run := [Arrive(c, rid, ExecRequest)] + ([AppendClaim(c)] + ([Settle(c)] + run));
  }

  lemma StartClaimed(s: State, rid: Rid) returns (run: seq<Event>, t: State)
    requires Inv(s) && s.mode.Serving? && NotStarted(s.owners, rid) && s.h.requestOf[rid] == ExecRequest
    requires rid in s.h.requestOf
    ensures Starts(s, run, t, rid)
  {
    hide Inv, Starts;
    if s.owners[rid].Claimed? {
      OwnersAsked(s, rid);
      run, t := StartNow(s, rid);
    } else {
      run, t := SpawnNow(s, rid);
    }
  }

  lemma OwnersAsked(s: State, rid: Rid)
    requires Inv(s) && rid in s.owners && s.owners[rid].Claimed?
    ensures rid in s.h.requestOf && s.owners[rid].request == s.h.requestOf[rid]
  {
    hide Fold, RequestFold, MaxId;
  }

  /**
   While the server is up, a command can be started, through any number of deaths and restarts but no prune, if and
   only if its request has no entry, or its entry's execution has not started it yet.
   */
  lemma StartableIff(s: State, rid: Rid)
    requires Reachable(s) && s.mode.Serving? && (rid in s.h.requestOf ==> s.h.requestOf[rid] == ExecRequest)
    ensures Startable(s, rid) <==> rid !in s.mem.requests || NotStarted(s.owners, rid)
  {
    hide Reachable, Inv, Leads, Starts, NoPrune;
    ReachableInv(s);
    EntryAsked(s, rid);
    if rid !in s.mem.requests {
      var run, t := ClaimAndStart(s, rid);
      Started(s, run, t, rid);
    } else if NotStarted(s.owners, rid) {
      var run, t := StartClaimed(s, rid);
      Started(s, run, t, rid);
    } else {
      forall run, t | Leads(s, run, t) && NoPrune(run) ensures t.h.spawned[rid] == s.h.spawned[rid] {
        NeverStarts(s, run, t, rid);
      }
    }
  }

  lemma Started(s: State, run: seq<Event>, t: State, rid: Rid)
    requires Starts(s, run, t, rid)
    ensures Startable(s, rid)
  {
    hide Leads, NoPrune;
  }

  lemma NeverStarts(s: State, run: seq<Event>, t: State, rid: Rid)
    requires Inv(s) && Spent(s, rid) && Leads(s, run, t) && NoPrune(run)
    ensures t.h.spawned[rid] == s.h.spawned[rid]
  {
    hide Inv, Spent, ValidRun, After, NoPrune;
    SpentRun(s, run, rid);
  }

  lemma EntryAsked(s: State, rid: Rid)
    requires Inv(s) && s.mode.Serving?
    ensures rid in s.mem.requests ==> rid in s.h.requestOf
    ensures NotStarted(s.owners, rid) ==> rid in s.mem.requests
  {
    hide Fold, RequestFold, MaxId, IdsOk, CounterOk, ReservedOk, BlobsOk, EffectsOk, RidsOk, MarkerOk, LockOk, MemOk,
      CallersOk, CoveredOk, OwnersOk, InstallsOk, RepliesOk, ExecOk, HistoryOk;
  }

  // ---- exactly which prunes allow one more start ----

  /**
   A prune allows a command that was started once to be started again if and only if, when it began, the request was
   no longer being executed and none of the records it retained mentioned the request.
   */
  lemma PruneReenables(s: State, keep: nat, rid: Rid, run: seq<Event>, t: State)
    requires Reachable(s) && CanPruneBegin(s, keep) && Spent(s, rid) && Prunes(DoPruneBegin(s, keep), run, t)
    ensures Startable(t, rid) <==>
      rid !in s.owners && forall r :: r in Newest(s.mem.records, keep) && !r.Aborted? ==>
          r.rid != rid
  {
    hide Reachable, Retained, Startable, Step, RequestFold, Does, RequestIds;
    PruneBeginStep(s, keep);
    ReachableByStep(s, DoPruneBegin(s, keep));
    AfterPrune(DoPruneBegin(s, keep), run, t);
    StartableIff(t, rid);
    PruneForgets(s, keep, rid);
  }

  lemma AfterPrune(a: State, run: seq<Event>, t: State)
    requires Reachable(a) && Prunes(a, run, t)
    ensures Reachable(t) && t.mode.Serving? && SameTables(a, t)
  {
    hide Reachable, PruneEvent, ValidRun, After, SameTables;
    ReachableLead(a, run, t);
    RunSameTables(a, run);
  }

  // ---- the startup prune ----

  /** What a server with a history limit does to open a directory that holds no records. */
  function StartupPrune(keep: nat): seq<Event> {
    [Open, PruneBegin(keep), PruneCounter, PruneOps, PruneReqs([]), PruneEnd]
  }

  /** One command request, its command started. */
  function OneCommand(rid: Rid): seq<Event> {
    [Arrive(0, rid, ExecRequest), AppendClaim(0), Settle(0), StartExec(rid), Spawn(rid)]
  }

  /** Start, serve one command, die while it runs, start again, and serve the same request id. */
  function TwiceRun(rid: Rid, keep: nat): seq<Event> {
    ([Load([]), MarkersDone] + StartupPrune(keep) + OneCommand(rid))
    + ([Crash, Load([]), MarkersDone, Unstick(rid)] + StartupPrune(keep) + OneCommand(rid))
  }

  /** No records, nobody at work. */
  ghost predicate Bare(s: State) {
    s.disk.ops == [] && s.mem.records == [] && s.lock.Free? && s.owners == map[] && s.callers == map[]
  }

  lemma Two(s: State, e1: Event, t: State, e2: Event, u: State)
    requires Does(s, e1, t) && Does(t, e2, u)
    ensures Leads(s, [e1, e2], u)
  {
    hide Does, Leads;
    LeadsNowhere(s);
    LeadsOn(s, [], s, e1, t);
    LeadsOn(s, [] + [e1], t, e2, u);
    assert [] + [e1] + [e2] == [e1, e2];
  }

  lemma LoadBare(s: State) returns (t: State)
    requires Bare(s) && s.mode.Down?
    ensures Leads(s, [Load([]), MarkersDone], t)
    ensures t == s.(mem := Memory([], RequestFold(s.disk.reqs), HighWater(s.disk)),
        mode := Unsticking(StuckRids(RequestFold(s.disk.reqs))))
  {
    hide Does, Step, Leads, RequestFold, MaxId, StuckRids;
    assert Enumerates([], Fold(s.disk.ops));
    LoadStep(s, []);
    MarkersDoneStep(DoLoad(s, []));
    t := DoMarkersDone(DoLoad(s, []));
    Two(s, Load([]), DoLoad(s, []), MarkersDone, t);
  }

  lemma OpenAndPrune(s: State, keep: nat) returns (t: State)
    requires Bare(s) && s.mode == Unsticking({}) && forall r :: r in s.mem.requests ==>
        !s.mem.requests[r].status.InProgress?
    ensures Leads(s, StartupPrune(keep), t) && Bare(t) && t.mode.Serving? && t.mem.requests == map[]
    ensures t.disk.reqs == []
    ensures t.h.spawned == s.h.spawned && t.h.requestOf == s.h.requestOf && t.ws == s.ws && t.disk.files == s.disk.files
  {
    hide Does, Step, Leads, FileRids;
    OpenStep(s);
    var a := DoOpen(s);
    PruneBeginStep(a, keep);
    var b := DoPruneBegin(a, keep);
    assert b.mem.requests == map[];
    Two(s, Open, a, PruneBegin(keep), b);
    PruneCounterStep(b);
    var c := DoPruneCounter(b);
    PruneOpsStep(c);
    var d := DoPruneOps(c);
    Two(b, PruneCounter, c, PruneOps, d);
    t := EndPrune(d);
    LeadsFurther(s, [Open, PruneBegin(keep)], b, [PruneCounter, PruneOps], d);
    LeadsFurther(s, [Open, PruneBegin(keep)] + [PruneCounter, PruneOps], d, [PruneReqs([]), PruneEnd], t);
    assert StartupPrune(keep) == [Open, PruneBegin(keep)] + [PruneCounter, PruneOps] + [PruneReqs([]), PruneEnd];
  }

  lemma EndPrune(s: State) returns (t: State)
    requires s.mode == Pruning(2, []) && s.mem.requests == map[]
    ensures Leads(s, [PruneReqs([]), PruneEnd], t)
    ensures t == s.(mode := Serving, disk := s.disk.(reqs := []))
  {
    hide Does, Step, Leads;
    assert Rewrites([], s.mem.requests);
    PruneReqsStep(s, []);
    PruneEndStep(DoPruneReqs(s, []));
    t := DoPruneEnd(DoPruneReqs(s, []));
    Two(s, PruneReqs([]), DoPruneReqs(s, []), PruneEnd, t);
  }

  lemma ServeCommand(s: State, rid: Rid) returns (t: State)
    requires Bare(s) && s.mode.Serving? && s.mem.requests == map[] && s.disk.reqs == []
    requires rid in s.h.requestOf ==> s.h.requestOf[rid] == ExecRequest
    ensures Leads(s, OneCommand(rid), t) && t.mode.Serving? && t.disk.ops == [] && t.lock.Free?
    ensures RequestFold(t.disk.reqs) == map[rid := Pending(OpExec)]
    ensures t.h.requestOf == s.h.requestOf[rid := ExecRequest] && t.h.spawned == s.h.spawned + multiset{rid}
    ensures t.ws == s.ws && t.disk.files == s.disk.files
  {
    hide Does, Step, Leads, RequestFold, LineOf, MaxId;
    var line := LineOf(rid, Pending(OpExec));
    ArriveStep(s, 0, rid, ExecRequest);
    var a := DoArrive(s, 0, rid, ExecRequest);
    AppendClaimStep(a, 0);
    var b := DoAppendClaim(a, 0);
    Two(s, Arrive(0, rid, ExecRequest), a, AppendClaim(0), b);
    OneLine(line);
    EntryOfLineOf(rid, Pending(OpExec));
    assert b.disk.reqs == [line];
    t := Run(b, rid);
    LeadsFurther(s, [Arrive(0, rid, ExecRequest), AppendClaim(0)], b, [Settle(0), StartExec(rid), Spawn(rid)], t);
    assert OneCommand(rid) == [Arrive(0, rid, ExecRequest), AppendClaim(0)] + [Settle(0), StartExec(rid), Spawn(rid)];
  }

  lemma OneLine(line: RequestLine)
    ensures RequestFold([line]) == map[line.rid := EntryOf(line)]
  {
    hide EntryOf;
    RequestFoldAppend([], line);
    assert [] + [line] == [line];
  }

  lemma Run(s: State, rid: Rid) returns (t: State)
    requires s.mode.Serving? && s.mem.requests == map[] && s.lock.Free? && 0 in s.callers
    requires s.callers[0] == Caller(rid, ExecRequest, true)
    ensures Leads(s, [Settle(0), StartExec(rid), Spawn(rid)], t)
    ensures t.ws == s.ws && t.mode == s.mode && t.disk == s.disk && t.lock == s.lock
    ensures t.h == s.h.(spawned := s.h.spawned + multiset{rid})
  {
    hide Does, Step, Leads;
    SettleStep(s, 0);
    var a := DoSettle(s, 0);
    StartExecStep(a, rid);
    var b := DoStartExec(a, rid);
    Two(s, Settle(0), a, StartExec(rid), b);
    SpawnStep(b, rid);
    t := DoSpawn(b, rid);
    LeadsOn(s, [Settle(0), StartExec(rid)], b, Spawn(rid), t);
    assert [Settle(0), StartExec(rid)] + [Spawn(rid)] == [Settle(0), StartExec(rid), Spawn(rid)];
  }

  /** Death while the command runs: the restart marks the request as lost, never to be retried. */
  lemma DieAndMark(s: State, rid: Rid) returns (t: State)
    requires s.mode.Serving? && s.disk.ops == [] && s.lock.Free?
    requires RequestFold(s.disk.reqs) == map[rid := Pending(OpExec)]
    ensures Leads(s, [Crash, Load([]), MarkersDone, Unstick(rid)], t)
    ensures Bare(t) && t.mode == Unsticking({}) && t.mem.requests == map[rid := Terminal(StoredError(EXEC_LOST))]
    ensures t.h == s.h && t.ws == s.ws && t.disk.files == s.disk.files
  {
    hide Does, Step, Leads, RequestFold, MaxId, StuckRids, LineOf;
    CrashStep(s);
    var a := DoCrash(s);
    var b := LoadBare(a);
    OneStuck(rid);
    UnstickStep(b, rid);
    t := DoUnstick(b, rid);
    assert {rid} - {rid} == {};
    LeadsNowhere(s);
    LeadsOn(s, [], s, Crash, a);
    LeadsFurther(s, [] + [Crash], a, [Load([]), MarkersDone], b);
    LeadsOn(s, [] + [Crash] + [Load([]), MarkersDone], b, Unstick(rid), t);
    assert [] + [Crash] + [Load([]), MarkersDone] + [Unstick(rid)] == [Crash, Load([]), MarkersDone, Unstick(rid)];
  }

  lemma OneStuck(rid: Rid)
    ensures StuckRids(map[rid := Pending(OpExec)]) == {rid} && StuckRids(map[]) == {}
  {
  }

  /**
   The documented rule that a command is never retried fails with the startup prune, for every workspace and every
   limit: from any directory nobody used yet, this very run starts the same request's command twice. Its only prunes
   are the two that follow the two openings, with that limit.
   */
  lemma ExecRunsTwice(s: State, rid: Rid, keep: nat) returns (t: State)
    requires Initial(s)
    ensures Leads(s, TwiceRun(rid, keep), t) && t.h.spawned[rid] == 2
    ensures t.ws == s.ws && t.disk.files == s.disk.files
  {
    hide Leads, StartupPrune, OneCommand, StuckRids;
    var a := LoadBare(s);
    OneStuck(rid);
    var b, c := OpenAndServe(a, rid, keep);
    var d := DieAndMark(c, rid);
    var e;
    e, t := OpenAndServe(d, rid, keep);
    LeadsFurther(s, [Load([]), MarkersDone], a, StartupPrune(keep) + OneCommand(rid), c);
    LeadsFurther(c, [Crash, Load([]), MarkersDone, Unstick(rid)], d, StartupPrune(keep) + OneCommand(rid), t);
    var first := [Load([]), MarkersDone] + (StartupPrune(keep) + OneCommand(rid));
    var second := [Crash, Load([]), MarkersDone, Unstick(rid)] + (StartupPrune(keep) + OneCommand(rid));
    LeadsFurther(s, first, c, second, t);
    assert TwiceRun(rid, keep) == first + second;
  }

  lemma OpenAndServe(s: State, rid: Rid, keep: nat) returns (t: State, u: State)
    requires Bare(s) && s.mode == Unsticking({}) && forall r :: r in s.mem.requests ==>
        !s.mem.requests[r].status.InProgress?
    requires rid in s.h.requestOf ==> s.h.requestOf[rid] == ExecRequest
    ensures Leads(s, StartupPrune(keep) + OneCommand(rid), u)
    ensures u.mode.Serving? && u.disk.ops == [] && u.lock.Free?
    ensures RequestFold(u.disk.reqs) == map[rid := Pending(OpExec)]
    ensures u.h.requestOf == s.h.requestOf[rid := ExecRequest] && u.h.spawned == s.h.spawned + multiset{rid}
    ensures u.ws == s.ws && u.disk.files == s.disk.files
  {
    hide Leads, StartupPrune, OneCommand, RequestFold;
    t := OpenAndPrune(s, keep);
    u := ServeCommand(t, rid);
    LeadsFurther(s, StartupPrune(keep), t, OneCommand(rid), u);
  }
}
