/** Every mutation under the guard or in the log is what its request was decided to be (server.rs: handle). */
module Planning {
  import opened Prelude
  import opened Protocol
  import opened Tables
  import opened Replies
  import opened Plans
  import opened Machine
  import opened Cases
  import opened Invariant
  import opened ServingProofs
  import opened RecoveryProofs
  import opened Runs

  /** The plan is what its request is decided to be; an undo's is the reverse of its target's. */
  ghost predicate PlanOf(ws: Workspace, effects: map<nat, Mutation>, request: Request, p: Plan) {
    && request.IsMutation()
    && match request
       case UndoRequest(target) =>
         target in effects && !effects[target].plan.kind.Undo? && p == ReversalOf(effects[target].plan)
       case _ => Decide(ws, Store(map[], p.key, p.before), map[], [], request) == Ok(p)
  }

  /** Whatever is under the guard or ever was logged was planned for its request. */
  ghost predicate PlannedOk(ws: Workspace, lock: Lock, effects: map<nat, Mutation>, requestOf: map<Rid, Request>) {
    && (lock.Held? ==> lock.m.rid in requestOf && PlanOf(ws, effects, requestOf[lock.m.rid], lock.m.plan))
    && (forall id :: id in effects ==>
          effects[id].rid in requestOf && PlanOf(ws, effects, requestOf[effects[id].rid], effects[id].plan))
  }

  ghost predicate Planned(s: State) { PlannedOk(s.ws, s.lock, s.h.effects, s.h.requestOf) }

  /** Whatever leaves the guard's mutation, the past and the requests alone, or only releases the guard. */
  ghost predicate SamePlans(s: State, t: State) {
    && t.ws == s.ws && t.h.effects == s.h.effects && t.h.requestOf == s.h.requestOf
    && (t.lock.Held? ==> s.lock.Held? && t.lock.m == s.lock.m)
  }

  lemma StillPlanned(s: State, t: State)
    requires Planned(s) && SamePlans(s, t)
    ensures Planned(t)
  {
    hide PlanOf;
  }

  lemma StepPlanned(s: State, e: Event)
    requires Inv(s) && Planned(s) && Enabled(s, e)
    ensures Planned(Apply(s, e))
  {
    hide *;
    EventKinds(e);
    if WorkEvent(e) {
      WorkPlanned(s, e);
    } else if RecoveryEvent(e) {
      RecoveryPlanned(s, e);
    } else if ClaimEvent(e) {
      ClaimPlanned(s, e);
    } else {
      PrunePlanned(s, e);
    }
  }

  lemma WorkPlanned(s: State, e: Event)
    requires Inv(s) && Planned(s) && Enabled(s, e) && WorkEvent(e)
    ensures Planned(Apply(s, e))
  {
    hide Inv, Planned, Enabled, Apply, DoBegin, DoLogMarker, CanBegin, CanLogMarker;
    hide MaxId, Upsert, ExecReply, ExecDataOf, CommitOf, ReplyTo, Store;
    WorkCases(s, e);
    if e.Begin? {
      BeginPlanned(s, e.rid);
    } else if e.LogMarker? {
      LogMarkerPlanned(s, e.ts);
    } else {
      StillPlanned(s, Apply(s, e));
    }
  }

  lemma ClaimPlanned(s: State, e: Event)
    requires Planned(s) && Enabled(s, e) && ClaimEvent(e)
    ensures Planned(Apply(s, e))
  {
    hide Planned, Enabled, Apply, DoArrive, CanArrive, Store, LineOf, Wire;
    ClaimCases(s, e);
    if e.Arrive? {
      ArrivePlanned(s, e.c, e.rid, e.request);
    } else {
      StillPlanned(s, Apply(s, e));
    }
  }

  lemma PrunePlanned(s: State, e: Event)
    requires Planned(s) && Enabled(s, e) && (PruneEvent(e) || e.PruneBegin?)
    ensures Planned(Apply(s, e))
  {
    hide Planned, Enabled, Apply, Rewrites, Retained, FileRids, Fold;
    PruneCases(s, e);
    StillPlanned(s, Apply(s, e));
  }

  lemma RecoveryPlanned(s: State, e: Event)
    requires Inv(s) && Planned(s) && Enabled(s, e) && RecoveryEvent(e)
    ensures Planned(Apply(s, e))
  {
    hide Inv, Planned, Enabled, Apply, DoResolveMarker, CanResolveMarker;
    hide StuckVerdict, LineOf, Enumerates, Markers, RequestFold, MaxId, StuckRids;
    RecoveryCases(s, e);
    if e.ResolveMarker? {
      ResolvePlanned(s, e.ts);
    } else {
      StillPlanned(s, Apply(s, e));
    }
  }

  lemma ResolvePlanned(s: State, ts: nat)
    requires Inv(s) && Planned(s) && CanResolveMarker(s, ts)
    ensures Planned(DoResolveMarker(s, ts))
  {
    hide Inv, Planned, DoResolveMarker, Resolution, Fold, RequestFold, MaxId;
    ResolveDisk(s, ts);
    StillPlanned(s, DoResolveMarker(s, ts));
  }

  lemma ArrivePlanned(s: State, c: nat, rid: Rid, request: Request)
    requires Planned(s) && CanArrive(s, c, rid, request)
    ensures Planned(DoArrive(s, c, rid, request))
  {
    hide PlanOf;
  }

  lemma BeginPlanned(s: State, rid: Rid)
    requires Inv(s) && Planned(s) && CanBegin(s, rid)
    ensures Planned(DoBegin(s, rid))
  {
    hide Inv, Decide, PlanOf, Fold, RequestFold;
    var request := s.owners[rid].request;
    var decision := Decide(s.ws, s.disk.files, s.disk.blobs, s.mem.records, request);
    OwnerAsked(s, rid);
    if decision.Ok? {
      DecisionPlanned(s, request, decision.value);
    }
  }

  lemma DecisionPlanned(s: State, request: Request, p: Plan)
    requires Inv(s) && s.mode.Serving? && request.IsMutation()
    requires Decide(s.ws, s.disk.files, s.disk.blobs, s.mem.records, request) == Ok(p)
    ensures PlanOf(s.ws, s.h.effects, request, p)
  {
    hide Inv, Fold, RequestFold, PlanCreate, PlanEdit, PlanDelete, PlanUndo;
    if request.UndoRequest? {
      FindRecordFacts(s.mem.records, request.target);
      RecordsInTable(s);
      UndoTarget(s, FindRecord(s.mem.records, request.target).value);
    } else {
      hide Decide;
      DecidedByFile(s.ws, s.disk.files, Store(map[], p.key, Lookup(s.disk.files, p.key)), s.disk.blobs, s.mem.records,
          request, p);
    }
  }

  lemma LogMarkerPlanned(s: State, ts: nat)
    requires Inv(s) && Planned(s) && CanLogMarker(s, ts)
    ensures Planned(DoLogMarker(s, ts))
  {
    hide Inv, PlannedOk, Fold, RequestFold, MaxId, MarkerOf;
    NotLoggedYet(s);
    GuardMoves(s.ws, s.lock, DoLogMarker(s, ts).lock, s.h.effects, s.h.requestOf);
    PlannedLogged(s.ws, DoLogMarker(s, ts).lock, s.h.effects, s.h.requestOf);
  }

  lemma GuardMoves(ws: Workspace, lock: Lock, after: Lock, effects: map<nat, Mutation>, requestOf: map<Rid, Request>)
    requires PlannedOk(ws, lock, effects, requestOf) && lock.Held? && after.Held? && after.m == lock.m
    ensures PlannedOk(ws, after, effects, requestOf)
  {
    hide PlanOf;
  }

  lemma NotLoggedYet(s: State)
    requires Inv(s) && s.lock.Held? && !s.lock.Durable()
    ensures s.lock.m.id !in s.h.effects
  {
    hide Fold, RequestFold, MaxId, IdsOk, CounterOk, BlobsOk, RidsOk, MarkerOk, LockOk, ModeOk, MemOk, RequestsOk;
    hide CallersOk, CoveredOk, OwnersOk, RepliesOk, InstallsOk, ExecOk, HistoryOk;
  }

  /** A mutation logged under a new id takes no other's place. */
  lemma PlannedLogged(ws: Workspace, lock: Lock, effects: map<nat, Mutation>, requestOf: map<Rid, Request>)
    requires PlannedOk(ws, lock, effects, requestOf) && lock.Held? && lock.m.id !in effects
    ensures PlannedOk(ws, lock, effects[lock.m.id := lock.m], requestOf)
  {
    hide Decide, ReversalOf;
    var after := effects[lock.m.id := lock.m];
    forall request, p | PlanOf(ws, effects, request, p) ensures PlanOf(ws, after, request, p) {
    }
  }

  lemma {:induction false} RunPlanned(s: State, run: seq<Event>)
    requires Inv(s) && Planned(s) && ValidRun(s, run)
    ensures Planned(After(s, run))
    decreases |run|
  {
    hide Inv, Planned, Enabled, Apply;
    if run != [] {
      StepKeeps(s, run[0]);
      StepPlanned(s, run[0]);
      RunPlanned(Apply(s, run[0]), run[1..]);
    }
  }

  /** In every reachable state, what is under the guard or was ever logged is what its request was decided to be. */
  lemma ReachablePlanned(s: State)
    requires Reachable(s)
    ensures Planned(s)
  {
    hide Inv, ValidRun, After, PlanOf;
    var s0: State, run: seq<Event> :| Initial(s0) && ValidRun(s0, run) && After(s0, run) == s;
    InitialInv(s0);
    RunPlanned(s0, run);
  }
}
