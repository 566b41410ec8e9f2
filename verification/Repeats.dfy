/**
 Carrying a request out a second time: what its handler makes of the file as it then is (fs_ops.rs: create, edit,
 delete, check_base_hash; undo.rs: undo).
 */
module Repeats {
  import opened Prelude
  import opened Protocol
  import opened Tables
  import opened TextEdit
  import opened Plans
  import opened Machine
  import opened Invariant
  import opened ServingProofs
  import opened Planning
  import opened Runs
  import opened Steps
  import opened Commands
  import opened Mutations

  // ---- what the file must look like ----

  /**
   The file, and for an undo the table, allow the request to be carried out again: create needs the path absent, edit
   the very content it edited, delete any file, undo the state its target left and the target's record.
   */
  ghost predicate Admits(files: Files, records: seq<Record>, request: Request, p: Plan) {
    match request
    case DeleteRequest(_) => Lookup(files, p.key).Some?
    case UndoRequest(target) => Lookup(files, p.key) == p.before && FindRecord(records, target).Some?
    case _ => Lookup(files, p.key) == p.before
  }

  lemma CreateRepeated(ws: Workspace, path: string, content: Bytes, p: Plan, files: Files)
    requires PlanCreate(ws, Store(map[], p.key, p.before), path, content) == Ok(p)
    ensures PlanCreate(ws, files, path, content).Ok? <==> Lookup(files, p.key).None?
    ensures p.before.None? && p.after.Some?
  {
  }

  lemma EditRepeated(ws: Workspace, path: string, base: Hash, o: Bytes, n: Bytes, all: bool, p: Plan, files: Files)
    requires PlanEdit(ws, Store(map[], p.key, p.before), path, base, o, n, all) == Ok(p)
    ensures PlanEdit(ws, files, path, base, o, n, all).Ok? <==> Lookup(files, p.key) == p.before
    ensures p.before.Some? && p.after != p.before
  {
    hide NewContent, CheckArguments;
    EditPlanSound(ws, Store(map[], p.key, p.before), path, base, o, n, all);
  }

  lemma DeleteRepeated(ws: Workspace, path: string, p: Plan, files: Files)
    requires PlanDelete(ws, Store(map[], p.key, p.before), path) == Ok(p)
    ensures PlanDelete(ws, files, path).Ok? <==> Lookup(files, p.key).Some?
    ensures p.after.None?
  {
  }

  /** A create, edit or delete planned once is accepted again exactly when the file admits it. */
  lemma FileRepeated(ws: Workspace, request: Request, p: Plan, files: Files, blobs: Blobs, records: seq<Record>)
    requires request.IsMutation() && !request.UndoRequest?
    requires Decide(ws, Store(map[], p.key, p.before), map[], [], request) == Ok(p)
    ensures Decide(ws, files, blobs, records, request).Ok? <==> Admits(files, records, request, p)
    ensures Lookup(files, p.key) == p.after ==> !Admits(files, records, request, p)
  {
    hide PlanCreate, PlanEdit, PlanDelete, PlanUndo;
    match request
    case CreateRequest(path, content) => CreateRepeated(ws, path, content, p, files);
    case EditRequest(path, base, o, n, all) => EditRepeated(ws, path, base, o, n, all, p, files);
    case DeleteRequest(path) => DeleteRepeated(ws, path, p, files);
  }

  /**
   An undo planned once is accepted again exactly when its target is retained and its file in the target's after state.
   */
  lemma UndoRepeated(s: State, target: nat, p: Plan)
    requires Reachable(s) && s.mode.Serving? && PlanOf(s.ws, s.h.effects, UndoRequest(target), p)
    ensures Decide(s.ws, s.disk.files, s.disk.blobs, s.mem.records, UndoRequest(target)).Ok?
       <==> Admits(s.disk.files, s.mem.records, UndoRequest(target), p)
  {
    hide Reachable, Inv, PlanUndo;
    ReachableInv(s);
    FindRecordFacts(s.mem.records, target);
    RecordsInTable(s);
    var found := FindRecord(s.mem.records, target);
    if found.Some? {
      RecordOfMutation(s, target);
      UndoInverts(s, target);
    }
  }

  lemma RecordOfMutation(s: State, id: nat)
    requires Inv(s) && id in s.h.effects
    ensures id in Fold(s.disk.ops) && Fold(s.disk.ops)[id].IsCommitted() ==> Fold(s.disk.ops)[id].Fs?
  {
    hide Fold, RequestFold, MaxId, IdsOk, CounterOk, ReservedOk, BlobsOk, EffectsOk, RidsOk, MarkerOk, LockOk, ModeOk;
    hide MemOk, RequestsOk, CallersOk, CoveredOk, OwnersOk, RepliesOk, InstallsOk, ExecOk;
  }

  /**
   Once a mutation's marker was logged, its request, carried out again in any later state, is accepted if and only if
   the file admits it; while the file is as the mutation left it, it is refused.
   */
  lemma RepeatIff(s: State, id: nat)
    requires Reachable(s) && s.mode.Serving? && id in s.h.effects
    ensures s.h.effects[id].rid in s.h.requestOf && s.h.requestOf[s.h.effects[id].rid].IsMutation()
    ensures var m := s.h.effects[id];
      var again := Decide(s.ws, s.disk.files, s.disk.blobs, s.mem.records, s.h.requestOf[m.rid]);
      var admitted := Admits(s.disk.files, s.mem.records, s.h.requestOf[m.rid], m.plan);
      (again.Ok? <==> admitted) && (Lookup(s.disk.files, m.plan.key) == m.plan.after ==> again.Err?)
  {
    hide Reachable, Inv, Decide, Admits, GoodPlan;
    ReachableInv(s);
    var m := s.h.effects[id];
    WasPlanned(s, id);
    var request := s.h.requestOf[m.rid];
    if request.UndoRequest? {
      UndoRepeated(s, request.target, m.plan);
      UndoneStays(s.disk.files, s.mem.records, request, m.plan);
    } else {
      FileRepeated(s.ws, request, m.plan, s.disk.files, s.disk.blobs, s.mem.records);
    }
  }

  lemma WasPlanned(s: State, id: nat)
    requires Reachable(s) && id in s.h.effects
    ensures var m := s.h.effects[id];
      m.rid in s.h.requestOf && PlanOf(s.ws, s.h.effects, s.h.requestOf[m.rid], m.plan) && m.plan.after != m.plan.before
  {
    hide Reachable, Inv, PlanOf;
    ReachableInv(s);
    ReachablePlanned(s);
    LoggedPlanGood(s, id);
  }

  lemma LoggedPlanGood(s: State, id: nat)
    requires Inv(s) && id in s.h.effects
    ensures s.h.effects[id].plan.after != s.h.effects[id].plan.before
  {
    hide Fold, RequestFold, MaxId, IdsOk, CounterOk, ReservedOk, BlobsOk, RidsOk, MarkerOk, LockOk, ModeOk, MemOk;
    hide RequestsOk, CallersOk, CoveredOk, OwnersOk, RepliesOk, InstallsOk, ExecOk, HistoryOk;
  }

  lemma UndoneStays(files: Files, records: seq<Record>, request: Request, p: Plan)
    requires request.UndoRequest? && p.after != p.before
    ensures Lookup(files, p.key) == p.after ==> !Admits(files, records, request, p)
  {
  }

  // ---- the second install ----

  lemma RestOfRun(s: State, run: seq<Event>, t: State, more: seq<Event>)
    requires Leads(s, run, t) && ValidRun(s, run + more)
    ensures ValidRun(t, more)
    decreases |run|
  {
    hide Enabled, Apply;
    if run == [] {
      assert run + more == more;
    } else {
      assert (run + more)[1..] == run[1..] + more;
      RestOfRun(Apply(s, run[0]), run[1..], t, more);
    }
  }

  /** A refused request gets no further than its decision. */
  lemma RefusedStops(s: State, rid: Rid, ts: nat)
    requires CanBegin(s, rid)
    requires Decide(s.ws, s.disk.files, s.disk.blobs, s.mem.records, s.owners[rid].request).Err?
    ensures !ValidRun(s, [Begin(rid), SaveBlob, LogMarker(ts), Install])
  {
    hide Decide, Enabled, Apply;
    BeginStep(s, rid);
    var t := DoBegin(s, rid);
    assert [Begin(rid), SaveBlob, LogMarker(ts), Install][1..] == [SaveBlob, LogMarker(ts), Install];
    NoBlobUnguarded(t);
  }

  lemma NoBlobUnguarded(s: State)
    ensures Enabled(s, SaveBlob) ==> s.lock.Held?
  {
  }

  /**
   Exactly when a request whose mutation was made before is installed once more: a request that has no entry, be it
   forgotten by a prune or opened again by a death, is claimed, decided and installed if and only if the file admits it.
   */
  lemma InstallsAgainIff(s: State, id: nat, c: nat, ts: nat)
    requires Reachable(s) && s.mode.Serving? && s.lock.Free? && c !in s.callers
    requires id in s.h.effects && s.h.effects[id].rid !in s.mem.requests
    ensures s.h.effects[id].rid in s.h.requestOf
    ensures var m := s.h.effects[id]; var run := OneInstall(c, m.rid, s.h.requestOf[m.rid], ts);
      && (ValidRun(s, run) <==> Admits(s.disk.files, s.mem.records, s.h.requestOf[m.rid], m.plan))
      && (ValidRun(s, run) ==> After(s, run).h.installs == s.h.installs + multiset{m.rid})
  {
    hide Reachable, Admits, Decide, ValidRun, After, OneInstall, LineOf, Store;
    RepeatIff(s, id);
    var rid := s.h.effects[id].rid;
    var request := s.h.requestOf[rid];
    if Decide(s.ws, s.disk.files, s.disk.blobs, s.mem.records, request).Ok? {
      var t := ClaimAndInstall(s, c, rid, request, ts);
    } else {
      RefusedRun(s, c, rid, request, ts);
    }
  }

  lemma RefusedRun(s: State, c: nat, rid: Rid, request: Request, ts: nat)
    requires CanArrive(s, c, rid, request) && s.lock.Free? && request.IsMutation()
    requires Decide(s.ws, s.disk.files, s.disk.blobs, s.mem.records, request).Err?
    ensures !ValidRun(s, OneInstall(c, rid, request, ts))
  {
    hide Decide, Leads, ValidRun, After, LineOf;
    var t := Claim(s, c, rid, request);
    RefusedStops(t, rid, ts);
    var first := [Arrive(c, rid, request), AppendClaim(c), Settle(c)];
    var rest := [Begin(rid), SaveBlob, LogMarker(ts), Install];
    assert OneInstall(c, rid, request, ts) == first + rest;
    if ValidRun(s, first + rest) {
      RestOfRun(s, first, t, rest);
    }
  }

  // ---- a run that installs twice ----

  function CreateAndDie(rid: Rid, request: Request, ts: nat): seq<Event> {
    [Load([]), MarkersDone] + [Open] + OneInstall(0, rid, request, ts) + [Commit(ts)] + GcAndDie(rid)
  }

  /**
   Create a file; lose its record to a gc and the server before the answer; remove the file from outside; ask again.
   */
  function CreatedTwiceRun(rid: Rid, request: Request, key: string, ts: nat): seq<Event> {
    CreateAndDie(rid, request, ts) + [Open, Touch(key, None)] + OneInstall(0, rid, request, ts)
  }

  /**
   A request's mutation can be installed twice although prune forgot no entry and recovery rolled nothing back: from any
   directory nobody used yet, this very run does it to a create.
   */
  lemma CreatedTwice(s: State, rid: Rid, path: string, content: Bytes, ts: nat) returns (t: State)
    requires Initial(s) && path in s.ws && s.ws[path] !in s.disk.files && |content| <= MAX_TEXT_BYTES
    ensures Leads(s, CreatedTwiceRun(rid, CreateRequest(path, content), s.ws[path], ts), t)
    ensures t.h.installs[rid] == 2 && t.h.forgotten[rid] == 0 && t.h.undone[rid] == 0
  {
    hide Leads, OneInstall, CreateAndDie, StuckRids, RequestFold, Store, LineOf;
    var request := CreateRequest(path, content);
    var a := CreatedOnce(s, rid, path, content, ts);
    var b := OpenAndRemove(a, s.ws[path]);
    Removed(s.disk.files, s.ws[path], content);
    t := ClaimAndInstall(b, 0, rid, request, ts);
    LeadsFurther(s, CreateAndDie(rid, request, ts), a, [Open, Touch(s.ws[path], None)], b);
    LeadsFurther(s, CreateAndDie(rid, request, ts) + [Open, Touch(s.ws[path], None)], b,
        OneInstall(0, rid, request, ts), t);
  }

  lemma Removed(files: Files, key: string, content: Bytes)
    ensures key !in Store(Store(files, key, Some(content)), key, None)
  {
  }

  lemma OpenAndRemove(s: State, key: string) returns (t: State)
    requires CanOpen(s) && s.lock.Free?
    ensures Leads(s, [Open, Touch(key, None)], t)
    ensures t == s.(mode := Serving, disk := s.disk.(files := Store(s.disk.files, key, None)))
  {
    hide Does, Step, Leads;
    OpenStep(s);
    TouchStep(DoOpen(s), key, None);
    t := DoTouch(DoOpen(s), key, None);
    Two(s, Open, DoOpen(s), Touch(key, None), t);
  }

  lemma CreatedOnce(s: State, rid: Rid, path: string, content: Bytes, ts: nat) returns (t: State)
    requires Initial(s) && path in s.ws && s.ws[path] !in s.disk.files && |content| <= MAX_TEXT_BYTES
    ensures Leads(s, CreateAndDie(rid, CreateRequest(path, content), ts), t)
    ensures t.mode == Unsticking({}) && t.lock.Free? && rid !in t.mem.requests && t.ws == s.ws && t.callers == map[]
    ensures t.disk.files == Store(s.disk.files, s.ws[path], Some(content))
    ensures t.h.installs == multiset{rid} && t.h.forgotten[rid] == 0 && t.h.undone == multiset{}
    ensures t.h.requestOf == map[rid := CreateRequest(path, content)]
  {
    hide Leads, OneInstall, GcAndDie, StuckRids, RequestFold, Store, LineOf, Does, Step, Reachable, Fold, FileRids;
    var request := CreateRequest(path, content);
    var a := LoadBare(s);
    FirstClaim(rid);
    OpenStep(a);
    var b := DoOpen(a);
    var c := ClaimAndInstall(b, 0, rid, request, ts);
    CommitStep(c, ts);
    var d := DoCommit(c, ts);
    LeadsOn(s, [Load([]), MarkersDone], a, Open, b);
    LeadsFurther(s, [Load([]), MarkersDone] + [Open], b, OneInstall(0, rid, request, ts), c);
    LeadsOn(s, [Load([]), MarkersDone] + [Open] + OneInstall(0, rid, request, ts), c, Commit(ts), d);
    StartReachable(s);
    ReachableLead(s, [Load([]), MarkersDone] + [Open] + OneInstall(0, rid, request, ts) + [Commit(ts)], d);
    t := PrunedInFlight(d, rid);
    LeadsFurther(s, [Load([]), MarkersDone] + [Open] + OneInstall(0, rid, request, ts) + [Commit(ts)], d,
        GcAndDie(rid), t);
  }

  lemma StartReachable(s: State)
    requires Initial(s)
    ensures Reachable(s)
  {
    assert ValidRun(s, []) && After(s, []) == s;
  }

  /** After one claim line, its request is the only stuck one. */
  lemma FirstClaim(rid: Rid)
    ensures RequestFold([]) == map[] && StuckRids(RequestFold([])) == {}
    ensures StuckRids(RequestFold([] + [LineOf(rid, Pending(OpCreate))])) - {rid} == {}
  {
    RequestFoldAppend([], LineOf(rid, Pending(OpCreate)));
  }
}
