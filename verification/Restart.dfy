/**
 What a restart arrives at, and that it arrives there however often it crashes on the way: crash atomicity and
 re-entrancy of recovery (store.rs: new, recover, drop_prepared, synthesize_commit).
 */
module Restart {
  import opened Prelude
  import opened Protocol
  import opened Tables
  import opened Replies
  import opened Plans
  import opened Machine
  import opened Cases
  import opened Invariant
  import opened ServingProofs
  import opened RecoveryProofs
  import opened Runs
  import opened Steps

  function Timeless(r: Record): Record { r.(ts := 0) }

  /** The record a log entry ends up as: markers whose install happened become records, the others nothing. */
  function FinalRecord(ws: Workspace, files: Files, r: Record): Option<Record> {
    match r
    case Prepared(_, _, _, _, _, _, _) => if Classify(ws, files, r).Took? then Some(Synthesized(r, 0)) else None
    case Aborted(_, _) => None
    case _ => Some(Timeless(r))
  }

  /** The table of committed records a restart must arrive at, timestamps aside. */
  function Goal(ws: Workspace, files: Files, table: Table): Table {
    map id | id in table && FinalRecord(ws, files, table[id]).Some? :: FinalRecord(ws, files, table[id]).value
  }

  /** What becomes of a pending request that has no record. */
  function LostVerdict(op: Option<OpKind>): Option<RequestEntry> {
    if op == Some(OpExec) then Some(Terminal(StoredError(EXEC_LOST)))
    else if op == None then Some(Terminal(StoredError(UNKNOWN_LOST)))
    else None
  }

  ghost predicate HasRecord(goal: Table, rid: Rid) { exists id :: Committed1(goal, id, rid) }

  ghost predicate AnswersRecord(goal: Table, rid: Rid, e: Option<RequestEntry>) {
    exists id :: Committed1(goal, id, rid) && e == Some(Terminal(StoredDone(Reconstruct(goal[id]))))
  }

  /** The entry, or absence, a restart must arrive at for a request. */
  ghost predicate GoalEntry(goal: Table, answers: Answers, rid: Rid, e: Option<RequestEntry>) {
    if rid !in answers then e == None
    else if !IsPending(answers[rid]) then e == Some(answers[rid])
    else if HasRecord(goal, rid) then AnswersRecord(goal, rid, e)
    else e == LostVerdict(answers[rid].op)
  }

  ghost predicate OneRecordEach(goal: Table) {
    forall i, j ::
      i in goal && j in goal && goal[i].IsCommitted() && goal[j].IsCommitted() && goal[i].rid == goal[j].rid ==> i == j
  }

  lemma GoalUnique(s: State)
    requires Rids(s)
    ensures OneRecordEach(Goal(s.ws, s.disk.files, Fold(s.disk.ops)))
    ensures var g := Goal(s.ws, s.disk.files, Fold(s.disk.ops)); forall id :: id in g ==> g[id].IsCommitted()
  {
    hide Fold, RequestFold, Classify;
  }

  lemma GoalEntryUnique(goal: Table, answers: Answers, rid: Rid, e1: Option<RequestEntry>, e2: Option<RequestEntry>)
    requires OneRecordEach(goal) && GoalEntry(goal, answers, rid, e1) && GoalEntry(goal, answers, rid, e2)
    ensures e1 == e2
  {
    hide Reconstruct;
  }

  /** No unresolved marker contradicts its file. */
  ghost predicate NoClash(ws: Workspace, files: Files, table: Table) {
    forall id :: id in table && table[id].Prepared? ==> !Classify(ws, files, table[id]).Clash?
  }

  ghost predicate SameGoals(goal: Table, a: Answers, b: Answers) {
    forall rid, e :: GoalEntry(goal, a, rid, e) <==> GoalEntry(goal, b, rid, e)
  }

  /** In memory: entries agree with the log, and those missing are missing at the goal. */
  ghost predicate Agrees(goal: Table, answers: Answers, requests: Answers) {
    && (forall rid :: rid in requests ==> rid in answers && answers[rid] == requests[rid])
    && (forall rid :: rid in answers && rid !in requests ==> GoalEntry(goal, answers, rid, None))
  }

  /** A restart on its way: nothing it did moved the goal it started with. */
  ghost predicate OnTrack(s: State, goal: Table, start: Answers) {
    var answers := RequestFold(s.disk.reqs);
    && Goal(s.ws, s.disk.files, Fold(s.disk.ops)) == goal
    && NoClash(s.ws, s.disk.files, Fold(s.disk.ops))
    && SameGoals(goal, answers, start)
    && (!s.mode.Down? ==> Agrees(goal, answers, s.mem.requests))
    && (s.mode.Telling? ==> GoalEntry(goal, answers, s.mode.rid, Some(Terminal(s.mode.reply))))
    && s.owners == map[] && s.callers == map[] && !s.mode.Pruning?
  }

  lemma DownOnTrack(s: State)
    requires Inv(s) && s.mode.Down? && NoClash(s.ws, s.disk.files, Fold(s.disk.ops))
    ensures OnTrack(s, Goal(s.ws, s.disk.files, Fold(s.disk.ops)), RequestFold(s.disk.reqs))
  {
    hide Fold, RequestFold, MaxId, IdsOk, CounterOk, ReservedOk, BlobsOk, EffectsOk, MarkerOk, RidsOk, LockOk, MemOk,
      RequestsOk, CallersOk, CoveredOk, OwnersOk, InstallsOk, RepliesOk, ExecOk, HistoryOk, GoalEntry,
      Classify, NoClash;
  }

  /** Recording the goal's answer for a pending request moves no goal. */
  lemma AnswerOnTrack(goal: Table, answers: Answers, start: Answers, rid: Rid, reply: StoredResult)
    requires OneRecordEach(goal) && SameGoals(goal, answers, start)
    requires rid in answers && GoalEntry(goal, answers, rid, Some(Terminal(reply)))
    ensures SameGoals(goal, answers[rid := Terminal(reply)], start)
  {
    var after := answers[rid := Terminal(reply)];
    forall r, e ensures GoalEntry(goal, after, r, e) <==> GoalEntry(goal, start, r, e) {
      assert GoalEntry(goal, answers, r, e) <==> GoalEntry(goal, start, r, e);
      if r == rid {
        assert GoalEntry(goal, after, r, e) <==> e == Some(Terminal(reply));
        if GoalEntry(goal, answers, r, e) {
          GoalEntryUnique(goal, answers, rid, e, Some(Terminal(reply)));
        }
      }
    }
  }

  lemma AgreesAfterAnswer(goal: Table, answers: Answers, requests: Answers, rid: Rid, reply: StoredResult)
    requires Agrees(goal, answers, requests)
    ensures Agrees(goal, answers[rid := Terminal(reply)], requests[rid := Terminal(reply)])
  {
    hide Reconstruct, HasRecord, AnswersRecord;
  }

  lemma TellOnTrack(s: State, goal: Table, start: Answers)
    requires Inv(s) && OnTrack(s, goal, start) && CanTell(s)
    ensures OnTrack(DoTell(s), goal, start)
  {
    hide Fold, RequestFold, MaxId, IdsOk, CounterOk, ReservedOk, BlobsOk, EffectsOk, MarkerOk, RidsOk, LockOk, MemOk,
      RequestsOk, CallersOk, CoveredOk, OwnersOk, InstallsOk, RepliesOk, ExecOk, HistoryOk, GoalEntry, Goal,
      NoClash, SameGoals, Agrees;
    var answers := RequestFold(s.disk.reqs);
    RequestFoldAppend(s.disk.reqs, LineOf(s.mode.rid, Terminal(s.mode.reply)));
    GoalUnique(s);
    AnswerOnTrack(goal, answers, start, s.mode.rid, s.mode.reply);
    AgreesAfterAnswer(goal, answers, s.mem.requests, s.mode.rid, s.mode.reply);
  }

  lemma ReconstructTimeless(r: Record)
    requires r.IsCommitted()
    ensures Reconstruct(Timeless(r)) == Reconstruct(r)
  {
  }

  /** The verdict on a stuck request is its goal. */
  lemma VerdictIsGoal(s: State, rid: Rid, goal: Table)
    requires Inv(s) && CanUnstick(s, rid) && goal == Goal(s.ws, s.disk.files, Fold(s.disk.ops))
    ensures var answers := RequestFold(s.disk.reqs); var v := StuckVerdict(s.mem.records, rid, s.mem.requests[rid]);
      answers[rid].op == s.mem.requests[rid].op ==>
      GoalEntry(goal, answers, rid, if v.Some? then Some(Terminal(v.value)) else None)
  {
    hide Fold, RequestFold, FindByRequest, MaxId, IdsOk, CounterOk, ReservedOk, BlobsOk, EffectsOk, RidsOk, LockOk,
      MemOk, RequestsOk, CallersOk, CoveredOk, OwnersOk, InstallsOk, RepliesOk, ExecOk, HistoryOk,
      Reconstruct, Classify;
    VerdictFacts(s, rid);
    VerdictRecord(s, rid);
    var table := Fold(s.disk.ops);
    var found := FindByRequest(s.mem.records, rid);
    FindByRequestFacts(s.mem.records, rid);
    RecordsInTable(s);
    GoalHolds(s, rid);
    if found.Some? {
      var r := found.value;
      ReconstructTimeless(r);
      assert Committed1(goal, r.id, rid) && goal[r.id] == Timeless(r);
    }
  }

  /** With no marker left, the goal's records are the log's. */
  lemma GoalHolds(s: State, rid: Rid)
    requires Inv(s) && s.mode.Unsticking?
    ensures var goal := Goal(s.ws, s.disk.files, Fold(s.disk.ops));
      && (forall id :: id in goal <==> id in Fold(s.disk.ops) && Fold(s.disk.ops)[id].IsCommitted())
      && (forall id :: id in goal ==> goal[id] == Timeless(Fold(s.disk.ops)[id]))
      && (HasRecord(goal, rid) ==> exists id :: Live1(Fold(s.disk.ops), id, rid))
  {
    hide Fold, RequestFold, MaxId, IdsOk, CounterOk, ReservedOk, BlobsOk, EffectsOk, RidsOk, MemOk, RequestsOk,
      CallersOk, CoveredOk, OwnersOk, InstallsOk, RepliesOk, ExecOk, HistoryOk, Reconstruct, Classify;
    var goal := Goal(s.ws, s.disk.files, Fold(s.disk.ops));
    if HasRecord(goal, rid) {
      var id :| Committed1(goal, id, rid);
      assert Live1(Fold(s.disk.ops), id, rid);
    }
  }

  lemma UnstickOnTrack(s: State, rid: Rid, goal: Table, start: Answers)
    requires Inv(s) && OnTrack(s, goal, start) && CanUnstick(s, rid)
    ensures OnTrack(DoUnstick(s, rid), goal, start)
  {
    hide Fold, RequestFold, StuckVerdict, MaxId, IdsOk, CounterOk, ReservedOk, BlobsOk, EffectsOk, MarkerOk, RidsOk,
      LockOk, MemOk, RequestsOk, CallersOk, CoveredOk, OwnersOk, InstallsOk, RepliesOk, ExecOk, HistoryOk,
      GoalEntry, Goal, NoClash, SameGoals;
    var answers := RequestFold(s.disk.reqs);
    var v := StuckVerdict(s.mem.records, rid, s.mem.requests[rid]);
    VerdictIsGoal(s, rid, goal);
    if v.Some? {
      RequestFoldAppend(s.disk.reqs, LineOf(rid, Terminal(v.value)));
      GoalUnique(s);
      AnswerOnTrack(goal, answers, start, rid, v.value);
      AgreesAfterAnswer(goal, answers, s.mem.requests, rid, v.value);
    }
  }

  lemma ResolveGoal(s: State, ts: nat)
    requires Inv(s) && CanResolveMarker(s, ts) && NoClash(s.ws, s.disk.files, Fold(s.disk.ops))
    ensures var t := DoResolveMarker(s, ts);
      && Goal(t.ws, t.disk.files, Fold(t.disk.ops)) == Goal(s.ws, s.disk.files, Fold(s.disk.ops))
      && NoClash(t.ws, t.disk.files, Fold(t.disk.ops))
  {
    hide Fold, RequestFold, MaxId, DoResolveMarker, Classify, IdsOk, CounterOk, ReservedOk, BlobsOk, EffectsOk, RidsOk,
      LockOk, MemOk, RequestsOk, CallersOk, CoveredOk, OwnersOk, InstallsOk, RepliesOk, ExecOk, HistoryOk;
    MarkerFacts(s);
    ResolveDisk(s, ts);
  }

  lemma ResolveOnTrack(s: State, ts: nat, goal: Table, start: Answers)
    requires Inv(s) && OnTrack(s, goal, start) && CanResolveMarker(s, ts)
    ensures OnTrack(DoResolveMarker(s, ts), goal, start)
  {
    hide Fold, RequestFold, MaxId, DoResolveMarker, Resolution, Classify, NoClash, Goal, GoalEntry, SameGoals, Agrees,
      IdsOk, CounterOk, ReservedOk, BlobsOk, EffectsOk, RidsOk, MarkerOk, LockOk, MemOk, RequestsOk, CallersOk,
      CoveredOk, OwnersOk, InstallsOk, RepliesOk, ExecOk, HistoryOk;
    MarkerFacts(s);
    ResolveGoal(s, ts);
    ResolveDisk(s, ts);
    ResolveShape(s, ts);
    ResolveTells(s, ts);
  }

  lemma ResolveTells(s: State, ts: nat)
    requires Inv(s) && CanResolveMarker(s, ts) && NoClash(s.ws, s.disk.files, Fold(s.disk.ops))
    ensures var t := DoResolveMarker(s, ts);
      t.mode.Telling? ==> GoalEntry(Goal(s.ws, s.disk.files, Fold(s.disk.ops)), RequestFold(s.disk.reqs), t.mode.rid,
          Some(Terminal(t.mode.reply)))
  {
    hide Fold, RequestFold, MaxId, Classify, Reconstruct, IdsOk, CounterOk, ReservedOk, BlobsOk, EffectsOk, RidsOk,
      MarkerOk, LockOk, MemOk, RequestsOk, CallersOk, CoveredOk, OwnersOk, InstallsOk, RepliesOk, ExecOk,
      HistoryOk;
    MarkerFacts(s);
    MarkerPending(s);
    var p := s.mode.todo[0];
    ReconstructTimeless(Synthesized(p, ts));
    assert Timeless(Synthesized(p, ts)) == Synthesized(p, 0);
    if Classify(s.ws, s.disk.files, p).Took? {
      assert Committed1(Goal(s.ws, s.disk.files, Fold(s.disk.ops)), p.id, p.rid);
    }
  }

  lemma OtherOnTrack(s: State, e: Event, goal: Table, start: Answers)
    requires Inv(s) && OnTrack(s, goal, start) && Enabled(s, e)
    requires e.Crash? || e.Load? || e.MarkersDone? || e.Open?
    ensures OnTrack(Apply(s, e), goal, start)
  {
    hide Fold, RequestFold, MaxId, Markers, StuckRids, Classify, NoClash, Goal, GoalEntry, SameGoals, IdsOk, CounterOk,
      ReservedOk, BlobsOk, EffectsOk, RidsOk, MarkerOk, LockOk, MemOk, RequestsOk, CallersOk, CoveredOk, OwnersOk,
      InstallsOk, RepliesOk, ExecOk, HistoryOk;
  }

  lemma StepOnTrack(s: State, e: Event, goal: Table, start: Answers)
    requires Inv(s) && OnTrack(s, goal, start) && Enabled(s, e) && RecoveryEvent(e)
    ensures OnTrack(Apply(s, e), goal, start)
  {
    hide *;
    RecoveryCases(s, e);
    if e.Crash? {
      OtherOnTrack(s, e, goal, start);
    } else if e.Load? {
      OtherOnTrack(s, e, goal, start);
    } else if e.ResolveMarker? {
      ResolveOnTrack(s, e.ts, goal, start);
    } else if e.Tell? {
      TellOnTrack(s, goal, start);
    } else if e.MarkersDone? {
      OtherOnTrack(s, e, goal, start);
    } else if e.Unstick? {
      UnstickOnTrack(s, e.rid, goal, start);
    } else if e.Open? {
      OtherOnTrack(s, e, goal, start);
    }
  }

  /** Recovery touches the logs only. */
  ghost predicate SameStore(s: State, t: State) {
    t.disk.files == s.disk.files && t.ws == s.ws && t.disk.blobs == s.disk.blobs && t.disk.counter == s.disk.counter
  }

  lemma StepKeepsFiles(s: State, e: Event)
    requires Enabled(s, e) && RecoveryEvent(e)
    ensures SameStore(s, Apply(s, e))
  {
    hide *;
    RecoveryCases(s, e);
    if e.Crash? {
      ModeStepKeepsDisk(s);
    } else if e.Load? {
      LoadKeepsFiles(s, e.order);
    } else if e.ResolveMarker? {
      ResolveKeepsFiles(s, e.ts);
    } else if e.Tell? {
      TellKeepsFiles(s);
    } else if e.MarkersDone? {
      ModeStepKeepsDisk(s);
    } else if e.Unstick? {
      UnstickKeepsFiles(s, e.rid);
    } else if e.Open? {
      ModeStepKeepsDisk(s);
    }
  }

  lemma ModeStepKeepsDisk(s: State)
    ensures SameStore(s, DoCrash(s)) && SameStore(s, DoMarkersDone(s)) && SameStore(s, DoOpen(s))
  {
    hide StuckRids;
  }

  lemma UnstickKeepsFiles(s: State, rid: Rid)
    requires CanUnstick(s, rid)
    ensures SameStore(s, DoUnstick(s, rid))
  {
    hide StuckVerdict, LineOf;
  }

  lemma TellKeepsFiles(s: State)
    requires CanTell(s)
    ensures SameStore(s, DoTell(s))
  {
    hide LineOf;
  }

  lemma LoadKeepsFiles(s: State, order: seq<Record>)
    requires CanLoad(s, order)
    ensures SameStore(s, DoLoad(s, order))
  {
    hide Enumerates, Markers, RequestFold;
  }

  lemma ResolveKeepsFiles(s: State, ts: nat)
    requires CanResolveMarker(s, ts)
    ensures SameStore(s, DoResolveMarker(s, ts))
  {
    hide Classify, Reconstruct, Upsert, WithoutMarker;
  }

  lemma {:induction false} RunOnTrack(s: State, run: seq<Event>, goal: Table, start: Answers)
    requires Inv(s) && OnTrack(s, goal, start) && ValidRun(s, run) && forall e :: e in run ==> RecoveryEvent(e)
    ensures Inv(After(s, run)) && OnTrack(After(s, run), goal, start) && SameStore(s, After(s, run))
    decreases |run|
  {
    hide Inv, OnTrack, Enabled, Apply, RecoveryEvent;
    if run != [] {
      StepKeeps(s, run[0]);
      StepOnTrack(s, run[0], goal, start);
      StepKeepsFiles(s, run[0]);
      RunOnTrack(Apply(s, run[0]), run[1..], goal, start);
    }
  }

  ghost predicate RecoveryOnly(run: seq<Event>) { forall e :: e in run ==> RecoveryEvent(e) }

  /** A restart of a dead server, with any number of further deaths on the way, that ends up serving. */
  ghost predicate Restarts(s: State, run: seq<Event>, t: State) {
    s.mode.Down? && Leads(s, run, t) && RecoveryOnly(run) && t.mode.Serving?
  }

  /** A finished restart: committed records and request entries are exactly the goal. */
  ghost predicate Recovered(t: State, goal: Table, start: Answers) {
    && (forall id :: id in goal <==> id in Committed(Fold(t.mem.records)))
    && (forall id :: id in goal ==> goal[id] == Timeless(Committed(Fold(t.mem.records))[id]))
    && (forall id :: id in Fold(t.disk.ops) ==> !Fold(t.disk.ops)[id].Prepared?)
    && (forall rid :: GoalEntry(goal, start, rid, Lookup(t.mem.requests, rid)))
  }

  lemma ServingRecovered(t: State, goal: Table, start: Answers)
    requires Inv(t) && OnTrack(t, goal, start) && t.mode.Serving? && t.lock.Free?
    ensures Recovered(t, goal, start)
  {
    hide Fold, RequestFold, MaxId, Classify, GoalEntry, NoClash, IdsOk, CounterOk, ReservedOk, BlobsOk, EffectsOk,
      RidsOk, LockOk, RequestsOk, CallersOk, CoveredOk, OwnersOk, InstallsOk, RepliesOk, ExecOk, HistoryOk;
    ServingEntries(t, goal, start);
    assert Live(Fold(t.mem.records)) == Live(Fold(t.disk.ops));
    forall id: nat ensures id in goal <==> id in Committed(Fold(t.mem.records)) {
      assert id in Live(Fold(t.disk.ops)) <==> id in Live(Fold(t.mem.records));
    }
    forall id | id in goal ensures goal[id] == Timeless(Committed(Fold(t.mem.records))[id]) {
      assert id in Live(Fold(t.mem.records));
    }
  }

  lemma ServingEntries(t: State, goal: Table, start: Answers)
    requires Inv(t) && OnTrack(t, goal, start) && t.mode.Serving?
    ensures forall rid :: GoalEntry(goal, start, rid, Lookup(t.mem.requests, rid))
  {
    hide Fold, RequestFold, MaxId, Classify, NoClash, Goal, HasRecord, AnswersRecord, IdsOk, CounterOk, ReservedOk,
      BlobsOk, EffectsOk, MarkerOk, RidsOk, LockOk, MemOk, RequestsOk, CallersOk, CoveredOk, OwnersOk, InstallsOk,
      RepliesOk, ExecOk, HistoryOk;
    var answers := RequestFold(t.disk.reqs);
    forall rid ensures GoalEntry(goal, start, rid, Lookup(t.mem.requests, rid)) {
      var e := Lookup(t.mem.requests, rid);
      assert rid in t.mem.requests ==> !IsPending(t.mem.requests[rid]) by {
        assert rid !in StuckRids(t.mem.requests);
      }
      assert GoalEntry(goal, answers, rid, e);
      assert GoalEntry(goal, answers, rid, e) <==> GoalEntry(goal, start, rid, e);
    }
  }

  /** Same files, same committed records up to timestamps, same request table. */
  ghost predicate SameOutcome(t1: State, t2: State) {
    && t1.disk.files == t2.disk.files
    && t1.mem.requests == t2.mem.requests
    && (forall id :: id in Committed(Fold(t1.mem.records)) <==> id in Committed(Fold(t2.mem.records)))
    && (forall id :: id in Committed(Fold(t1.mem.records)) ==>
          Timeless(Committed(Fold(t1.mem.records))[id]) == Timeless(Committed(Fold(t2.mem.records))[id]))
  }

  /**
   Recovery is re-entrant: from any reachable crash state whose markers do not contradict their files, every way of
   restarting, with any number of further crashes on the way, ends with the same files, the same committed records
   up to timestamps, the same request table and no marker.
   */
  lemma RecoveryReentrant(s: State, run1: seq<Event>, t1: State, run2: seq<Event>, t2: State)
    requires Reachable(s) && NoClash(s.ws, s.disk.files, Fold(s.disk.ops))
    requires Restarts(s, run1, t1) && Restarts(s, run2, t2)
    ensures SameOutcome(t1, t2) && t1.disk.files == s.disk.files
    ensures forall id :: id in Fold(t1.disk.ops) ==> !Fold(t1.disk.ops)[id].Prepared?
  {
    hide Fold, RequestFold, Committed, NoClash, Goal, GoalEntry, Inv, RecoveryOnly, Recovered, Restarts, Reachable;
    RestartReaches(s, run1, t1);
    RestartReaches(s, run2, t2);
    SameRecovery(s, t1, t2);
  }

  /** Every finished restart is at the goal of the crash state it started from. */
  lemma RestartReaches(s: State, run: seq<Event>, t: State)
    requires Reachable(s) && NoClash(s.ws, s.disk.files, Fold(s.disk.ops)) && Restarts(s, run, t)
    ensures Recovered(t, Goal(s.ws, s.disk.files, Fold(s.disk.ops)), RequestFold(s.disk.reqs))
    ensures t.disk.files == s.disk.files
  {
    hide Fold, RequestFold, NoClash, Goal, GoalEntry, Inv, RecoveryEvent, Recovered, OnTrack, ValidRun, After;
    var goal := Goal(s.ws, s.disk.files, Fold(s.disk.ops));
    ReachableInv(s);
    DownOnTrack(s);
    RunOnTrack(s, run, goal, RequestFold(s.disk.reqs));
    NoMutationAfterRestart(t, goal, RequestFold(s.disk.reqs));
    ServingRecovered(t, goal, RequestFold(s.disk.reqs));
  }

  lemma NoMutationAfterRestart(t: State, goal: Table, start: Answers)
    requires Inv(t) && OnTrack(t, goal, start) && t.mode.Serving?
    ensures t.lock.Free?
  {
    hide Fold, RequestFold, NoClash, Goal, GoalEntry, Agrees, SameGoals;
  }

  lemma SameRecovery(s: State, t1: State, t2: State)
    requires Reachable(s)
    requires var goal := Goal(s.ws, s.disk.files, Fold(s.disk.ops)); var start := RequestFold(s.disk.reqs);
      Recovered(t1, goal, start) && Recovered(t2, goal, start)
    ensures t1.mem.requests == t2.mem.requests
    ensures forall id :: id in Committed(Fold(t1.mem.records)) <==> id in Committed(Fold(t2.mem.records))
    ensures forall id :: id in Committed(Fold(t1.mem.records)) ==>
      Timeless(Committed(Fold(t1.mem.records))[id]) == Timeless(Committed(Fold(t2.mem.records))[id])
    ensures forall id :: id in Fold(t1.disk.ops) ==> !Fold(t1.disk.ops)[id].Prepared?
  {
    hide Fold, RequestFold, Committed, NoClash, Goal, GoalEntry, Inv;
    var goal := Goal(s.ws, s.disk.files, Fold(s.disk.ops));
    var start := RequestFold(s.disk.reqs);
    RidsOfReachable(s);
    GoalUnique(s);
    forall rid ensures Lookup(t1.mem.requests, rid) == Lookup(t2.mem.requests, rid) {
      GoalEntryUnique(goal, start, rid, Lookup(t1.mem.requests, rid), Lookup(t2.mem.requests, rid));
    }
    assert forall rid :: rid in t1.mem.requests <==> Lookup(t1.mem.requests, rid).Some?;
    assert forall rid :: rid in t2.mem.requests <==> Lookup(t2.mem.requests, rid).Some?;
    assert t1.mem.requests == t2.mem.requests;
  }

  lemma RidsOfReachable(s: State)
    requires Reachable(s)
    ensures Rids(s)
  {
    ReachableInv(s);
  }

  // ---- crash atomicity ----

  /** Unless somebody wrote the file of an unresolved mutation while the server was down, no marker clashes. */
  lemma UntamperedNoClash(s: State)
    requires Inv(s) && (s.lock.Held? ==> !s.lock.tampered)
    ensures NoClash(s.ws, s.disk.files, Fold(s.disk.ops))
    ensures s.lock.Durable() ==>
      Classify(s.ws, s.disk.files, Fold(s.disk.ops)[s.lock.m.id]) == if s.lock.stage.Installed? then Took else NoOp
  {
    hide Fold, RequestFold, MaxId, IdsOk, CounterOk, ReservedOk, BlobsOk, ModeOk, MemOk, RequestsOk, CallersOk,
      CoveredOk, OwnersOk, InstallsOk, RepliesOk, ExecOk, HistoryOk;
    assert s.lock.Durable() ==> Describes(Fold(s.disk.ops)[s.lock.m.id], s.lock.m);
  }

  /**
   Crash atomicity: let the server die at any point of a mutation and restart with any number of further crashes.
   The file is exactly in its before or its after state; the operation is in history if and only if the install
   happened; then its request is answered with the reply the handler would have sent, otherwise it is claimable again.
   */
  lemma CrashAtomic(s: State, run: seq<Event>, t: State)
    requires Reachable(s) && s.mode.Serving? && s.lock.Held? && Restarts(DoCrash(s), run, t)
    ensures t.disk.files == s.disk.files
    ensures Lookup(t.disk.files, s.lock.m.plan.key)
         == (if s.lock.stage.Installed? then s.lock.m.plan.after else s.lock.m.plan.before)
    ensures var m := s.lock.m;
      && (m.id in Committed(Fold(t.mem.records)) <==> s.lock.stage.Installed?)
      && (if s.lock.stage.Installed? then
            && Timeless(Committed(Fold(t.mem.records))[m.id]) == CommitOf(m.id, m.rid, m.plan, 0)
            && Lookup(t.mem.requests, m.rid) == Some(Terminal(StoredDone(ReplyTo(m.id, m.rid, m.plan))))
          else m.rid !in t.mem.requests)
  {
    hide Fold, RequestFold, Committed, NoClash, Goal, GoalEntry, Inv, Recovered, Restarts, Reachable, DoCrash, Timeless,
      CommitOf, ReplyTo;
    FileInPlace(s);
    CrashReaches(s, run, t);
    CrashGoal(s);
    CrashAtGoal(s, t);
  }

  /** Death while serving, and a restart: the files stay, and the goal is the one the logs had then. */
  lemma CrashReaches(s: State, run: seq<Event>, t: State)
    requires Reachable(s) && s.mode.Serving? && Restarts(DoCrash(s), run, t)
    ensures Inv(s) && t.disk.files == s.disk.files
    ensures Recovered(t, Goal(s.ws, s.disk.files, Fold(s.disk.ops)), RequestFold(s.disk.reqs))
  {
    hide Fold, RequestFold, NoClash, Goal, GoalEntry, Inv, Recovered, Restarts, Reachable, Step;
    CrashStep(s);
    ReachableByStep(s, DoCrash(s));
    ReachableInv(s);
    ReachableInv(DoCrash(s));
    ServingUntampered(s);
    UntamperedNoClash(DoCrash(s));
    RestartReaches(DoCrash(s), run, t);
  }

  lemma ServingUntampered(s: State)
    requires Inv(s) && s.mode.Serving?
    ensures s.lock.Held? ==> !s.lock.tampered
  {
    hide Fold, RequestFold, MaxId;
  }

  lemma FileInPlace(s: State)
    requires Reachable(s) && s.mode.Serving? && s.lock.Held?
    ensures Lookup(s.disk.files, s.lock.m.plan.key)
         == (if s.lock.stage.Installed? then s.lock.m.plan.after else s.lock.m.plan.before)
    ensures !s.lock.tampered
  {
    ReachableInv(s);
    FilePlaced(s);
  }

  lemma FilePlaced(s: State)
    requires Inv(s) && s.mode.Serving? && s.lock.Held?
    ensures Lookup(s.disk.files, s.lock.m.plan.key)
         == (if s.lock.stage.Installed? then s.lock.m.plan.after else s.lock.m.plan.before)
    ensures !s.lock.tampered
  {
    hide Fold, RequestFold, MaxId;
  }

  /** What the crash state commits the restart to, for the interrupted mutation. */
  ghost predicate MutationGoal(s: State, goal: Table, answers: Answers)
    requires s.lock.Held?
  {
    var m := s.lock.m;
    && (m.id in goal <==> s.lock.stage.Installed?)
    && (m.id in goal ==> goal[m.id] == CommitOf(m.id, m.rid, m.plan, 0))
    && (forall e :: GoalEntry(goal, answers, m.rid, e) ==>
          e == if s.lock.stage.Installed? then Some(Terminal(StoredDone(ReplyTo(m.id, m.rid, m.plan)))) else None)
  }

  lemma CrashGoal(s: State)
    requires Inv(s) && s.mode.Serving? && s.lock.Held?
    ensures MutationGoal(s, Goal(s.ws, s.disk.files, Fold(s.disk.ops)), RequestFold(s.disk.reqs))
  {
    hide Fold, RequestFold, MaxId, Reconstruct, Classify, GoodPlan, IdsOk, CounterOk, BlobsOk, RidsOk, LockOk, MemOk,
      ModeOk, RequestsOk, CallersOk, CoveredOk, InstallsOk, RepliesOk, ExecOk, HistoryOk, Goal, GoalEntry;
    var m := s.lock.m;
    var table := Fold(s.disk.ops);
    FilePlaced(s);
    UntamperedNoClash(s);
    InterruptedPending(s);
    InterruptedGoal(s);
    if s.lock.stage.Installed? {
      GoalWhenInstalled(s);
    } else {
      GoalWhenNot(s);
    }
  }

  lemma InterruptedPending(s: State)
    requires Inv(s) && s.mode.Serving? && s.lock.Held?
    ensures var answers := RequestFold(s.disk.reqs); var m := s.lock.m;
      m.rid in answers && IsPending(answers[m.rid]) && LostVerdict(answers[m.rid].op) == None
    ensures GoodPlan(s.ws, s.lock.m.plan)
  {
    hide Fold, RequestFold, MaxId, Reconstruct, IdsOk, CounterOk, ReservedOk, BlobsOk, EffectsOk, RidsOk, MarkerOk,
      MemOk, CallersOk, CoveredOk, InstallsOk, RepliesOk, ExecOk, HistoryOk;
    OwnerPending(s, s.lock.m.rid);
  }

  /** At the goal, the interrupted request's only record can be its own. */
  lemma InterruptedGoal(s: State)
    requires Inv(s) && s.mode.Serving? && s.lock.Held?
    ensures var goal := Goal(s.ws, s.disk.files, Fold(s.disk.ops)); var m := s.lock.m;
      && (forall id :: Committed1(goal, id, m.rid) ==> id == m.id)
      && (m.id in goal <==> s.lock.stage.Installed?)
      && (m.id in goal ==> goal[m.id] == CommitOf(m.id, m.rid, m.plan, 0))
  {
    hide Fold, RequestFold, MaxId, Reconstruct, Classify, CounterOk, BlobsOk, RidsOk, LockOk, MemOk, ModeOk, RequestsOk,
      CallersOk, CoveredOk, InstallsOk, RepliesOk, ExecOk, HistoryOk;
    var m := s.lock.m;
    var table := Fold(s.disk.ops);
    FilePlaced(s);
    UntamperedNoClash(s);
    if s.lock.Durable() {
      OnlyMarker(s);
      assert Describes(table[m.id], m);
    } else {
      NoRecordYet(s, m.rid);
    }
    assert forall id: nat :: Committed1(Goal(s.ws, s.disk.files, table), id, m.rid) ==> Live1(table, id, m.rid);
  }

  lemma GoalWhenInstalled(s: State)
    requires s.lock.Held?
    requires var goal := Goal(s.ws, s.disk.files, Fold(s.disk.ops)); var answers := RequestFold(s.disk.reqs);
      var m := s.lock.m;
      && m.id in goal && goal[m.id] == CommitOf(m.id, m.rid, m.plan, 0)
      && (forall id :: Committed1(goal, id, m.rid) ==> id == m.id)
      && m.rid in answers && IsPending(answers[m.rid])
    requires GoodPlan(s.ws, s.lock.m.plan)
    ensures var goal := Goal(s.ws, s.disk.files, Fold(s.disk.ops)); var m := s.lock.m;
      forall e :: GoalEntry(goal, RequestFold(s.disk.reqs), m.rid, e) ==>
        e == Some(Terminal(StoredDone(ReplyTo(m.id, m.rid, m.plan))))
  {
    hide Fold, RequestFold, Goal, Reconstruct, GoodPlan;
    CommitReply(s.lock.m, s.ws, 0);
    assert Committed1(Goal(s.ws, s.disk.files, Fold(s.disk.ops)), s.lock.m.id, s.lock.m.rid);
  }

  lemma GoalWhenNot(s: State)
    requires s.lock.Held?
    requires var goal := Goal(s.ws, s.disk.files, Fold(s.disk.ops)); var answers := RequestFold(s.disk.reqs);
      var m := s.lock.m;
      && m.id !in goal && (forall id :: Committed1(goal, id, m.rid) ==> id == m.id)
      && m.rid in answers && IsPending(answers[m.rid]) && LostVerdict(answers[m.rid].op) == None
    ensures var goal := Goal(s.ws, s.disk.files, Fold(s.disk.ops));
      forall e :: GoalEntry(goal, RequestFold(s.disk.reqs), s.lock.m.rid, e) ==> e == None
  {
    hide Fold, RequestFold, Goal, Reconstruct;
  }

  lemma CrashAtGoal(s: State, t: State)
    requires s.lock.Held? && MutationGoal(s, Goal(s.ws, s.disk.files, Fold(s.disk.ops)), RequestFold(s.disk.reqs))
    requires Recovered(t, Goal(s.ws, s.disk.files, Fold(s.disk.ops)), RequestFold(s.disk.reqs))
    ensures var m := s.lock.m;
      && (m.id in Committed(Fold(t.mem.records)) <==> s.lock.stage.Installed?)
      && (if s.lock.stage.Installed? then
            && Timeless(Committed(Fold(t.mem.records))[m.id]) == CommitOf(m.id, m.rid, m.plan, 0)
            && Lookup(t.mem.requests, m.rid) == Some(Terminal(StoredDone(ReplyTo(m.id, m.rid, m.plan))))
          else m.rid !in t.mem.requests)
  {
    hide Fold, RequestFold, Goal, GoalEntry, Committed;
    assert GoalEntry(Goal(s.ws, s.disk.files, Fold(s.disk.ops)), RequestFold(s.disk.reqs), s.lock.m.rid,
        Lookup(t.mem.requests, s.lock.m.rid));
  }

  /**
   Over a whole run: at any moment, of the mutations that ever logged a marker, leaving aside those whose file was
   written behind the server's back and the one under the guard, exactly the installed ones are committed, and a
   retained record is there if and only if its mutation is committed.
   */
  lemma InstalledIffCommitted(s: State, id: nat)
    requires Reachable(s) && id in s.h.effects && id !in s.h.tampered
    requires s.lock.Held? ==> s.lock.m.id != id
    ensures id in s.h.installed <==> id in s.h.committed
    ensures id in Fold(s.disk.ops) ==> (Fold(s.disk.ops)[id].Fs? <==> id in s.h.installed)
  {
    hide Fold, RequestFold, MaxId, IdsOk, CounterOk, ReservedOk, BlobsOk, EffectsOk, LockOk, MemOk, ModeOk, RequestsOk,
      CallersOk, CoveredOk, OwnersOk, InstallsOk, RepliesOk, ExecOk;
    ReachableInv(s);
  }
}
