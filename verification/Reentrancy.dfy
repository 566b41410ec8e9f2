/** Recovery always finishes, and exactly when it does not matter how often it is interrupted (store.rs: recover). */
module Reentrancy {
  import opened Prelude
  import opened Protocol
  import opened Tables
  import opened Replies
  import opened Plans
  import opened Machine
  import opened Invariant
  import opened ServingProofs
  import opened RecoveryProofs
  import opened Runs
  import opened Steps
  import opened Restart
  import Loading

  // ---- recovery can always go on to the end ----

  ghost predicate Recovers(s: State, run: seq<Event>, t: State) {
    Leads(s, run, t) && RecoveryOnly(run) && t.mode.Serving?
  }

  lemma OneMore(s: State, e: Event, t: State, run: seq<Event>, u: State)
    requires Does(s, e, t) && RecoveryEvent(e) && Recovers(t, run, u)
    ensures Recovers(s, [e] + run, u)
  {
    hide Enabled, Apply, RecoveryEvent;
    LeadsNowhere(s);
    LeadsOn(s, [], s, e, t);
    assert [] + [e] == [e];
    LeadsFurther(s, [e], t, run, u);
  }

  lemma {:induction false} FinishUnsticking(s: State) returns (run: seq<Event>, t: State)
    requires Reachable(s) && s.mode.Unsticking?
    ensures Recovers(s, run, t)
    decreases if s.mode.Unsticking? then |s.mode.stuck| else 0
  {
    hide Reachable, DoUnstick, DoOpen, Does, Step, Recovers, RecoveryOnly, Leads;
    if s.mode.stuck == {} {
      OpenStep(s);
      t := DoOpen(s);
      Done(t, s);
      run := [Open] + [];
      OneMore(s, Open, t, [], t);
    } else {
      var rid :| rid in s.mode.stuck;
      StuckHere(s);
      UnstickStep(s, rid);
      ReachableByStep(s, DoUnstick(s, rid));
      UnstickShape(s, rid);
      run, t := FinishUnsticking(DoUnstick(s, rid));
      OneMore(s, Unstick(rid), DoUnstick(s, rid), run, t);
      run := [Unstick(rid)] + run;
    }
  }

  lemma Done(t: State, s: State)
    requires t == DoOpen(s)
    ensures Recovers(t, [], t)
  {
    LeadsNowhere(t);
  }

  lemma StuckHere(s: State)
    requires Reachable(s) && s.mode.Unsticking?
    ensures s.mode.stuck == StuckRids(s.mem.requests) && s.mode.stuck <= s.mem.requests.Keys
    ensures s.owners == map[] && s.callers == map[] && s.lock.Free?
    ensures Markers(s.mem.records) == []
  {
    ReachableInv(s);
    hide Fold, RequestFold, MaxId, Markers, IdsOk, CounterOk, ReservedOk, BlobsOk, EffectsOk, RidsOk, RequestsOk,
      CallersOk, CoveredOk, OwnersOk, InstallsOk, RepliesOk, ExecOk, HistoryOk, ValidRun, After;
    MarkersElements(s.mem.records);
    RecordsInTable(s);
    NonemptyHas(Markers(s.mem.records));
  }

  lemma UnstickShape(s: State, rid: Rid)
    requires CanUnstick(s, rid)
    ensures DoUnstick(s, rid).mode == Unsticking(s.mode.stuck - {rid})
  {
    hide StuckVerdict, LineOf;
  }

  /** From a load, or with the markers settled. */
  lemma FinishMarked(s: State) returns (run: seq<Event>, t: State)
    requires Reachable(s) && CanMarkersDone(s)
    ensures Recovers(s, run, t)
  {
    hide Reachable, Does, Step, Recovers, RecoveryOnly, Leads, StuckRids;
    MarkersDoneStep(s);
    ReachableByStep(s, DoMarkersDone(s));
    run, t := FinishUnsticking(DoMarkersDone(s));
    OneMore(s, MarkersDone, DoMarkersDone(s), run, t);
    run := [MarkersDone] + run;
  }

  lemma FinishTelling(s: State) returns (run: seq<Event>, t: State)
    requires Reachable(s) && CanTell(s)
    ensures Recovers(s, [Tell] + run, t) && Recovers(DoTell(s), run, t)
  {
    hide Reachable, Does, Step, Recovers, RecoveryOnly, Leads, LineOf;
    TellStep(s);
    ReachableByStep(s, DoTell(s));
    NothingAfterTelling(s);
    run, t := FinishMarked(DoTell(s));
    OneMore(s, Tell, DoTell(s), run, t);
  }

  lemma NothingAfterTelling(s: State)
    requires Reachable(s) && s.mode.Telling?
    ensures s.mode.rest == []
  {
    ReachableInv(s);
    hide Fold, RequestFold, MaxId, IdsOk, CounterOk, ReservedOk, BlobsOk, EffectsOk, RidsOk, MarkerOk, LockOk, MemOk,
      RequestsOk, CallersOk, CoveredOk, OwnersOk, InstallsOk, RepliesOk, ExecOk, HistoryOk, ValidRun, After;
  }

  lemma FinishMarking(s: State) returns (run: seq<Event>, t: State)
    requires Reachable(s) && s.mode.Marking?
    ensures Recovers(s, run, t)
  {
    hide Reachable, Does, Step, Recovers, Leads, RecoveryOnly, DoResolveMarker, DoTell, Classify;
    if s.mode.todo == [] {
      run, t := FinishMarked(s);
    } else {
      MarkerNext(s);
      ResolveMarkerStep(s, 0);
      var a := DoResolveMarker(s, 0);
      ReachableByStep(s, a);
      if a.mode.Telling? {
        run, t := FinishTelling(a);
        run := [Tell] + run;
      } else {
        run, t := FinishMarked(a);
      }
      OneMore(s, ResolveMarker(0), a, run, t);
      run := [ResolveMarker(0)] + run;
    }
  }

  lemma MarkerNext(s: State)
    requires Reachable(s) && s.mode.Marking? && s.mode.todo != []
    ensures CanResolveMarker(s, 0)
    ensures var a := DoResolveMarker(s, 0); a.mode.Telling? || a.mode == Marking([])
  {
    hide Reachable, Inv, DoResolveMarker, Reconstruct;
    ReachableInv(s);
    MarkerFacts(s);
    ResolveShape(s, 0);
  }

  /** Every dead server can be restarted. */
  lemma RestartExists(s: State) returns (run: seq<Event>, t: State)
    requires Reachable(s) && s.mode.Down?
    ensures Restarts(s, run, t)
  {
    hide Reachable, Does, Step, Recovers, Leads, Enumerates, Fold, RequestFold, MaxId, Markers, RecoveryOnly;
    var order := Loading.SomeOrder(s.disk.ops);
    LoadStep(s, order);
    ReachableByStep(s, DoLoad(s, order));
    run, t := FinishMarking(DoLoad(s, order));
    OneMore(s, Load(order), DoLoad(s, order), run, t);
    run := [Load(order)] + run;
    IsRestart(s, run, t);
  }

  lemma IsRestart(s: State, run: seq<Event>, t: State)
    requires s.mode.Down? && Recovers(s, run, t)
    ensures Restarts(s, run, t)
  {
    hide Leads, RecoveryOnly;
  }

  // ---- markers that contradict their file ----

  /** With the markers settled, every way of finishing reaches the goal. */
  lemma FinishReaches(s: State, run: seq<Event>, t: State)
    requires Reachable(s) && s.mode == Marking([]) && Recovers(s, run, t)
    ensures Recovered(t, Goal(s.ws, s.disk.files, Fold(s.disk.ops)), RequestFold(s.disk.reqs))
  {
    hide Reachable, Inv, Fold, RequestFold, Goal, OnTrack, Recovered, ValidRun, After, RecoveryEvent;
    var goal := Goal(s.ws, s.disk.files, Fold(s.disk.ops));
    ReachableInv(s);
    MarkedOnTrack(s);
    RunOnTrack(s, run, goal, RequestFold(s.disk.reqs));
    NoMutationAfterRestart(t, goal, RequestFold(s.disk.reqs));
    ServingRecovered(t, goal, RequestFold(s.disk.reqs));
  }

  lemma MarkedOnTrack(s: State)
    requires Inv(s) && s.mode == Marking([])
    ensures OnTrack(s, Goal(s.ws, s.disk.files, Fold(s.disk.ops)), RequestFold(s.disk.reqs))
  {
    hide Fold, RequestFold, MaxId, IdsOk, CounterOk, ReservedOk, BlobsOk, EffectsOk, MarkerOk, RidsOk, LockOk, MemOk,
      RequestsOk, CallersOk, CoveredOk, OwnersOk, InstallsOk, RepliesOk, ExecOk, HistoryOk, GoalEntry,
      Classify, NoClash, Goal;
    NoMarkerNoClash(s);
  }

  lemma NoMarkerNoClash(s: State)
    requires Inv(s) && s.mode == Marking([])
    ensures NoClash(s.ws, s.disk.files, Fold(s.disk.ops))
  {
    hide Fold, RequestFold, MaxId, IdsOk, CounterOk, ReservedOk, BlobsOk, EffectsOk, RidsOk, LockOk, MemOk, RequestsOk,
      CallersOk, CoveredOk, OwnersOk, InstallsOk, RepliesOk, ExecOk, HistoryOk, Classify;
  }

  /** About to tell a request that its marker contradicted its file. */
  ghost predicate TellingClash(a: State, rid: Rid) {
    && Reachable(a) && a.mode == Telling(rid, StoredError(CLASH_ERROR), []) && a.lock.Free?
    && rid in RequestFold(a.disk.reqs) && IsPending(RequestFold(a.disk.reqs)[rid])
    && LostVerdict(RequestFold(a.disk.reqs)[rid].op).None?
    && (forall id :: !Live1(Fold(a.disk.ops), id, rid))
  }

  lemma ClashTold(s: State, ts: nat)
    requires Reachable(s) && CanResolveMarker(s, ts) && Classify(s.ws, s.disk.files, s.mode.todo[0]).Clash?
    ensures TellingClash(DoResolveMarker(s, ts), s.mode.todo[0].rid)
  {
    hide Reachable, Inv, Fold, RequestFold, MaxId, Classify, Step, Upsert, WithoutMarker;
    ResolveMarkerStep(s, ts);
    ReachableByStep(s, DoResolveMarker(s, ts));
    ReachableInv(s);
    MarkerFacts(s);
    MarkerPending(s);
    MarkerOfMutation(s);
    NoLiveLeft(s, ts, s.mode.todo[0].rid);
  }

  lemma MarkerOfMutation(s: State)
    requires Inv(s) && s.mode.Marking? && s.lock.Durable()
    ensures var answers := RequestFold(s.disk.reqs); var rid := s.lock.m.rid;
      rid in answers && IsPending(answers[rid]) ==> LostVerdict(answers[rid].op).None?
  {
    hide Fold, RequestFold, MaxId, IdsOk, CounterOk, ReservedOk, BlobsOk, EffectsOk, MarkerOk, RidsOk, LockOk, MemOk,
      ModeOk, CallersOk, CoveredOk, InstallsOk, RepliesOk, ExecOk, HistoryOk;
  }

  lemma NoLiveLeft(s: State, ts: nat, rid: Rid)
    requires Inv(s) && CanResolveMarker(s, ts) && Classify(s.ws, s.disk.files, s.mode.todo[0]).Clash?
    requires rid == s.mode.todo[0].rid
    ensures forall id :: !Live1(Fold(DoResolveMarker(s, ts).disk.ops), id, rid)
  {
    hide Fold, RequestFold, MaxId, Inv, DoResolveMarker, Reconstruct, Classify;
    MarkerFacts(s);
    ResolveDisk(s, ts);
    MarkerAlone(s);
    var table := Fold(s.disk.ops);
    var after := table[s.lock.m.id := Resolution(s, ts)];
    assert Fold(DoResolveMarker(s, ts).disk.ops) == after;
    forall id: nat ensures !Live1(after, id, rid) {
      assert Live1(table, id, s.lock.m.rid) ==> id == s.lock.m.id;
    }
  }

  lemma MarkerAlone(s: State)
    requires Inv(s) && s.lock.Durable()
    ensures forall id :: Live1(Fold(s.disk.ops), id, s.lock.m.rid) ==> id == s.lock.m.id
  {
    OnlyMarker(s);
  }

  /** Once the error line is written, every way of finishing keeps it. */
  lemma ToldKeepsError(a: State, rid: Rid, run: seq<Event>, t: State)
    requires TellingClash(a, rid) && Recovers(DoTell(a), run, t)
    ensures Lookup(t.mem.requests, rid) == Some(Terminal(StoredError(CLASH_ERROR)))
  {
    hide Reachable, Fold, RequestFold, Goal, Recovers, LineOf, Step, HasRecord, AnswersRecord, LostVerdict;
    TellStep(a);
    ReachableByStep(a, DoTell(a));
    FinishReaches(DoTell(a), run, t);
    EntryOfLineOf(rid, Terminal(StoredError(CLASH_ERROR)));
    RequestFoldAppend(a.disk.reqs, LineOf(rid, Terminal(StoredError(CLASH_ERROR))));
  }

  /** Until then, dying loses it: every restart forgets the request, which can then run again. */
  lemma UntoldForgets(a: State, rid: Rid, run: seq<Event>, t: State)
    requires TellingClash(a, rid) && Restarts(DoCrash(a), run, t)
    ensures rid !in t.mem.requests
  {
    hide Reachable, Inv, Fold, RequestFold, Goal, Restarts, Step, LostVerdict, NoClash;
    var c := DoCrash(a);
    CrashStep(a);
    ReachableByStep(a, c);
    ReachableInv(c);
    UntamperedNoClash(c);
    RestartReaches(c, run, t);
    NoLiveNoRecord(c, rid);
    assert GoalEntry(Goal(c.ws, c.disk.files, Fold(c.disk.ops)), RequestFold(c.disk.reqs), rid,
        Lookup(t.mem.requests, rid));
  }

  lemma NoLiveNoRecord(c: State, rid: Rid)
    requires forall id :: !Live1(Fold(c.disk.ops), id, rid)
    ensures !HasRecord(Goal(c.ws, c.disk.files, Fold(c.disk.ops)), rid)
  {
    hide Fold, Classify;
    var goal := Goal(c.ws, c.disk.files, Fold(c.disk.ops));
    assert forall id :: Committed1(goal, id, rid) ==> Live1(Fold(c.disk.ops), id, rid);
  }

  /**
   The window: a marker that contradicts its file is answered with an error that every later restart keeps, unless the
   server dies between the Aborted line and that answer; then every restart forgets the request.
   */
  lemma ClashWindow(s: State, ts: nat, run: seq<Event>, t: State)
    requires Reachable(s) && CanResolveMarker(s, ts) && Classify(s.ws, s.disk.files, s.mode.todo[0]).Clash?
    ensures Recovers(DoTell(DoResolveMarker(s, ts)), run, t) ==>
        Lookup(t.mem.requests, s.mode.todo[0].rid) == Some(Terminal(StoredError(CLASH_ERROR)))
    ensures Restarts(DoCrash(DoResolveMarker(s, ts)), run, t) ==> s.mode.todo[0].rid !in t.mem.requests
  {
    hide Reachable, Fold, RequestFold, Classify, Recovers, Restarts, DoResolveMarker, DoTell;
    ClashTold(s, ts);
    var a := DoResolveMarker(s, ts);
    var rid := s.mode.todo[0].rid;
    if Recovers(DoTell(a), run, t) {
      ToldKeepsError(a, rid, run, t);
    }
    if Restarts(DoCrash(a), run, t) {
      UntoldForgets(a, rid, run, t);
    }
  }

  // ---- exactly when recovery is re-entrant ----

  /** Whatever happens on the way, a restart of this dead server has one outcome. */
  ghost predicate Reentrant(s: State) {
    forall run1, t1, run2, t2 :: Restarts(s, run1, t1) && Restarts(s, run2, t2) ==> SameOutcome(t1, t2)
  }

  /** Recovery is re-entrant if and only if no unresolved marker contradicts its file. */
  lemma ReentrantIff(s: State)
    requires Reachable(s) && s.mode.Down?
    ensures Reentrant(s) <==> NoClash(s.ws, s.disk.files, Fold(s.disk.ops))
  {
    hide Reachable, Fold, NoClash, Restarts, SameOutcome;
    if NoClash(s.ws, s.disk.files, Fold(s.disk.ops)) {
      forall run1, t1, run2, t2 | Restarts(s, run1, t1) && Restarts(s, run2, t2) ensures SameOutcome(t1, t2) {
        RecoveryReentrant(s, run1, t1, run2, t2);
      }
    } else {
      var run1, t1, run2, t2 := TwoOutcomes(s);
    }
  }

  /** A clash, a restart that tells it, and a restart that dies before telling it. */
  lemma TwoOutcomes(s: State) returns (run1: seq<Event>, t1: State, run2: seq<Event>, t2: State)
    requires Reachable(s) && s.mode.Down? && !NoClash(s.ws, s.disk.files, Fold(s.disk.ops))
    ensures Restarts(s, run1, t1) && Restarts(s, run2, t2) && !SameOutcome(t1, t2)
  {
    hide Reachable, Fold, NoClash, Restarts, Recovers, Classify, TellingClash, DoLoad, DoResolveMarker, DoCrash, DoTell,
      CanLoad, Does, Step;
    var order, l := LoadClash(s);
    var a := DoResolveMarker(l, 0);
    var rid := l.mode.todo[0].rid;
    ClashTold(l, 0);
    run1, t1 := FinishTold(a, rid);
    run2, t2 := FinishUntold(a, rid);
    Differ(t1, t2, rid);
    ResolveMarkerStep(l, 0);
    OneMore(l, ResolveMarker(0), a, run1, t1);
    OneMore(s, Load(order), l, [ResolveMarker(0)] + run1, t1);
    run1 := [Load(order)] + ([ResolveMarker(0)] + run1);
    IsRestart(s, run1, t1);
    OneMore(l, ResolveMarker(0), a, run2, t2);
    OneMore(s, Load(order), l, [ResolveMarker(0)] + run2, t2);
    run2 := [Load(order)] + ([ResolveMarker(0)] + run2);
    IsRestart(s, run2, t2);
  }

  lemma Differ(t1: State, t2: State, rid: Rid)
    requires Lookup(t1.mem.requests, rid) == Some(Terminal(StoredError(CLASH_ERROR))) && rid !in t2.mem.requests
    ensures !SameOutcome(t1, t2)
  {
    hide Fold, Committed;
  }

  lemma LoadClash(s: State) returns (order: seq<Record>, l: State)
    requires Reachable(s) && s.mode.Down? && !NoClash(s.ws, s.disk.files, Fold(s.disk.ops))
    ensures Does(s, Load(order), l) && Reachable(l) && CanResolveMarker(l, 0)
    ensures Classify(l.ws, l.disk.files, l.mode.todo[0]).Clash?
  {
    hide Reachable, Fold, RequestFold, MaxId, Classify, Does, Step, Enumerates, Markers;
    order := Loading.SomeOrder(s.disk.ops);
    LoadStep(s, order);
    l := DoLoad(s, order);
    ReachableByStep(s, l);
    ReachableInv(s);
    LoadMarkers(s, order);
    ClashIsMarker(s);
  }

  lemma ClashIsMarker(s: State)
    requires Inv(s) && !NoClash(s.ws, s.disk.files, Fold(s.disk.ops))
    ensures var table := Fold(s.disk.ops);
      s.lock.Durable() && s.lock.m.id in table && table[s.lock.m.id].Prepared? && Classify(s.ws, s.disk.files,
          table[s.lock.m.id]).Clash?
  {
    hide Fold, RequestFold, MaxId, IdsOk, CounterOk, ReservedOk, BlobsOk, EffectsOk, RidsOk, LockOk, MemOk, ModeOk,
      RequestsOk, CallersOk, CoveredOk, OwnersOk, InstallsOk, RepliesOk, ExecOk, HistoryOk, Classify;
  }

  lemma FinishTold(a: State, rid: Rid) returns (run: seq<Event>, t: State)
    requires TellingClash(a, rid)
    ensures Recovers(a, run, t) && Lookup(t.mem.requests, rid) == Some(Terminal(StoredError(CLASH_ERROR)))
  {
    hide Reachable, Fold, RequestFold, Recovers, LostVerdict, DoTell;
    run, t := FinishTelling(a);
    ToldKeepsError(a, rid, run, t);
    run := [Tell] + run;
  }

  lemma FinishUntold(a: State, rid: Rid) returns (run: seq<Event>, t: State)
    requires TellingClash(a, rid)
    ensures Recovers(a, run, t) && rid !in t.mem.requests
  {
    hide Reachable, Fold, RequestFold, LostVerdict, Does, Step, Leads, RecoveryOnly;
    var c := DoCrash(a);
    CrashStep(a);
    ReachableByStep(a, c);
    run, t := RestartExists(c);
    UntoldForgets(a, rid, run, t);
    OneMore(a, Crash, c, run, t);
    run := [Crash] + run;
  }
}
