/**
 What recovery makes of an interrupted mutation, told by the content of its file (store.rs: recover, drop_prepared,
 synthesize_commit, resolve_prepared_as_conflict_with).
 */
module Verdicts {
  import opened Prelude
  import opened Protocol
  import opened Tables
  import opened Replies
  import opened Plans
  import opened Machine
  import opened Invariant
  import opened ServingProofs
  import opened RecoveryProofs
  import opened Runs
  import opened Restart
  import opened Reentrancy

  /** The record of a mutation: what it found and what it left. */
  ghost predicate RecordOf(r: Record, m: Mutation) {
    r == Fs(m.id, m.rid, m.plan.kind, m.plan.path, HashOf(m.plan.before), AfterHash(m.plan.after), r.ts)
  }

  /** The answer to a mutation: its hashes, or for an undo the hash it restored. */
  function AnswerTo(m: Mutation): ServerMessage {
    ResultMsg(m.rid,
      if m.plan.kind.Undo? then UndoBody(m.id, HashOf(m.plan.after), AfterHash(m.plan.after))
      else MutationBody(m.id, HashOf(m.plan.before), AfterHash(m.plan.after)))
  }

  /** The file of an unresolved mutation holds neither what the mutation found nor what it was to leave. */
  ghost predicate Contradicted(s: State) {
    && s.lock.Held? && Lookup(s.disk.files, s.lock.m.plan.key) != s.lock.m.plan.before
    && Lookup(s.disk.files, s.lock.m.plan.key) != s.lock.m.plan.after
  }

  lemma ClassifiedByContent(s: State)
    requires Inv(s) && s.lock.Durable()
    ensures var table := Fold(s.disk.ops); var m := s.lock.m;
      && m.id in table && table[m.id].Prepared? && m.id in s.h.effects && s.h.effects[m.id] == m
      && m.plan.before != m.plan.after
      && Classify(s.ws, s.disk.files, table[m.id]) ==
           (if Lookup(s.disk.files, m.plan.key) == m.plan.before then NoOp
            else if Lookup(s.disk.files, m.plan.key) == m.plan.after then Took
            else Clash)
  {
    hide Fold, RequestFold, MaxId, IdsOk, CounterOk, ReservedOk, BlobsOk, RidsOk, MemOk, ModeOk, RequestsOk, CallersOk;
    hide CoveredOk, OwnersOk, RepliesOk, InstallsOk, ExecOk, HistoryOk;
    assert Describes(Fold(s.disk.ops)[s.lock.m.id], s.lock.m);
  }

  /** A marker clashes exactly if its file is contradicted. */
  lemma ClashIsContradiction(s: State)
    requires Reachable(s) && s.mode.Down?
    ensures NoClash(s.ws, s.disk.files, Fold(s.disk.ops)) <==> !Contradicted(s)
  {
    hide Reachable, Inv, Fold, Classify;
    ReachableInv(s);
    DownGuard(s);
    OnlyGuardMarked(s);
    if s.lock.Durable() {
      ClassifiedByContent(s);
    }
  }

  lemma DownGuard(s: State)
    requires Inv(s) && s.mode.Down?
    ensures s.lock.Held? ==> s.lock.Durable()
  {
    hide Fold, RequestFold, MaxId;
  }

  lemma OnlyGuardMarked(s: State)
    requires Inv(s)
    ensures forall id :: id in Fold(s.disk.ops) && Fold(s.disk.ops)[id].Prepared? ==>
      s.lock.Durable() && id == s.lock.m.id
  {
    hide Fold, RequestFold, MaxId;
  }

  /** Recovery is re-entrant if and only if the file of an unresolved mutation holds what it found or what it left. */
  lemma ReentrantByContent(s: State)
    requires Reachable(s) && s.mode.Down?
    ensures Reentrant(s) <==> !Contradicted(s)
  {
    hide Reachable, Reentrant, NoClash, Contradicted;
    ReentrantIff(s);
    ClashIsContradiction(s);
  }

  /** What settling the marker leads to, of log and answer. */
  ghost predicate Verdict(s: State, t: State, m: Mutation, ts: nat) {
    var f := Lookup(s.disk.files, m.plan.key);
    var table, after := Fold(s.disk.ops), Fold(t.disk.ops);
    && t.disk.files == s.disk.files && t.disk.reqs == s.disk.reqs && m.id in after
    && after == table[m.id := after[m.id]]
    && (f == m.plan.after ==>
          && RecordOf(after[m.id], m) && after[m.id].ts == ts
          && t.mode == Telling(m.rid, StoredDone(AnswerTo(m)), []))
    && (f != m.plan.after ==> after[m.id] == Aborted(m.id, ts))
    && (f == m.plan.before ==> t.mode == Marking([]))
    && (f != m.plan.after && f != m.plan.before ==>
          t.mode.Telling? && t.mode.rid == m.rid && t.mode.rest == []
          && t.mode.reply.StoredError? && t.mode.reply.error.code == UndoConflict)
  }

  /**
   Each marker is settled by the content of its file: what the mutation was to leave means a record and its answer, what
   it found means neither, anything else means no record and a conflict for an answer. No file changes.
   */
  lemma MarkerVerdict(s: State, ts: nat)
    requires Reachable(s) && CanResolveMarker(s, ts)
    ensures s.mode.todo[0].id in s.h.effects
    ensures Verdict(s, DoResolveMarker(s, ts), s.h.effects[s.mode.todo[0].id], ts)
  {
    hide Reachable, Inv, Fold, RequestFold, MaxId, Upsert, WithoutMarker, Classify;
    ReachableInv(s);
    MarkerFacts(s);
    ClassifiedByContent(s);
    ResolveDisk(s, ts);
    ResolveKeepsFiles(s, ts);
    AnswerRebuilt(s.lock.m, s.mode.todo[0], ts, s.ws);
  }

  lemma AnswerRebuilt(m: Mutation, p: Record, ts: nat, ws: Workspace)
    requires p.Prepared? && Describes(p, m) && GoodPlan(ws, m.plan)
    ensures RecordOf(Synthesized(p, ts), m) && Reconstruct(Synthesized(p, ts)) == AnswerTo(m)
  {
  }

  /** How an interrupted mutation ends up in the tables. */
  ghost predicate Fate(m: Mutation, f: Option<Bytes>, records: seq<Record>, requests: Answers) {
    if f == m.plan.after then
      && (exists r :: r in records && RecordOf(r, m))
      && Lookup(requests, m.rid) == Some(RequestEntry(Done, Some(StoredDone(AnswerTo(m))), None))
    else
      && (forall r :: r in records && r.IsCommitted() ==> r.id != m.id && r.rid != m.rid)
      && (if f == m.plan.before then m.rid !in requests
          else
            && m.rid in requests && requests[m.rid].status.Failed?
            && requests[m.rid].result.Some? && requests[m.rid].result.value.StoredError?
            && requests[m.rid].result.value.error.code == UndoConflict)
  }

  /** Marker settled and its request told, stuck requests still to come. */
  ghost predicate Judged(u: State, m: Mutation, f: Option<Bytes>) {
    var table, answers := Fold(u.disk.ops), RequestFold(u.disk.reqs);
    && u.mode == Marking([]) && m.rid in answers
    && (if f == m.plan.after then
          && m.id in table && RecordOf(table[m.id], m) && answers[m.rid] == Terminal(StoredDone(AnswerTo(m)))
        else
          && (forall id :: !Live1(table, id, m.rid)) && m.id in table && table[m.id].Aborted?
          && (if f == m.plan.before then IsPending(answers[m.rid]) && LostVerdict(answers[m.rid].op).None?
              else answers[m.rid] == Terminal(StoredError(CLASH_ERROR))))
  }

  lemma JudgedBy(s: State, ts: nat)
    requires Reachable(s) && CanResolveMarker(s, ts)
    ensures s.mode.todo[0].id in s.h.effects
    ensures var a := DoResolveMarker(s, ts); var u := if a.mode.Telling? then DoTell(a) else a;
      var m := s.h.effects[s.mode.todo[0].id];
      Judged(u, m, Lookup(s.disk.files, m.plan.key))
  {
    hide Reachable, Inv, Fold, RequestFold, MaxId, Upsert, WithoutMarker, Classify, LineOf, Terminal, Reconstruct;
    ReachableInv(s);
    MarkerFacts(s);
    ClassifiedByContent(s);
    ResolveDisk(s, ts);
    MarkerPending(s);
    MarkerOfMutation(s);
    AnswerRebuilt(s.lock.m, s.mode.todo[0], ts, s.ws);
    NobodyElse(s, ts);
    var a := DoResolveMarker(s, ts);
    if a.mode.Telling? {
      EntryOfLineOf(a.mode.rid, Terminal(a.mode.reply));
      RequestFoldAppend(a.disk.reqs, LineOf(a.mode.rid, Terminal(a.mode.reply)));
    }
  }

  /** The marker's request has no live record besides, if any, the marker's own. */
  lemma NobodyElse(s: State, ts: nat)
    requires Inv(s) && CanResolveMarker(s, ts) && s.lock.Durable()
    ensures var after := Fold(s.disk.ops)[s.lock.m.id := Aborted(s.lock.m.id, ts)];
      forall id :: !Live1(after, id, s.lock.m.rid)
  {
    hide Fold, RequestFold, MaxId, Inv;
    MarkerAlone(s);
    var after := Fold(s.disk.ops)[s.lock.m.id := Aborted(s.lock.m.id, ts)];
    forall id: nat ensures !Live1(after, id, s.lock.m.rid) {
      assert Live1(Fold(s.disk.ops), id, s.lock.m.rid) ==> id == s.lock.m.id;
    }
  }

  /** Once judged, every way of finishing keeps the verdict. */
  lemma FateReached(u: State, t: State, m: Mutation, f: Option<Bytes>)
    requires Inv(t) && t.mode.Serving? && Judged(u, m, f)
    requires Recovered(t, Goal(u.ws, u.disk.files, Fold(u.disk.ops)), RequestFold(u.disk.reqs))
    ensures Fate(m, f, t.mem.records, t.mem.requests)
  {
    hide Inv, Fold, RequestFold, Committed, Classify, AnswersRecord, Reconstruct, LostVerdict;
    var goal := Goal(u.ws, u.disk.files, Fold(u.disk.ops));
    assert GoalEntry(goal, RequestFold(u.disk.reqs), m.rid, Lookup(t.mem.requests, m.rid));
    NoLiveNoRecordHere(u, m.rid);
    CommittedAre(t);
    if f == m.plan.after {
      RecordReached(u, t, m);
    } else {
      RecordMissing(u, t, m);
    }
  }

  lemma NoLiveNoRecordHere(u: State, rid: Rid)
    ensures (forall id :: !Live1(Fold(u.disk.ops), id, rid)) ==>
      !HasRecord(Goal(u.ws, u.disk.files, Fold(u.disk.ops)), rid)
  {
    if forall id :: !Live1(Fold(u.disk.ops), id, rid) {
      NoLiveNoRecord(u, rid);
    }
  }

  lemma CommittedAre(t: State)
    requires Inv(t) && !t.mode.Down?
    ensures forall r: Record :: r in t.mem.records && r.IsCommitted() <==>
      r.id in Committed(Fold(t.mem.records)) && Committed(Fold(t.mem.records))[r.id] == r
  {
    hide Fold, RequestFold, MaxId, IdsOk, CounterOk, ReservedOk, BlobsOk, EffectsOk, MarkerOk, RidsOk, LockOk, ModeOk;
    hide RequestsOk, CallersOk, CoveredOk, OwnersOk, RepliesOk, InstallsOk, ExecOk, HistoryOk;
    FoldIsElements(t.mem.records);
  }

  lemma RecordReached(u: State, t: State, m: Mutation)
    requires m.id in Fold(u.disk.ops) && RecordOf(Fold(u.disk.ops)[m.id], m)
    requires Recovered(t, Goal(u.ws, u.disk.files, Fold(u.disk.ops)), RequestFold(u.disk.reqs))
    requires forall r: Record :: r in t.mem.records && r.IsCommitted() <==>
      r.id in Committed(Fold(t.mem.records)) && Committed(Fold(t.mem.records))[r.id] == r
    ensures exists r :: r in t.mem.records && RecordOf(r, m)
  {
    hide Fold, RequestFold, Committed, Classify, GoalEntry;
    var goal := Goal(u.ws, u.disk.files, Fold(u.disk.ops));
    assert m.id in goal && goal[m.id] == Timeless(Fold(u.disk.ops)[m.id]);
    var r := Committed(Fold(t.mem.records))[m.id];
    assert Timeless(r) == goal[m.id];
    assert RecordOf(r, m);
  }

  lemma RecordMissing(u: State, t: State, m: Mutation)
    requires m.id in Fold(u.disk.ops) && Fold(u.disk.ops)[m.id].Aborted?
    requires forall id :: !Live1(Fold(u.disk.ops), id, m.rid)
    requires Recovered(t, Goal(u.ws, u.disk.files, Fold(u.disk.ops)), RequestFold(u.disk.reqs))
    requires forall r: Record :: r in t.mem.records && r.IsCommitted() <==>
      r.id in Committed(Fold(t.mem.records)) && Committed(Fold(t.mem.records))[r.id] == r
    ensures forall r :: r in t.mem.records && r.IsCommitted() ==> r.id != m.id && r.rid != m.rid
  {
    hide Fold, RequestFold, Committed, Classify, GoalEntry;
    var goal := Goal(u.ws, u.disk.files, Fold(u.disk.ops));
    forall r | r in t.mem.records && r.IsCommitted() ensures r.id != m.id && r.rid != m.rid {
      assert r.id in goal && goal[r.id] == Timeless(r);
      assert r.rid == m.rid ==> Live1(Fold(u.disk.ops), r.id, m.rid);
    }
  }

  lemma SettledOnTrack(s: State)
    requires Reachable(s) && s.mode == Marking([])
    ensures OnTrack(s, Goal(s.ws, s.disk.files, Fold(s.disk.ops)), RequestFold(s.disk.reqs))
  {
    hide Reachable, Inv, OnTrack, Goal;
    ReachableInv(s);
    MarkedOnTrack(s);
  }

  /** A marker in memory at startup is that of a mutation some run logged. */
  lemma MarkerKnown(s: State)
    requires Reachable(s) && s.mode == Marking(Markers(s.mem.records))
    ensures forall p :: p in Markers(s.mem.records) ==> p.id in s.h.effects && Describes(p, s.h.effects[p.id])
  {
    hide Reachable, Inv, Markers;
    ReachableInv(s);
    if Markers(s.mem.records) != [] {
      MarkerFacts(s);
    }
  }

  lemma FatesReached(u: State, t: State, m: Mutation, f: Option<Bytes>)
    requires Reachable(t) && t.mode.Serving? && Judged(u, m, f)
    requires Recovered(t, Goal(u.ws, u.disk.files, Fold(u.disk.ops)), RequestFold(u.disk.reqs))
    ensures Fate(m, f, t.mem.records, t.mem.requests)
  {
    hide Reachable, Inv, Judged, Recovered, Goal, Fate;
    ReachableInv(t);
    FateReached(u, t, m, f);
  }
}
