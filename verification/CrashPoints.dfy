/** Dying after any one of the durable writes of a mutation (store.rs: prepare_fs_record, commit_fs_record, recover). */
module CrashPoints {
  import opened Prelude
  import opened Protocol
  import opened Tables
  import opened Replies
  import opened Plans
  import opened Machine
  import opened Invariant
  import opened ServingProofs
  import opened Steps
  import opened Restart
  import opened StateStore
  import LogBytes

  lemma MutationReachable(s: State, rid: Rid, ts1: nat, ts2: nat)
    requires Reachable(s) && Accepts(s, rid)
    ensures forall k :: 0 <= k < 5 ==> Reachable(MutationSteps(s, rid, ts1, ts2)[k])
  {
    hide Reachable, Step, Does, Decide, MarkerOf, CommitOf, ReplyTo, Upsert;
    var a := DoBegin(s, rid);
    BeginStep(s, rid);
    ReachableByStep(s, a);
    var b := DoSaveBlob(a);
    SaveBlobStep(a);
    ReachableByStep(a, b);
    var c := DoLogMarker(b, ts1);
    LogMarkerStep(b, ts1);
    ReachableByStep(b, c);
    var d := DoInstall(c);
    InstallStep(c);
    ReachableByStep(c, d);
    CommitStep(d, ts2);
    ReachableByStep(d, DoCommit(d, ts2));
  }

  /** Where a mutation stands after its k-th step. */
  lemma StepShape(s: State, rid: Rid, plan: Plan, ts1: nat, ts2: nat, k: nat)
    requires Accepts(s, rid) && k < 4
    requires Decide(s.ws, s.disk.files, s.disk.blobs, s.mem.records, s.owners[rid].request) == Ok(plan)
    ensures var t := MutationSteps(s, rid, ts1, ts2)[k];
      && t.mode.Serving? && t.lock.Held? && t.lock.m == Mutation(s.mem.nextId + 1, rid, plan)
      && (t.lock.stage.Installed? <==> k == 3)
      && t.disk.files == (if k == 3 then Store(s.disk.files, plan.key, plan.after) else s.disk.files)
  {
    hide Decide, MarkerOf, CommitOf, ReplyTo, Upsert, Store;
  }

  lemma CommittedShape(s: State, rid: Rid, plan: Plan, ts1: nat, ts2: nat)
    requires Accepts(s, rid)
    requires Decide(s.ws, s.disk.files, s.disk.blobs, s.mem.records, s.owners[rid].request) == Ok(plan)
    ensures var t := MutationSteps(s, rid, ts1, ts2)[4]; var id := s.mem.nextId + 1;
      && t.mode.Serving? && t.lock.Free?
      && t.disk.files == Store(s.disk.files, plan.key, plan.after)
      && id in Fold(t.disk.ops) && Fold(t.disk.ops)[id] == CommitOf(id, rid, plan, ts2)
      && rid in t.owners && t.owners[rid] == Answering(StoredDone(ReplyTo(id, rid, plan)))
  {
    hide Decide, MarkerOf, ReplyTo, Upsert, Store, Fold;
    var a := DoBegin(s, rid);
    var d := DoInstall(DoLogMarker(DoSaveBlob(a), ts1));
    FoldAppend(d.disk.ops, CommitOf(s.mem.nextId + 1, rid, plan, ts2));
  }

  /** The state a restart must leave behind, once the mutation's fate is known. */
  ghost predicate Settled(u: State, files: Files, id: nat, rid: Rid, plan: Plan, happened: bool) {
    && u.disk.files == (if happened then Store(files, plan.key, plan.after) else files)
    && (id in Committed(Fold(u.mem.records)) <==> happened)
    && (if happened then
          && Timeless(Committed(Fold(u.mem.records))[id]) == CommitOf(id, rid, plan, 0)
          && Lookup(u.mem.requests, rid) == Some(Terminal(StoredDone(ReplyTo(id, rid, plan))))
        else rid !in u.mem.requests)
  }

  /**
   The server dies after the k-th of id, blob, marker, install, commit, and restarts with any number of further
   crashes on the way. Before the install nothing happened and the request can be claimed again; from the install on
   everything did, and the request is answered as the handler would have answered it.
   */
  lemma CrashAfterAnyStep(s: State, rid: Rid, plan: Plan, ts1: nat, ts2: nat, k: nat, run: seq<Event>, t: State)
    requires Reachable(s) && Accepts(s, rid) && k < 5
    requires Decide(s.ws, s.disk.files, s.disk.blobs, s.mem.records, s.owners[rid].request) == Ok(plan)
    requires Restarts(DoCrash(MutationSteps(s, rid, ts1, ts2)[k]), run, t)
    ensures Settled(t, s.disk.files, s.mem.nextId + 1, rid, plan, k >= 3)
  {
    hide Reachable, Accepts, Decide, MutationSteps, Restarts, DoCrash, Store, CommitOf, ReplyTo, Committed, Fold;
    MutationReachable(s, rid, ts1, ts2);
    var u := MutationSteps(s, rid, ts1, ts2)[k];
    if k < 4 {
      StepShape(s, rid, plan, ts1, ts2, k);
      CrashAtomic(u, run, t);
    } else {
      CommittedShape(s, rid, plan, ts1, ts2);
      CrashAfterCommit(u, run, t, s.mem.nextId + 1, rid, plan, ts2);
    }
  }

  /** After the commit and before the answer is durable. */
  lemma CrashAfterCommit(s: State, run: seq<Event>, t: State, id: nat, rid: Rid, plan: Plan, ts: nat)
    requires Reachable(s) && s.mode.Serving? && s.lock.Free? && Restarts(DoCrash(s), run, t)
    requires id in Fold(s.disk.ops) && Fold(s.disk.ops)[id] == CommitOf(id, rid, plan, ts)
    requires rid in s.owners && s.owners[rid] == Answering(StoredDone(ReplyTo(id, rid, plan)))
    ensures t.disk.files == s.disk.files && id in Committed(Fold(t.mem.records))
    ensures Timeless(Committed(Fold(t.mem.records))[id]) == CommitOf(id, rid, plan, 0)
    ensures Lookup(t.mem.requests, rid) == Some(Terminal(StoredDone(ReplyTo(id, rid, plan))))
  {
    hide Fold, RequestFold, Goal, GoalEntry, Inv, Recovered, Restarts, Reachable, DoCrash, ReplyTo, Committed;
    CrashReaches(s, run, t);
    CommittedGoal(s, id, rid, plan, ts);
    CommittedAtGoal(s, t, id, rid, plan);
  }

  /** An answered-but-not-remembered mutation is committed to exactly its answer. */
  lemma CommittedGoal(s: State, id: nat, rid: Rid, plan: Plan, ts: nat)
    requires Inv(s) && s.mode.Serving?
    requires id in Fold(s.disk.ops) && Fold(s.disk.ops)[id] == CommitOf(id, rid, plan, ts)
    requires rid in s.owners && s.owners[rid] == Answering(StoredDone(ReplyTo(id, rid, plan)))
    ensures var goal := Goal(s.ws, s.disk.files, Fold(s.disk.ops));
      && id in goal && goal[id] == CommitOf(id, rid, plan, 0)
      && forall e :: GoalEntry(goal, RequestFold(s.disk.reqs), rid, e) ==>
            e == Some(Terminal(StoredDone(ReplyTo(id, rid, plan))))
  {
    hide Fold, RequestFold, MaxId, Reconstruct, ReplyTo, Classify, IdsOk, CounterOk, ReservedOk, BlobsOk, EffectsOk,
      MarkerOk, LockOk, MemOk, CallersOk, CoveredOk, InstallsOk, RepliesOk, ExecOk, HistoryOk;
    var goal := Goal(s.ws, s.disk.files, Fold(s.disk.ops));
    OwnerPending(s, rid);
    assert Live1(Fold(s.disk.ops), id, rid);
    assert Committed1(goal, id, rid);
    ReconstructTimeless(CommitOf(id, rid, plan, ts));
    GoalUnique(s);
  }

  lemma CommittedAtGoal(s: State, u: State, id: nat, rid: Rid, plan: Plan)
    requires var goal := Goal(s.ws, s.disk.files, Fold(s.disk.ops));
      && Recovered(u, goal, RequestFold(s.disk.reqs))
      && id in goal && goal[id] == CommitOf(id, rid, plan, 0)
      && forall e :: GoalEntry(goal, RequestFold(s.disk.reqs), rid, e) ==>
            e == Some(Terminal(StoredDone(ReplyTo(id, rid, plan))))
    ensures id in Committed(Fold(u.mem.records))
    ensures Timeless(Committed(Fold(u.mem.records))[id]) == CommitOf(id, rid, plan, 0)
    ensures Lookup(u.mem.requests, rid) == Some(Terminal(StoredDone(ReplyTo(id, rid, plan))))
  {
    hide Fold, RequestFold, Goal, GoalEntry, Committed, ReplyTo;
    assert GoalEntry(Goal(s.ws, s.disk.files, Fold(s.disk.ops)), RequestFold(s.disk.reqs), rid,
        Lookup(u.mem.requests, rid));
  }

  /**
   An append to either log that tears is the step before it or the step after it: whatever part of the line reached
   the disk, the next load finds the log of a reachable state, and repairs the file to exactly that log.
   */
  lemma TornAppendIsAtomic(c: LogBytes.Codec<Record>, s: State, t: State, r: Record, k: nat)
    requires LogBytes.Lawful(c) && Reachable(s) && Step(s, t) && t.disk.ops == s.disk.ops + [r]
    requires k <= |c.encode(r)| + 1
    ensures var found := LogBytes.Load(c, LogBytes.Log(c, s.disk.ops) + (c.encode(r) + [LogBytes.NEWLINE])[..k]);
      exists u: State ::
        u in {s, t} && Reachable(u) && found == Ok(LogBytes.Loaded(u.disk.ops, LogBytes.Log(c, u.disk.ops)))
  {
    hide Reachable, Step, Does, LogBytes.Load, LogBytes.Log;
    ReachableByStep(s, t);
    LogBytes.TornTail(c, s.disk.ops, r, k, r);
    assert Reachable(s) && Reachable(t);
  }

  lemma TornRequestLineIsAtomic(c: LogBytes.Codec<RequestLine>, s: State, t: State, l: RequestLine, k: nat)
    requires LogBytes.Lawful(c) && Reachable(s) && Step(s, t) && t.disk.reqs == s.disk.reqs + [l]
    requires k <= |c.encode(l)| + 1
    ensures var found := LogBytes.Load(c, LogBytes.Log(c, s.disk.reqs) + (c.encode(l) + [LogBytes.NEWLINE])[..k]);
      exists u: State ::
        u in {s, t} && Reachable(u) && found == Ok(LogBytes.Loaded(u.disk.reqs, LogBytes.Log(c, u.disk.reqs)))
  {
    hide Reachable, Step, Does, LogBytes.Load, LogBytes.Log;
    ReachableByStep(s, t);
    LogBytes.TornTail(c, s.disk.reqs, l, k, l);
    assert Reachable(s) && Reachable(t);
  }
}
