/**
 What becomes of a request and its answer when the server dies, read off the disk it leaves behind (store.rs: new,
 recover; server.rs: handle, replay branch).
 */
module Answers {
  import opened Prelude
  import opened Protocol
  import opened Tables
  import opened Replies
  import opened Plans
  import opened Machine
  import opened Cases
  import opened Invariant
  import opened ServingProofs
  import opened RecoveryProofs
  import opened Runs
  import opened Steps
  import opened Restart

  // ---- which requests a restart forgets ----

  /** The log holds a record of this request, or a marker whose install took place. */
  ghost predicate OnRecord(ws: Workspace, files: Files, table: Table, rid: Rid) {
    exists id :: Live1(table, id, rid) && (table[id].Prepared? ==> Classify(ws, files, table[id]).Took?)
  }

  lemma GoalRecords(s: State, rid: Rid)
    requires Inv(s)
    ensures HasRecord(Goal(s.ws, s.disk.files, Fold(s.disk.ops)), rid) <==>
        OnRecord(s.ws, s.disk.files, Fold(s.disk.ops), rid)
  {
    hide Fold, RequestFold, MaxId, Classify, IdsOk, CounterOk, ReservedOk, BlobsOk, EffectsOk, MarkerOk, LockOk, MemOk,
      ModeOk, RequestsOk, CallersOk, CoveredOk, OwnersOk, InstallsOk, RepliesOk, ExecOk, HistoryOk;
    var table := Fold(s.disk.ops);
    var goal := Goal(s.ws, s.disk.files, table);
    if HasRecord(goal, rid) {
      var id :| Committed1(goal, id, rid);
      assert Live1(table, id, rid);
    }
    if OnRecord(s.ws, s.disk.files, table, rid) {
      var id :| Live1(table, id, rid) && (table[id].Prepared? ==> Classify(s.ws, s.disk.files, table[id]).Took?);
      assert Committed1(goal, id, rid);
    }
  }

  /** What a dead server's disk says will be forgotten. */
  ghost predicate WillForget(s: State, rid: Rid) {
    var answers := RequestFold(s.disk.reqs);
    rid !in answers
    || (IsPending(answers[rid]) && answers[rid].op != Some(OpExec)
        && !OnRecord(s.ws, s.disk.files, Fold(s.disk.ops), rid))
  }

  /**
   Exactly which requests can be claimed again after a restart: those without a line, and those whose last line is a
   claim, of anything but a command, with neither a record in the log nor a marker whose install took place.
   */
  lemma RestartForgets(s: State, run: seq<Event>, t: State, rid: Rid)
    requires Reachable(s) && NoClash(s.ws, s.disk.files, Fold(s.disk.ops)) && Restarts(s, run, t)
    ensures rid !in t.mem.requests <==> WillForget(s, rid)
  {
    hide Reachable, Inv, NoClash, Restarts, Fold, RequestFold, Goal, OnRecord, HasRecord, AnswersRecord;
    ReachableInv(s);
    RestartReaches(s, run, t);
    GoalRecords(s, rid);
    PendingOp(s, rid);
    assert GoalEntry(Goal(s.ws, s.disk.files, Fold(s.disk.ops)), RequestFold(s.disk.reqs), rid,
        Lookup(t.mem.requests, rid));
    RecordAnswered(s, rid, Lookup(t.mem.requests, rid));
  }

  lemma RecordAnswered(s: State, rid: Rid, e: Option<RequestEntry>)
    ensures AnswersRecord(Goal(s.ws, s.disk.files, Fold(s.disk.ops)), rid, e) ==> e.Some?
  {
    hide Fold, Goal, Reconstruct;
  }

  lemma PendingOp(s: State, rid: Rid)
    requires Inv(s)
    ensures var answers := RequestFold(s.disk.reqs); rid in answers && IsPending(answers[rid]) ==> answers[rid].op.Some?
  {
    hide Fold, RequestFold, MaxId, IdsOk, CounterOk, ReservedOk, BlobsOk, EffectsOk, RidsOk, MarkerOk, LockOk, MemOk,
      ModeOk, CallersOk, CoveredOk, OwnersOk, InstallsOk, RepliesOk, ExecOk, HistoryOk;
  }

  // ---- which answers survive ----

  /** The disk can still tell that this request was answered with m: its last line is an answer, or it has a record. */
  ghost predicate Safe(s: State, rid: Rid, m: ServerMessage) {
    var answers := RequestFold(s.disk.reqs);
    rid in answers
    && (|| !IsPending(answers[rid])
        || HasRecord(Fold(s.disk.ops), rid)
        || (answers[rid].op == Some(OpExec) && m == ErrorMsg(rid, EXEC_LOST)))
  }

  ghost predicate Replays(s: State, rid: Rid, m: ServerMessage) {
    CanReplay(s, rid) && Wire(rid, s.mem.requests[rid].result.value) == m
  }

  /**
   Exactly which answers survive the server's death: a request answered with m is answered with m after every restart
   if and only if its last line in the request log is not a losing duplicate's claim, or the operation log has its
   record; an answer that is itself "lost in a crash" is given again either way.
   */
  lemma AnswerSurvives(s: State, rid: Rid, m: ServerMessage, run: seq<Event>, t: State)
    requires Reachable(s) && Replays(s, rid, m) && Restarts(DoCrash(s), run, t)
    ensures Replays(t, rid, m) <==> Safe(s, rid, m)
  {
    assert t.mode.Serving?;
    hide Reachable, Inv, Restarts, Fold, RequestFold, Goal, GoalEntry, Recovered, DoCrash;
    CrashReaches(s, run, t);
    StoredLine(s, rid);
    AnsweredGoal(s, rid);
    PendingOp(s, rid);
    EntryAfter(s, t, rid, m);
  }

  /** An entry that differs from its last line differs from a claim. */
  lemma StoredLine(s: State, rid: Rid)
    requires Inv(s) && CanReplay(s, rid)
    ensures var answers := RequestFold(s.disk.reqs);
      rid in answers && (answers[rid] == s.mem.requests[rid] || IsPending(answers[rid]))
    ensures !IsPending(s.mem.requests[rid])
  {
    hide Fold, RequestFold, MaxId, IdsOk, CounterOk, ReservedOk, BlobsOk, EffectsOk, RidsOk, MarkerOk, LockOk, MemOk,
      ModeOk, CallersOk, CoveredOk, OwnersOk, InstallsOk, RepliesOk, ExecOk, HistoryOk;
  }

  /** An answered request is not the one under the guard, so its records now are its records after a restart. */
  lemma AnsweredGoal(s: State, rid: Rid)
    requires Inv(s) && CanReplay(s, rid)
    ensures var goal := Goal(s.ws, s.disk.files, Fold(s.disk.ops)); var table := Fold(s.disk.ops);
      && (HasRecord(goal, rid) <==> HasRecord(table, rid))
      && (forall id :: Committed1(goal, id, rid) ==>
            Reconstruct(goal[id]) == Wire(rid, s.mem.requests[rid].result.value))
  {
    hide Fold, RequestFold, MaxId, Reconstruct, Classify, IdsOk, CounterOk, ReservedOk, BlobsOk, RidsOk, LockOk, MemOk,
      RequestsOk, CallersOk, CoveredOk, InstallsOk, ExecOk, HistoryOk;
    var table := Fold(s.disk.ops);
    var goal := Goal(s.ws, s.disk.files, table);
    NotGuarded(s, rid);
    forall id | Committed1(goal, id, rid)
      ensures Committed1(table, id, rid) && Reconstruct(goal[id]) == Wire(rid, s.mem.requests[rid].result.value)
    {
      assert Live1(table, id, rid);
      ReconstructTimeless(table[id]);
    }
    forall id | Committed1(table, id, rid) ensures Committed1(goal, id, rid) {
    }
  }

  lemma NotGuarded(s: State, rid: Rid)
    requires Inv(s) && CanReplay(s, rid)
    ensures forall id :: Live1(Fold(s.disk.ops), id, rid) ==> Fold(s.disk.ops)[id].IsCommitted()
  {
    hide Fold, RequestFold, MaxId, Reconstruct, Classify, IdsOk, CounterOk, ReservedOk, BlobsOk, LockOk, MemOk,
      CallersOk, CoveredOk, InstallsOk, ExecOk, HistoryOk, RepliesOk, RidsOk;
    if s.lock.Held? {
      OwnerPending(s, s.lock.m.rid);
    }
    assert s.lock.Durable() ==> Describes(Fold(s.disk.ops)[s.lock.m.id], s.lock.m);
  }

  lemma EntryAfter(s: State, t: State, rid: Rid, m: ServerMessage)
    requires Replays(s, rid, m) && t.mode.Serving?
    requires var answers := RequestFold(s.disk.reqs);
      && rid in answers && (answers[rid] == s.mem.requests[rid] || IsPending(answers[rid]))
      && !IsPending(s.mem.requests[rid])
      && (IsPending(answers[rid]) ==> answers[rid].op.Some?)
    requires var goal := Goal(s.ws, s.disk.files, Fold(s.disk.ops)); var table := Fold(s.disk.ops);
      && (HasRecord(goal, rid) <==> HasRecord(table, rid))
      && (forall id :: Committed1(goal, id, rid) ==>
            Reconstruct(goal[id]) == Wire(rid, s.mem.requests[rid].result.value))
    requires Recovered(t, Goal(s.ws, s.disk.files, Fold(s.disk.ops)), RequestFold(s.disk.reqs))
    ensures Replays(t, rid, m) <==> Safe(s, rid, m)
  {
    hide Fold, RequestFold, Goal, Reconstruct, HasRecord, Committed;
    var goal := Goal(s.ws, s.disk.files, Fold(s.disk.ops));
    var e := Lookup(t.mem.requests, rid);
    assert GoalEntry(goal, RequestFold(s.disk.reqs), rid, e);
  }

  // ---- an answer once given is given again ----

  /** The log still determines that this request was answered with m. */
  ghost predicate Determined(table: Table, answers: Answers, rid: Rid, m: ServerMessage) {
    && rid in answers
    && (if IsPending(answers[rid]) then
          if HasRecord(table, rid) then forall id :: Committed1(table, id, rid) ==> Reconstruct(table[id]) == m
          else answers[rid].op == Some(OpExec) && m == ErrorMsg(rid, EXEC_LOST) && forall id :: !Live1(table, id, rid)
        else answers[rid].result.Some? && Wire(rid, answers[rid].result.value) == m)
  }

  /** The request has been answered with m, and will be. */
  ghost predicate Answered(s: State, rid: Rid, m: ServerMessage) {
    if Up(s.mode) then
      && rid in s.mem.requests && s.mem.requests[rid].result.Some?
      && Wire(rid, s.mem.requests[rid].result.value) == m
    else Determined(Fold(s.disk.ops), RequestFold(s.disk.reqs), rid, m)
  }

  /** This step leaves the answer alone: a crash finds it safe on disk, and a prune retains its entry. */
  ghost predicate Spares(s: State, e: Event, rid: Rid, m: ServerMessage) {
    match e
    case Crash => Up(s.mode) ==> Safe(s, rid, m)
    case PruneBegin(keep) => rid in DoPruneBegin(s, keep).mem.requests
    case _ => true
  }

  ghost predicate Undisturbed(s: State, run: seq<Event>, rid: Rid, m: ServerMessage)
    requires ValidRun(s, run)
    decreases |run|
  {
    run == [] || (Spares(s, run[0], rid, m) && Undisturbed(Apply(s, run[0]), run[1..], rid, m))
  }

  /** Of this request's answers, nothing but m was sent between s and t. */
  ghost predicate OnlySent(s: State, t: State, rid: Rid, m: ServerMessage) {
    forall x :: (rid, x) in t.h.replies ==> (rid, x) in s.h.replies || x == m
  }

  ghost predicate Next(s: State, t: State, rid: Rid, m: ServerMessage) {
    Answered(t, rid, m) && OnlySent(s, t, rid, m)
  }

  lemma AnsweredStep(s: State, e: Event, rid: Rid, m: ServerMessage)
    requires Inv(s) && Answered(s, rid, m) && Enabled(s, e) && Spares(s, e, rid, m)
    ensures Next(s, Apply(s, e), rid, m)
  {
    hide *;
    EventKinds(e);
    if WorkEvent(e) {
      WorkAnswered(s, e, rid, m);
    } else if RecoveryEvent(e) {
      RecoveryAnswered(s, e, rid, m);
    } else if PruneEvent(e) || e.PruneBegin? {
      PruneAnswered(s, e, rid, m);
    } else {
      ClaimAnswered(s, e, rid, m);
    }
  }

  lemma WorkAnswered(s: State, e: Event, rid: Rid, m: ServerMessage)
    requires Answered(s, rid, m) && Enabled(s, e) && WorkEvent(e)
    ensures Next(s, Apply(s, e), rid, m)
  {
    hide Enabled, Apply;
    WorkCases(s, e);
    hide Decide, MaxId, Upsert, ExecReply, ExecDataOf, MarkerOf, CommitOf, ReplyTo, Store, Determined, Wire;
  }

  lemma PruneAnswered(s: State, e: Event, rid: Rid, m: ServerMessage)
    requires Answered(s, rid, m) && Enabled(s, e) && (PruneEvent(e) || e.PruneBegin?) && Spares(s, e, rid, m)
    ensures Next(s, Apply(s, e), rid, m)
  {
    hide Enabled, Apply;
    PruneCases(s, e);
    hide Determined, Wire, Rewrites, RequestIds, FileRids, Safe;
  }

  lemma ClaimAnswered(s: State, e: Event, rid: Rid, m: ServerMessage)
    requires Inv(s) && Answered(s, rid, m) && Enabled(s, e) && ClaimEvent(e)
    ensures Next(s, Apply(s, e), rid, m)
  {
    hide Inv, Enabled, Apply, CanTouch, DoTouch, Determined, Wire, LineOf;
    ClaimCases(s, e);
    if e.Remember? {
      OwnerUnanswered(s, e.rid);
    } else if e.Touch? {
      TouchAnswered(s, e.key, e.content, rid, m);
    }
  }

  lemma OwnerUnanswered(s: State, rid: Rid)
    requires Inv(s) && s.mode.Serving? && rid in s.owners
    ensures rid in s.mem.requests && s.mem.requests[rid].result.None?
  {
    hide Fold, RequestFold, MaxId;
    OwnerPending(s, rid);
  }

  lemma TouchAnswered(s: State, key: string, content: Option<Bytes>, rid: Rid, m: ServerMessage)
    requires Answered(s, rid, m)
    ensures Next(s, DoTouch(s, key, content), rid, m)
  {
    hide Determined, Wire, Store;
  }

  lemma RecoveryAnswered(s: State, e: Event, rid: Rid, m: ServerMessage)
    requires Inv(s) && Answered(s, rid, m) && Enabled(s, e) && RecoveryEvent(e) && Spares(s, e, rid, m)
    ensures Next(s, Apply(s, e), rid, m)
  {
    assert e.Crash? && Up(s.mode) ==> Safe(s, rid, m);
    hide *;
    RecoveryCases(s, e);
    if e.Crash? {
      CrashAnswered(s, rid, m);
    } else if e.Load? {
      LoadAnswered(s, e.order, rid, m);
    } else if e.ResolveMarker? {
      ResolveAnswered(s, e.ts, rid, m);
    } else if e.Tell? {
      TellAnswered(s, rid, m);
    } else if e.MarkersDone? {
      MarkersDoneAnswered(s, rid, m);
    } else if e.Unstick? {
      UnstickAnswered(s, e.rid, rid, m);
    } else if e.Open? {
      OpenAnswered(s, rid, m);
    }
  }

  lemma CrashAnswered(s: State, rid: Rid, m: ServerMessage)
    requires Inv(s) && Answered(s, rid, m) && CanCrash(s) && (Up(s.mode) ==> Safe(s, rid, m))
    ensures Next(s, DoCrash(s), rid, m)
  {
    hide Inv, Fold, RequestFold, Reconstruct, Wire, HasRecord;
    if Up(s.mode) {
      UpDetermined(s, rid, m);
    }
  }

  lemma UpDetermined(s: State, rid: Rid, m: ServerMessage)
    requires Inv(s) && Up(s.mode) && Answered(s, rid, m) && Safe(s, rid, m)
    ensures Determined(Fold(s.disk.ops), RequestFold(s.disk.reqs), rid, m)
  {
    hide Fold, RequestFold, MaxId, Reconstruct, Wire, IdsOk, CounterOk, ReservedOk, BlobsOk, EffectsOk, MarkerOk,
      RidsOk, LockOk, MemOk, ModeOk, CallersOk, CoveredOk, OwnersOk, InstallsOk, ExecOk, HistoryOk;
    UpAnswered(s, rid);
  }

  /** Of an answered request's records, none is a marker. */
  lemma UpAnswered(s: State, rid: Rid)
    requires Inv(s) && Up(s.mode) && rid in s.mem.requests && s.mem.requests[rid].result.Some?
    ensures forall id :: Live1(Fold(s.disk.ops), id, rid) ==> Committed1(Fold(s.disk.ops), id, rid)
  {
    hide Fold, RequestFold, MaxId, Reconstruct, IdsOk, CounterOk, ReservedOk, BlobsOk, MemOk, CallersOk, CoveredOk,
      InstallsOk, ExecOk, HistoryOk, RepliesOk, RidsOk;
    if s.lock.Held? && s.mode.Serving? {
      OwnerPending(s, s.lock.m.rid);
    }
    assert s.lock.Durable() ==> Describes(Fold(s.disk.ops)[s.lock.m.id], s.lock.m);
  }

  lemma LoadAnswered(s: State, order: seq<Record>, rid: Rid, m: ServerMessage)
    requires Answered(s, rid, m) && CanLoad(s, order)
    ensures Next(s, DoLoad(s, order), rid, m)
  {
    hide Determined, Enumerates, Fold, RequestFold, Markers, MaxId;
  }

  lemma MarkersDoneAnswered(s: State, rid: Rid, m: ServerMessage)
    requires Answered(s, rid, m) && CanMarkersDone(s)
    ensures Next(s, DoMarkersDone(s), rid, m)
  {
    hide Determined, Fold, RequestFold, StuckRids;
  }

  /** A marker is not its request's record, and its request is no command. */
  lemma MarkerNotAnswered(s: State, rid: Rid, m: ServerMessage)
    requires Inv(s) && s.mode.Marking? && s.mode.todo != []
    requires Determined(Fold(s.disk.ops), RequestFold(s.disk.reqs), rid, m)
    ensures s.lock.Durable() && s.lock.m.rid != rid
  {
    hide Fold, RequestFold, MaxId, Reconstruct, Wire, IdsOk, CounterOk, ReservedOk, BlobsOk, LockOk, MemOk, CallersOk,
      CoveredOk, InstallsOk, ExecOk, HistoryOk, RepliesOk;
    MarkerFacts(s);
    MarkerPending(s);
    OnlyMarker(s);
    assert Live1(Fold(s.disk.ops), s.lock.m.id, s.lock.m.rid);
  }

  lemma ResolveAnswered(s: State, ts: nat, rid: Rid, m: ServerMessage)
    requires Inv(s) && Answered(s, rid, m) && CanResolveMarker(s, ts)
    ensures Next(s, DoResolveMarker(s, ts), rid, m)
  {
    hide Inv, Fold, RequestFold, MaxId, Reconstruct, Wire, DoResolveMarker, Resolution, Classify;
    MarkerNotAnswered(s, rid, m);
    MarkerFacts(s);
    ResolveDisk(s, ts);
    ResolveShape(s, ts);
    ResolutionShape(s, ts);
    OtherRecords(Fold(s.disk.ops), RequestFold(s.disk.reqs), Resolution(s, ts), rid, m);
  }

  /** Settling another request's marker leaves this one's records alone. */
  lemma OtherRecords(table: Table, answers: Answers, r: Record, rid: Rid, m: ServerMessage)
    requires Determined(table, answers, rid, m)
    requires r.id in table && table[r.id].Prepared? && table[r.id].rid != rid && (r.Aborted? || r.rid != rid)
    ensures Determined(table[r.id := r], answers, rid, m)
  {
    hide Reconstruct, Wire;
    var after := table[r.id := r];
    assert forall id :: Committed1(after, id, rid) <==> Committed1(table, id, rid);
    assert forall id :: Live1(after, id, rid) <==> Live1(table, id, rid);
    assert HasRecord(after, rid) <==> HasRecord(table, rid) by {
      if HasRecord(table, rid) {
        var id :| Committed1(table, id, rid);
        assert Committed1(after, id, rid);
      }
    }
    assert forall id :: Committed1(after, id, rid) ==> after[id] == table[id];
  }

  /** Writing another request's answer, or this one's own. */
  lemma AnswerWritten(table: Table, answers: Answers, r: Rid, reply: StoredResult, rid: Rid, m: ServerMessage)
    requires Determined(table, answers, rid, m)
    requires r == rid ==> Wire(rid, reply) == m
    ensures Determined(table, answers[r := Terminal(reply)], rid, m)
  {
    hide Reconstruct, Wire, HasRecord;
  }

  lemma TellAnswered(s: State, rid: Rid, m: ServerMessage)
    requires Inv(s) && Answered(s, rid, m) && CanTell(s)
    ensures Next(s, DoTell(s), rid, m)
  {
    hide Inv, Fold, RequestFold, Wire, LineOf, Determined, Terminal;
    TellsSame(s, rid, m);
    EntryOfLineOf(s.mode.rid, Terminal(s.mode.reply));
    RequestFoldAppend(s.disk.reqs, LineOf(s.mode.rid, Terminal(s.mode.reply)));
    AnswerWritten(Fold(s.disk.ops), RequestFold(s.disk.reqs), s.mode.rid, s.mode.reply, rid, m);
  }

  lemma TellsSame(s: State, rid: Rid, m: ServerMessage)
    requires Inv(s) && CanTell(s) && Determined(Fold(s.disk.ops), RequestFold(s.disk.reqs), rid, m)
    ensures s.mode.rid == rid ==> Wire(rid, s.mode.reply) == m
  {
    hide Fold, RequestFold, MaxId, Reconstruct, Wire, IdsOk, CounterOk, ReservedOk, BlobsOk, EffectsOk, RidsOk,
      MarkerOk, LockOk, MemOk, CallersOk, CoveredOk, InstallsOk, RepliesOk, ExecOk, HistoryOk;
    if s.mode.rid == rid && HasRecord(Fold(s.disk.ops), rid) {
      var id :| Committed1(Fold(s.disk.ops), id, rid);
      assert Live1(Fold(s.disk.ops), id, rid);
    }
  }

  lemma UnstickAnswered(s: State, r: Rid, rid: Rid, m: ServerMessage)
    requires Inv(s) && Answered(s, rid, m) && CanUnstick(s, r)
    ensures Next(s, DoUnstick(s, r), rid, m)
  {
    hide Inv, Fold, RequestFold, Wire, LineOf, Determined, StuckVerdict, Terminal;
    var v := StuckVerdict(s.mem.records, r, s.mem.requests[r]);
    VerdictSame(s, r, rid, m);
    if v.Some? {
      EntryOfLineOf(r, Terminal(v.value));
      RequestFoldAppend(s.disk.reqs, LineOf(r, Terminal(v.value)));
      AnswerWritten(Fold(s.disk.ops), RequestFold(s.disk.reqs), r, v.value, rid, m);
    }
  }

  lemma VerdictSame(s: State, r: Rid, rid: Rid, m: ServerMessage)
    requires Inv(s) && CanUnstick(s, r) && Determined(Fold(s.disk.ops), RequestFold(s.disk.reqs), rid, m)
    ensures var v := StuckVerdict(s.mem.records, r, s.mem.requests[r]); v.Some? && r == rid ==> Wire(rid, v.value) == m
  {
    hide Inv, Fold, RequestFold, FindByRequest, Reconstruct;
    if r == rid {
      VerdictFacts(s, r);
      VerdictRecord(s, r);
      if HasRecord(Fold(s.disk.ops), rid) {
        var id :| Committed1(Fold(s.disk.ops), id, rid);
        assert Live1(Fold(s.disk.ops), id, rid);
      } else {
        NoRecordVerdict(s, rid);
      }
    }
  }

  lemma NoRecordVerdict(s: State, rid: Rid)
    requires Inv(s) && CanUnstick(s, rid) && forall id :: !Live1(Fold(s.disk.ops), id, rid)
    ensures FindByRequest(s.mem.records, rid) == None
  {
    hide Inv, Fold, RequestFold, FindByRequest;
    FindByRequestFacts(s.mem.records, rid);
    RecordsInTable(s);
    var f := FindByRequest(s.mem.records, rid);
    assert f.Some? ==> Live1(Fold(s.disk.ops), f.value.id, rid);
  }

  lemma OpenAnswered(s: State, rid: Rid, m: ServerMessage)
    requires Inv(s) && Answered(s, rid, m) && CanOpen(s)
    ensures Next(s, DoOpen(s), rid, m)
  {
    hide Inv, Fold, RequestFold, Determined, Wire;
    Unstuck(s, rid, m);
  }

  /** With no stuck request left, the table holds the answer. */
  lemma Unstuck(s: State, rid: Rid, m: ServerMessage)
    requires Inv(s) && CanOpen(s) && Determined(Fold(s.disk.ops), RequestFold(s.disk.reqs), rid, m)
    ensures rid in s.mem.requests && s.mem.requests[rid].result.Some?
    ensures Wire(rid, s.mem.requests[rid].result.value) == m
  {
    hide Fold, RequestFold, MaxId, Reconstruct, Wire, IdsOk, CounterOk, ReservedOk, BlobsOk, EffectsOk, RidsOk, LockOk,
      CallersOk, InstallsOk, RepliesOk, ExecOk, HistoryOk, OwnersOk, MarkerOk;
    var table := Fold(s.disk.ops);
    assert rid in s.mem.requests ==> !IsPending(s.mem.requests[rid]) by {
      assert rid !in StuckRids(s.mem.requests);
    }
    if HasRecord(table, rid) {
      var id :| Committed1(table, id, rid);
      assert id in Live(table) && Live(table)[id] == table[id];
      RecordsCovered(s);
      assert id in Live(Fold(s.mem.records));
    }
  }

  /**
   An answer once given is given again: over any run in which every crash finds the answer safe on disk and every prune
   retains its entry, nothing else is ever sent for the request, and while the server is up the table holds the answer.
   */
  lemma {:induction false} AnswerGivenAgain(s: State, run: seq<Event>, rid: Rid, m: ServerMessage)
    requires Inv(s) && Answered(s, rid, m) && ValidRun(s, run) && Undisturbed(s, run, rid, m)
    ensures Next(s, After(s, run), rid, m)
    decreases |run|
  {
    hide Inv, Answered, Enabled, Apply, Spares, Next;
    if run == [] {
      NothingSent(s, rid, m);
    } else {
      var t := Apply(s, run[0]);
      StepKeeps(s, run[0]);
      AnsweredStep(s, run[0], rid, m);
      IsAnswered(s, t, rid, m);
      AnswerGivenAgain(t, run[1..], rid, m);
      SentTwice(s, t, After(s, run), rid, m);
    }
  }

  lemma NothingSent(s: State, rid: Rid, m: ServerMessage)
    requires Answered(s, rid, m)
    ensures Next(s, s, rid, m)
  {
    hide Answered;
  }

  lemma IsAnswered(s: State, t: State, rid: Rid, m: ServerMessage)
    requires Next(s, t, rid, m)
    ensures Answered(t, rid, m)
  {
    hide Answered;
  }

  lemma SentTwice(s: State, t: State, u: State, rid: Rid, m: ServerMessage)
    requires Next(s, t, rid, m) && Next(t, u, rid, m)
    ensures Next(s, u, rid, m)
  {
    hide Answered;
  }

  // ---- every message sent for a request ----

  /** Whatever was sent for this request so far is its answer, or the refusal of a duplicate. */
  ghost predicate Told(s: State, rid: Rid) {
    forall x :: (rid, x) in s.h.replies ==> x == Refusal(rid) || Answered(s, rid, x)
  }

  /** If the request has been answered, this step leaves the answer alone. */
  ghost predicate SparesAny(s: State, e: Event, rid: Rid) {
    forall m :: Answered(s, rid, m) ==> Spares(s, e, rid, m)
  }

  ghost predicate AllSpared(s: State, run: seq<Event>, rid: Rid)
    requires ValidRun(s, run)
    decreases |run|
  {
    run == [] || (SparesAny(s, run[0], rid) && AllSpared(Apply(s, run[0]), run[1..], rid))
  }

  lemma OneAnswer(s: State, rid: Rid, m1: ServerMessage, m2: ServerMessage)
    requires Answered(s, rid, m1) && Answered(s, rid, m2)
    ensures m1 == m2
  {
    hide Fold, RequestFold, Reconstruct, Wire;
  }

  ghost predicate TellsNew(s: State, t: State, rid: Rid) {
    forall x :: (rid, x) in t.h.replies ==> (rid, x) in s.h.replies || x == Refusal(rid) || Answered(t, rid, x)
  }

  lemma NewMessages(s: State, e: Event, rid: Rid)
    requires Enabled(s, e)
    ensures TellsNew(s, Apply(s, e), rid)
  {
    hide *;
    EventKinds(e);
    if WorkEvent(e) {
      WorkTells(s, e, rid);
    } else if RecoveryEvent(e) {
      RecoveryTells(s, e, rid);
    } else if PruneEvent(e) || e.PruneBegin? {
      PruneTells(s, e, rid);
    } else {
      ClaimTells(s, e, rid);
    }
  }

  ghost predicate Silent(s: State, t: State) { t.h.replies == s.h.replies }

  lemma SilentTells(s: State, t: State, rid: Rid)
    requires Silent(s, t)
    ensures TellsNew(s, t, rid)
  {
    hide Answered;
  }

  lemma WorkTells(s: State, e: Event, rid: Rid)
    requires Enabled(s, e) && WorkEvent(e)
    ensures TellsNew(s, Apply(s, e), rid)
  {
    hide Enabled, Apply;
    WorkCases(s, e);
    hide TellsNew, Decide, MaxId, Upsert, ExecReply, ExecDataOf, MarkerOf, CommitOf, ReplyTo, Store;
    SilentTells(s, Apply(s, e), rid);
  }

  lemma RecoveryTells(s: State, e: Event, rid: Rid)
    requires Enabled(s, e) && RecoveryEvent(e)
    ensures TellsNew(s, Apply(s, e), rid)
  {
    hide *;
    RecoveryCases(s, e);
    if e.Crash? {
      ModesSilent(s, []);
    } else if e.Load? {
      ModesSilent(s, e.order);
    } else if e.ResolveMarker? {
      ResolveSilent(s, e.ts);
    } else if e.Tell? {
      TellSilent(s);
    } else if e.MarkersDone? {
      ModesSilent(s, []);
    } else if e.Unstick? {
      UnstickSilent(s, e.rid);
    } else if e.Open? {
      ModesSilent(s, []);
    }
    SilentTells(s, Apply(s, e), rid);
  }

  lemma ResolveSilent(s: State, ts: nat)
    requires CanResolveMarker(s, ts)
    ensures Silent(s, DoResolveMarker(s, ts))
  {
    hide Classify, Reconstruct, Upsert, WithoutMarker;
  }

  lemma UnstickSilent(s: State, rid: Rid)
    requires CanUnstick(s, rid)
    ensures Silent(s, DoUnstick(s, rid))
  {
    hide StuckVerdict, LineOf;
  }

  lemma TellSilent(s: State)
    requires CanTell(s)
    ensures Silent(s, DoTell(s))
  {
    hide LineOf;
  }

  lemma ModesSilent(s: State, order: seq<Record>)
    ensures Silent(s, DoCrash(s)) && Silent(s, DoLoad(s, order)) && Silent(s, DoMarkersDone(s)) && Silent(s, DoOpen(s))
  {
    hide StuckRids, Markers, RequestFold, MaxId;
  }

  lemma PruneTells(s: State, e: Event, rid: Rid)
    requires Enabled(s, e) && (PruneEvent(e) || e.PruneBegin?)
    ensures TellsNew(s, Apply(s, e), rid)
  {
    hide Enabled, Apply;
    PruneCases(s, e);
    hide TellsNew, Rewrites, Retained, FileRids, Fold;
    SilentTells(s, Apply(s, e), rid);
  }

  lemma ClaimTells(s: State, e: Event, rid: Rid)
    requires Enabled(s, e) && ClaimEvent(e)
    ensures TellsNew(s, Apply(s, e), rid)
  {
    hide Enabled, Apply, TellsNew, Answered, Wire, LineOf, Store, Lookup;
    hide DoReplay, DoRemember, DoRefuse, CanReplay, CanRemember, CanRefuse;
    ClaimCases(s, e);
    if e.Replay? {
      ReplayTells(s, e.rid, rid);
    } else if e.Refuse? {
      RefuseTells(s, e.rid, rid);
    } else if e.Remember? {
      RememberTells(s, e.rid, rid);
    } else {
      SilentTells(s, Apply(s, e), rid);
    }
  }

  lemma ReplayTells(s: State, r: Rid, rid: Rid)
    requires CanReplay(s, r)
    ensures TellsNew(s, DoReplay(s, r), rid)
  {
    hide Determined, Wire;
  }

  lemma RefuseTells(s: State, r: Rid, rid: Rid)
    ensures TellsNew(s, DoRefuse(s, r), rid)
  {
    hide Answered;
  }

  lemma RememberTells(s: State, r: Rid, rid: Rid)
    requires CanRemember(s, r)
    ensures TellsNew(s, DoRemember(s, r), rid)
  {
    hide Determined, Wire, LineOf;
  }

  lemma ToldStep(s: State, e: Event, rid: Rid)
    requires Inv(s) && Told(s, rid) && Enabled(s, e) && SparesAny(s, e, rid)
    ensures Told(Apply(s, e), rid)
  {
    hide Inv, Answered, Enabled, Apply, Spares;
    var t := Apply(s, e);
    NewMessages(s, e, rid);
    forall x | (rid, x) in t.h.replies ensures x == Refusal(rid) || Answered(t, rid, x) {
      if (rid, x) in s.h.replies && Answered(s, rid, x) {
        AnsweredStep(s, e, rid, x);
      }
    }
  }

  lemma {:induction false} ToldRun(s: State, run: seq<Event>, rid: Rid)
    requires Inv(s) && Told(s, rid) && ValidRun(s, run) && AllSpared(s, run, rid)
    ensures Told(After(s, run), rid)
    decreases |run|
  {
    hide Inv, Told, Enabled, Apply, SparesAny;
    if run != [] {
      StepKeeps(s, run[0]);
      ToldStep(s, run[0], rid);
      ToldRun(Apply(s, run[0]), run[1..], rid);
    }
  }

  /**
   Over any run from an unused directory in which every crash finds the request's answer safe on disk and every prune
   retains its entry, each message sent for the request is the refusal of a duplicate or the request's one answer.
   */
  lemma RepliesAgree(s: State, run: seq<Event>, rid: Rid, m1: ServerMessage, m2: ServerMessage)
    requires Initial(s) && ValidRun(s, run) && AllSpared(s, run, rid)
    requires (rid, m1) in After(s, run).h.replies && (rid, m2) in After(s, run).h.replies
    ensures m1 == Refusal(rid) || Answered(After(s, run), rid, m1)
    ensures m1 != Refusal(rid) && m2 != Refusal(rid) ==> m1 == m2
  {
    hide Inv, ValidRun, After, AllSpared, Answered;
    InitialInv(s);
    ToldRun(s, run, rid);
    if m1 != Refusal(rid) && m2 != Refusal(rid) {
      OneAnswer(After(s, run), rid, m1, m2);
    }
  }
}
