/** What each event does, one at a time: the interface the theorems about runs and the imperative store use. */
module Steps {
  import opened Prelude
  import opened Protocol
  import opened Replies
  import opened Plans
  import opened Machine
  import opened Runs

  ghost predicate Does(s: State, e: Event, t: State) {
    Enabled(s, e) && t == Apply(s, e)
  }

  ghost predicate Step(s: State, t: State) {
    exists e: Event :: Does(s, e, t)
  }

  /** This run is possible in s and ends in t. */
  ghost predicate Leads(s: State, run: seq<Event>, t: State) {
    ValidRun(s, run) && After(s, run) == t
  }

  lemma LeadsNowhere(s: State)
    ensures Leads(s, [], s)
  {
  }

  lemma LeadsOn(s: State, run: seq<Event>, t: State, e: Event, u: State)
    requires Leads(s, run, t) && Does(t, e, u)
    ensures Leads(s, run + [e], u)
  {
    hide Enabled, Apply, ValidRun, After;
    RunExtends(s, run, e);
  }

  lemma {:induction false} LeadsFurther(s: State, run: seq<Event>, t: State, more: seq<Event>, u: State)
    requires Leads(s, run, t) && Leads(t, more, u)
    ensures Leads(s, run + more, u)
    decreases |run|
  {
    hide Enabled, Apply;
    if run == [] {
      assert run + more == more;
    } else {
      assert (run + more)[1..] == run[1..] + more;
      LeadsFurther(Apply(s, run[0]), run[1..], t, more, u);
    }
  }

  lemma ReachableLead(s: State, run: seq<Event>, t: State)
    requires Reachable(s) && Leads(s, run, t)
    ensures Reachable(t)
  {
    hide Initial, ValidRun, After;
    var s0: State, past: seq<Event> :| Initial(s0) && ValidRun(s0, past) && After(s0, past) == s;
    LeadsFurther(s0, past, s, run, t);
  }

  lemma ReachableByStep(s: State, t: State)
    requires Reachable(s) && Step(s, t)
    ensures Reachable(t)
  {
    hide Reachable, Enabled, Apply;
    var e: Event :| Does(s, e, t);
    ReachableStep(s, e);
  }

  lemma StepBy(s: State, e: Event)
    requires Enabled(s, e)
    ensures Step(s, Apply(s, e))
  {
    hide Enabled, Apply;
    assert Does(s, e, Apply(s, e));
  }

  lemma ArriveStep(s: State, c: nat, rid: Rid, request: Request)
    requires CanArrive(s, c, rid, request)
    ensures Does(s, Arrive(c, rid, request), DoArrive(s, c, rid, request)) && Step(s, DoArrive(s, c, rid, request))
  {
    hide Step, CanArrive, DoArrive;
    StepBy(s, Arrive(c, rid, request));
  }

  lemma AppendClaimStep(s: State, c: nat)
    requires CanAppendClaim(s, c)
    ensures Does(s, AppendClaim(c), DoAppendClaim(s, c)) && Step(s, DoAppendClaim(s, c))
  {
    hide Step, DoAppendClaim;
    StepBy(s, AppendClaim(c));
  }

  lemma SettleStep(s: State, c: nat)
    requires CanSettle(s, c)
    ensures Does(s, Settle(c), DoSettle(s, c)) && Step(s, DoSettle(s, c))
  {
    hide Step, DoSettle;
    StepBy(s, Settle(c));
  }

  lemma ReplayStep(s: State, rid: Rid)
    requires CanReplay(s, rid)
    ensures Does(s, Replay(rid), DoReplay(s, rid)) && Step(s, DoReplay(s, rid))
  {
    hide Step, CanReplay, DoReplay;
    StepBy(s, Replay(rid));
  }

  lemma RefuseStep(s: State, rid: Rid)
    requires CanRefuse(s, rid)
    ensures Does(s, Refuse(rid), DoRefuse(s, rid)) && Step(s, DoRefuse(s, rid))
  {
    hide Step, CanRefuse, DoRefuse;
    StepBy(s, Refuse(rid));
  }

  lemma AnswerStep(s: State, rid: Rid, reply: StoredResult)
    requires CanAnswer(s, rid, reply)
    ensures Does(s, Answer(rid, reply), DoAnswer(s, rid, reply)) && Step(s, DoAnswer(s, rid, reply))
  {
    hide Step, CanAnswer, DoAnswer;
    StepBy(s, Answer(rid, reply));
  }

  lemma RememberStep(s: State, rid: Rid)
    requires CanRemember(s, rid)
    ensures Does(s, Remember(rid), DoRemember(s, rid)) && Step(s, DoRemember(s, rid))
  {
    hide Step, DoRemember;
    StepBy(s, Remember(rid));
  }

  lemma BeginStep(s: State, rid: Rid)
    requires CanBegin(s, rid)
    ensures Does(s, Begin(rid), DoBegin(s, rid)) && Step(s, DoBegin(s, rid))
  {
    hide Step, DoBegin;
    StepBy(s, Begin(rid));
  }

  lemma SaveBlobStep(s: State)
    requires CanSaveBlob(s)
    ensures Does(s, SaveBlob, DoSaveBlob(s)) && Step(s, DoSaveBlob(s))
  {
    hide Step, DoSaveBlob;
    StepBy(s, SaveBlob);
  }

  lemma LogMarkerStep(s: State, ts: nat)
    requires CanLogMarker(s, ts)
    ensures Does(s, LogMarker(ts), DoLogMarker(s, ts)) && Step(s, DoLogMarker(s, ts))
  {
    hide Step, DoLogMarker;
    StepBy(s, LogMarker(ts));
  }

  lemma InstallStep(s: State)
    requires CanInstall(s)
    ensures Does(s, Install, DoInstall(s)) && Step(s, DoInstall(s))
  {
    hide Step, DoInstall;
    StepBy(s, Install);
  }

  lemma CommitStep(s: State, ts: nat)
    requires CanCommit(s, ts)
    ensures Does(s, Commit(ts), DoCommit(s, ts)) && Step(s, DoCommit(s, ts))
  {
    hide Step, DoCommit;
    StepBy(s, Commit(ts));
  }

  lemma StartExecStep(s: State, rid: Rid)
    requires CanStartExec(s, rid)
    ensures Does(s, StartExec(rid), DoStartExec(s, rid)) && Step(s, DoStartExec(s, rid))
  {
    hide Step, CanStartExec, DoStartExec;
    StepBy(s, StartExec(rid));
  }

  lemma SpawnStep(s: State, rid: Rid)
    requires CanSpawn(s, rid)
    ensures Does(s, Spawn(rid), DoSpawn(s, rid)) && Step(s, DoSpawn(s, rid))
  {
    hide Step, DoSpawn;
    StepBy(s, Spawn(rid));
  }

  lemma EndExecStep(s: State, rid: Rid, outcome: ExecOutcome, timeoutMessage: string, ts: nat)
    requires CanEndExec(s, rid, outcome, timeoutMessage, ts)
    ensures Does(s, EndExec(rid, outcome, timeoutMessage, ts), DoEndExec(s, rid, outcome, timeoutMessage, ts))
    ensures Step(s, DoEndExec(s, rid, outcome, timeoutMessage, ts))
  {
    hide Step, DoEndExec;
    StepBy(s, EndExec(rid, outcome, timeoutMessage, ts));
  }

  lemma LogTransferStep(s: State, rid: Rid, data: TransferData, ts: nat)
    requires CanLogTransfer(s, rid, data, ts)
    ensures Does(s, LogTransfer(rid, data, ts), DoLogTransfer(s, rid, data, ts))
    ensures Step(s, DoLogTransfer(s, rid, data, ts))
  {
    hide Step, CanLogTransfer, DoLogTransfer;
    StepBy(s, LogTransfer(rid, data, ts));
  }

  lemma PruneBeginStep(s: State, keep: nat)
    requires CanPruneBegin(s, keep)
    ensures Does(s, PruneBegin(keep), DoPruneBegin(s, keep)) && Step(s, DoPruneBegin(s, keep))
  {
    hide Step, CanPruneBegin, DoPruneBegin;
    StepBy(s, PruneBegin(keep));
  }

  lemma PruneCounterStep(s: State)
    requires CanPruneCounter(s)
    ensures Does(s, PruneCounter, DoPruneCounter(s)) && Step(s, DoPruneCounter(s))
  {
    hide Step, CanPruneCounter, DoPruneCounter;
    StepBy(s, PruneCounter);
  }

  lemma PruneOpsStep(s: State)
    requires CanPruneOps(s)
    ensures Does(s, PruneOps, DoPruneOps(s)) && Step(s, DoPruneOps(s))
  {
    hide Step, CanPruneOps, DoPruneOps;
    StepBy(s, PruneOps);
  }

  lemma PruneReqsStep(s: State, lines: seq<RequestLine>)
    requires CanPruneReqs(s, lines)
    ensures Does(s, PruneReqs(lines), DoPruneReqs(s, lines)) && Step(s, DoPruneReqs(s, lines))
  {
    hide Step, CanPruneReqs, DoPruneReqs;
    StepBy(s, PruneReqs(lines));
  }

  lemma PruneBlobStep(s: State)
    requires CanPruneBlob(s)
    ensures Does(s, PruneBlob, DoPruneBlob(s)) && Step(s, DoPruneBlob(s))
  {
    hide Step, CanPruneBlob, DoPruneBlob;
    StepBy(s, PruneBlob);
  }

  lemma PruneEndStep(s: State)
    requires CanPruneEnd(s)
    ensures Does(s, PruneEnd, DoPruneEnd(s)) && Step(s, DoPruneEnd(s))
  {
    hide Step, CanPruneEnd, DoPruneEnd;
    StepBy(s, PruneEnd);
  }

  lemma LoadStep(s: State, order: seq<Record>)
    requires CanLoad(s, order)
    ensures Does(s, Load(order), DoLoad(s, order)) && Step(s, DoLoad(s, order))
  {
    hide Step, CanLoad, DoLoad;
    StepBy(s, Load(order));
  }

  lemma ResolveMarkerStep(s: State, ts: nat)
    requires CanResolveMarker(s, ts)
    ensures Does(s, ResolveMarker(ts), DoResolveMarker(s, ts)) && Step(s, DoResolveMarker(s, ts))
  {
    hide Step, DoResolveMarker;
    StepBy(s, ResolveMarker(ts));
  }

  lemma TellStep(s: State)
    requires CanTell(s)
    ensures Does(s, Tell, DoTell(s)) && Step(s, DoTell(s))
  {
    hide Step, DoTell;
    StepBy(s, Tell);
  }

  lemma MarkersDoneStep(s: State)
    requires CanMarkersDone(s)
    ensures Does(s, MarkersDone, DoMarkersDone(s)) && Step(s, DoMarkersDone(s))
  {
    hide Step, CanMarkersDone, DoMarkersDone;
    StepBy(s, MarkersDone);
  }

  lemma UnstickStep(s: State, rid: Rid)
    requires CanUnstick(s, rid)
    ensures Does(s, Unstick(rid), DoUnstick(s, rid)) && Step(s, DoUnstick(s, rid))
  {
    hide Step, DoUnstick;
    StepBy(s, Unstick(rid));
  }

  lemma OpenStep(s: State)
    requires CanOpen(s)
    ensures Does(s, Open, DoOpen(s)) && Step(s, DoOpen(s))
  {
    hide Step, CanOpen, DoOpen;
    StepBy(s, Open);
  }

  lemma CrashStep(s: State)
    requires CanCrash(s)
    ensures Does(s, Crash, DoCrash(s)) && Step(s, DoCrash(s))
  {
    hide Step, CanCrash, DoCrash;
    StepBy(s, Crash);
  }

  lemma TouchStep(s: State, key: string, content: Option<Bytes>)
    requires CanTouch(s, key, content)
    ensures Does(s, Touch(key, content), DoTouch(s, key, content)) && Step(s, DoTouch(s, key, content))
  {
    hide Step, CanTouch, DoTouch;
    StepBy(s, Touch(key, content));
  }
}
