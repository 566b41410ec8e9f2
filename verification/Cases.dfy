/** The machine's events by kind: which they are, when each can happen, and what it does. */
module Cases {
  import opened Machine

  predicate WorkEvent(e: Event) {
    e.Begin? || e.SaveBlob? || e.LogMarker? || e.Install? || e.Commit? || e.StartExec? || e.Spawn? || e.EndExec?
    || e.LogTransfer?
  }

  predicate ClaimEvent(e: Event) {
    e.Arrive? || e.Replay? || e.Refuse? || e.AppendClaim? || e.Settle? || e.Answer? || e.Remember? || e.Touch?
  }

  lemma EventKinds(e: Event)
    ensures WorkEvent(e) || ClaimEvent(e) || RecoveryEvent(e) || PruneEvent(e) || e.PruneBegin?
  {
  }

  lemma RecoveryCases(s: State, e: Event)
    requires Enabled(s, e) && RecoveryEvent(e)
    ensures e.Crash? || e.Load? || e.ResolveMarker? || e.Tell? || e.MarkersDone? || e.Unstick? || e.Open?
    ensures e.Crash? ==> CanCrash(s) && Apply(s, e) == DoCrash(s)
    ensures e.Load? ==> CanLoad(s, e.order) && Apply(s, e) == DoLoad(s, e.order)
    ensures e.ResolveMarker? ==> CanResolveMarker(s, e.ts) && Apply(s, e) == DoResolveMarker(s, e.ts)
    ensures e.Tell? ==> CanTell(s) && Apply(s, e) == DoTell(s)
    ensures e.MarkersDone? ==> CanMarkersDone(s) && Apply(s, e) == DoMarkersDone(s)
    ensures e.Unstick? ==> CanUnstick(s, e.rid) && Apply(s, e) == DoUnstick(s, e.rid)
    ensures e.Open? ==> CanOpen(s) && Apply(s, e) == DoOpen(s)
  {
    hide CanCrash, CanLoad, CanMarkersDone, CanOpen, DoCrash, DoLoad, DoResolveMarker, DoTell, DoMarkersDone, DoUnstick;
    hide DoOpen;
  }

  lemma PruneCases(s: State, e: Event)
    requires Enabled(s, e) && (PruneEvent(e) || e.PruneBegin?)
    ensures e.PruneBegin? || e.PruneCounter? || e.PruneOps? || e.PruneReqs? || e.PruneBlob? || e.PruneEnd?
    ensures e.PruneBegin? ==> CanPruneBegin(s, e.keep) && Apply(s, e) == DoPruneBegin(s, e.keep)
    ensures e.PruneCounter? ==> CanPruneCounter(s) && Apply(s, e) == DoPruneCounter(s)
    ensures e.PruneOps? ==> CanPruneOps(s) && Apply(s, e) == DoPruneOps(s)
    ensures e.PruneReqs? ==> CanPruneReqs(s, e.lines) && Apply(s, e) == DoPruneReqs(s, e.lines)
    ensures e.PruneBlob? ==> CanPruneBlob(s) && Apply(s, e) == DoPruneBlob(s)
    ensures e.PruneEnd? ==> CanPruneEnd(s) && Apply(s, e) == DoPruneEnd(s)
  {
    hide CanPruneBegin, DoPruneBegin, CanPruneCounter, DoPruneCounter, CanPruneOps, DoPruneOps, CanPruneReqs;
    hide DoPruneReqs, CanPruneBlob, DoPruneBlob, CanPruneEnd, DoPruneEnd;
  }

  lemma WorkCases(s: State, e: Event)
    requires Enabled(s, e) && WorkEvent(e)
    ensures e.Begin? || e.SaveBlob? || e.LogMarker? || e.Install? || e.Commit? || e.StartExec? || e.Spawn? || e.EndExec?
      || e.LogTransfer?
    ensures e.Begin? ==> CanBegin(s, e.rid) && Apply(s, e) == DoBegin(s, e.rid)
    ensures e.SaveBlob? ==> CanSaveBlob(s) && Apply(s, e) == DoSaveBlob(s)
    ensures e.LogMarker? ==> CanLogMarker(s, e.ts) && Apply(s, e) == DoLogMarker(s, e.ts)
    ensures e.Install? ==> CanInstall(s) && Apply(s, e) == DoInstall(s)
    ensures e.Commit? ==> CanCommit(s, e.ts) && Apply(s, e) == DoCommit(s, e.ts)
    ensures e.StartExec? ==> CanStartExec(s, e.rid) && Apply(s, e) == DoStartExec(s, e.rid)
    ensures e.Spawn? ==> CanSpawn(s, e.rid) && Apply(s, e) == DoSpawn(s, e.rid)
    ensures e.EndExec? ==> CanEndExec(s, e.rid, e.outcome, e.timeoutMessage, e.ts)
    ensures e.EndExec? ==> Apply(s, e) == DoEndExec(s, e.rid, e.outcome, e.timeoutMessage, e.ts)
    ensures e.LogTransfer? ==>
        CanLogTransfer(s, e.rid, e.data, e.ts) && Apply(s, e) == DoLogTransfer(s, e.rid, e.data, e.ts)
  {
    hide DoBegin, DoSaveBlob, DoLogMarker, DoInstall, DoCommit, DoStartExec, DoSpawn, DoEndExec, DoLogTransfer;
    hide CanStartExec, CanLogTransfer;
  }

  lemma ClaimCases(s: State, e: Event)
    requires Enabled(s, e) && ClaimEvent(e)
    ensures e.Arrive? || e.Replay? || e.Refuse? || e.AppendClaim? || e.Settle? || e.Answer? || e.Remember? || e.Touch?
    ensures e.Arrive? ==> CanArrive(s, e.c, e.rid, e.request) && Apply(s, e) == DoArrive(s, e.c, e.rid, e.request)
    ensures e.Replay? ==> CanReplay(s, e.rid) && Apply(s, e) == DoReplay(s, e.rid)
    ensures e.Refuse? ==> CanRefuse(s, e.rid) && Apply(s, e) == DoRefuse(s, e.rid)
    ensures e.AppendClaim? ==> CanAppendClaim(s, e.c) && Apply(s, e) == DoAppendClaim(s, e.c)
    ensures e.Settle? ==> CanSettle(s, e.c) && Apply(s, e) == DoSettle(s, e.c)
    ensures e.Answer? ==> CanAnswer(s, e.rid, e.reply) && Apply(s, e) == DoAnswer(s, e.rid, e.reply)
    ensures e.Remember? ==> CanRemember(s, e.rid) && Apply(s, e) == DoRemember(s, e.rid)
    ensures e.Touch? ==> CanTouch(s, e.key, e.content) && Apply(s, e) == DoTouch(s, e.key, e.content)
  {
    hide CanArrive, DoArrive, CanReplay, DoReplay, CanRefuse, DoRefuse, DoAppendClaim, DoSettle, CanAnswer, DoAnswer;
    hide DoRemember, CanTouch, DoTouch;
  }
}
