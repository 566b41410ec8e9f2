/** What prune keeps and what it gives up (store.rs: prune; server.rs: startup prune). */
module Pruning {
  import opened Protocol
  import opened Tables
  import opened Machine
  import opened Cases
  import opened Invariant
  import opened Runs
  import opened Steps
  import Loading

  /** Somewhere inside, or just after, a prune that started in s. */
  ghost predicate InPrune(t: State, s: State, kept: seq<Record>) {
    && t.mem.records == kept && t.disk.files == s.disk.files && t.ws == s.ws
    && (t.disk.ops == s.disk.ops || t.disk.ops == kept)
    && (t.mode.Pruning? && t.mode.phase >= 2 ==> t.disk.ops == kept)
    && (t.mode.Serving? ==> t.disk.ops == kept)
    && Up(t.mode)
  }

  lemma StepInPrune(t: State, e: Event, s: State, kept: seq<Record>)
    requires InPrune(t, s, kept) && Enabled(t, e) && PruneEvent(e)
    ensures InPrune(Apply(t, e), s, kept)
  {
    hide Enabled, Apply;
    PruneCases(t, e);
    hide Rewrites, FileRids, Fold;
  }

  lemma {:induction false} RunInPrune(t: State, run: seq<Event>, s: State, kept: seq<Record>)
    requires Inv(t) && InPrune(t, s, kept) && ValidRun(t, run) && forall e :: e in run ==> PruneEvent(e)
    ensures Inv(After(t, run)) && InPrune(After(t, run), s, kept)
    decreases |run|
  {
    hide Inv, InPrune, Enabled, Apply, PruneEvent;
    if run != [] {
      StepKeeps(t, run[0]);
      StepInPrune(t, run[0], s, kept);
      RunInPrune(Apply(t, run[0]), run[1..], s, kept);
    }
  }

  /** What a restart finds on this disk is usable: every blob a record needs, an entry for every record's request. */
  ghost predicate SoundDisk(d: Disk) {
    var table := Fold(d.ops);
    && (forall id :: id in table ==> BlobFor(d.blobs, table[id]))
    && (forall id :: id in table && !table[id].Aborted? ==> table[id].rid in RequestFold(d.reqs))
    && (forall i, j :: i in table && j in table && i != j && !table[i].Aborted? && !table[j].Aborted? ==>
          table[i].rid != table[j].rid)
  }

  /**
   Prune is crash-safe: after any prefix of its durable steps the operation log is the old one or exactly the last
   `keep` records, and a restart from that disk finds every blob and every request entry its records need.
   */
  lemma PruneCrashSafe(s: State, keep: nat, run: seq<Event>)
    requires Reachable(s) && CanPruneBegin(s, keep)
    requires ValidRun(DoPruneBegin(s, keep), run) && forall e :: e in run ==> PruneEvent(e)
    ensures var t := After(DoPruneBegin(s, keep), run); var kept := Newest(s.mem.records, keep);
      && (t.disk.ops == s.disk.ops || t.disk.ops == kept)
      && (t.mode.Serving? ==> t.disk.ops == kept == t.mem.records)
      && t.disk.files == s.disk.files && SoundDisk(t.disk)
  {
    hide Inv, ValidRun, After, SoundDisk, PruneEvent;
    var a := DoPruneBegin(s, keep);
    var kept := Newest(s.mem.records, keep);
    ReachableInv(s);
    StepKeeps(s, PruneBegin(keep));
    RunInPrune(a, run, s, kept);
    InvSound(After(a, run));
  }

  lemma InvSound(s: State)
    requires Inv(s)
    ensures SoundDisk(s.disk)
  {
    hide Fold, RequestFold, MaxId, IdsOk, CounterOk, ReservedOk, EffectsOk, MarkerOk, LockOk, ModeOk, MemOk, RequestsOk,
      CallersOk, CoveredOk, OwnersOk, InstallsOk, RepliesOk, ExecOk, HistoryOk;
  }

  // ---- what is left when a prune is over ----

  /** No step of a prune but its first touches the tables in memory. */
  ghost predicate SameTables(s: State, t: State) {
    && t.mem == s.mem && t.owners == s.owners && t.callers == s.callers && t.lock == s.lock
    && t.h.requestOf == s.h.requestOf && t.h.spawned == s.h.spawned && t.h.forgotten == s.h.forgotten
  }

  lemma StepSameTables(s: State, e: Event)
    requires Enabled(s, e) && PruneEvent(e)
    ensures SameTables(s, Apply(s, e))
  {
    hide Enabled, Apply;
    PruneCases(s, e);
    hide Rewrites, FileRids, Fold;
  }

  lemma {:induction false} RunSameTables(s: State, run: seq<Event>)
    requires ValidRun(s, run) && forall e :: e in run ==> PruneEvent(e)
    ensures SameTables(s, After(s, run))
    decreases |run|
  {
    hide Enabled, Apply, PruneEvent;
    if run != [] {
      assert run[0] in run;
      StepSameTables(s, run[0]);
      RunSameTables(Apply(s, run[0]), run[1..]);
    }
  }

  /** A prune that ran to its end. */
  ghost predicate Prunes(s: State, run: seq<Event>, t: State) {
    Leads(s, run, t) && t.mode.Serving? && forall e :: e in run ==> PruneEvent(e)
  }

  lemma PruneStepFirst(s: State, e: Event, t: State, run: seq<Event>, u: State)
    requires Does(s, e, t) && PruneEvent(e) && Prunes(t, run, u)
    ensures Prunes(s, [e] + run, u)
  {
    hide Enabled, Apply, PruneEvent;
    LeadsNowhere(s);
    LeadsOn(s, [], s, e, t);
    assert [] + [e] == [e];
    LeadsFurther(s, [e], t, run, u);
  }

  lemma {:induction false} FinishBlobs(s: State) returns (run: seq<Event>, t: State)
    requires s.mode.Pruning? && s.mode.phase == 3
    ensures Prunes(s, run, t)
    decreases if s.mode.Pruning? then |s.mode.dropped| else 0
  {
    hide Does, Step, Leads;
    if s.mode.dropped == [] {
      PruneEndStep(s);
      t := DoPruneEnd(s);
      LeadsNowhere(t);
      PruneStepFirst(s, PruneEnd, t, [], t);
      run := [PruneEnd] + [];
    } else {
      PruneBlobStep(s);
      run, t := FinishBlobs(DoPruneBlob(s));
      PruneStepFirst(s, PruneBlob, DoPruneBlob(s), run, t);
      run := [PruneBlob] + run;
    }
  }

  lemma {:induction false} SomeLines(requests: map<Rid, RequestEntry>, rids: set<Rid>) returns (lines: seq<RequestLine>)
    requires rids <= requests.Keys
    ensures RequestFold(lines) == (map rid | rid in rids :: requests[rid]) && |lines| == |rids|
    ensures forall l :: l in lines ==> l.rid in requests && l == LineOf(l.rid, requests[l.rid])
    decreases |rids|
  {
    hide LineOf, EntryOf, RequestFold;
    lines := [];
    if rids == {} {
      Loading.FoldNothing();
    } else {
      var rid :| rid in rids;
      lines := SomeLines(requests, rids - {rid});
      RequestFoldAppend(lines, LineOf(rid, requests[rid]));
      EntryOfLineOf(rid, requests[rid]);
      lines := lines + [LineOf(rid, requests[rid])];
    }
  }

  /** Every prune that begins can run to its end. */
  lemma PruneCompletes(s: State, keep: nat) returns (run: seq<Event>, t: State)
    requires CanPruneBegin(s, keep)
    ensures Prunes(DoPruneBegin(s, keep), run, t)
  {
    hide Does, Step, Prunes, Retained, RequestFold, LineOf, FileRids;
    var a := DoPruneBegin(s, keep);
    PruneCounterStep(a);
    var b := DoPruneCounter(a);
    PruneOpsStep(b);
    var c := DoPruneOps(b);
    var lines := SomeLines(c.mem.requests, c.mem.requests.Keys);
    PruneReqsStep(c, lines);
    var d := DoPruneReqs(c, lines);
    run, t := FinishBlobs(d);
    PruneStepFirst(c, PruneReqs(lines), d, run, t);
    PruneStepFirst(b, PruneOps, c, [PruneReqs(lines)] + run, t);
    PruneStepFirst(a, PruneCounter, b, [PruneOps] + ([PruneReqs(lines)] + run), t);
    run := [PruneCounter] + ([PruneOps] + ([PruneReqs(lines)] + run));
  }

  // ---- records that leave the log ----

  lemma {:induction false} NoPruneDropsNothing(s: State, run: seq<Event>)
    requires !s.mode.Pruning? && ValidRun(s, run) && forall e :: e in run ==> !e.PruneBegin?
    ensures After(s, run).h.forgotten == s.h.forgotten && After(s, run).h.pruned == s.h.pruned
    decreases |run|
  {
    hide Enabled, Apply, Later;
    if run != [] {
      assert run[0] in run;
      HistoryGrows(s, run[0]);
      NoPruneDropsNothing(Apply(s, run[0]), run[1..]);
    }
  }

  /** In a run that never prunes, no request's command is started twice, however often the server dies. */
  lemma ExecOnceWithoutPrune(s: State, run: seq<Event>, rid: Rid)
    requires Initial(s) && ValidRun(s, run) && forall e :: e in run ==> !e.PruneBegin?
    ensures After(s, run).h.spawned[rid] <= 1
  {
    hide ValidRun, After, Enabled, Apply;
    NoPruneDropsNothing(s, run);
    assert Reachable(After(s, run));
    ExecAtMostOnce(After(s, run), rid);
  }
}
