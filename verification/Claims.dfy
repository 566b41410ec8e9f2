/** Racing claims (store.rs: claim_request, check, durable line, second check). */
module Claims {
  import opened Protocol
  import opened Tables
  import opened Replies
  import opened Plans
  import opened Machine
  import opened Cases
  import opened Runs

  /**
   The server has not died, and a claimed id is still in the table or was pruned from it since the count stood at n.
   */
  ghost predicate Held(s: State, rid: Rid, n: nat) {
    Up(s.mode) && s.h.forgotten[rid] >= n && (rid in s.mem.requests || s.h.forgotten[rid] > n)
  }

  lemma StepHolds(s: State, e: Event, rid: Rid, n: nat)
    requires Enabled(s, e) && !e.Crash? && Held(s, rid, n)
    ensures Held(Apply(s, e), rid, n)
  {
    hide *;
    EventKinds(e);
    if WorkEvent(e) {
      WorkHolds(s, e, rid, n);
    } else if ClaimEvent(e) {
      ClaimHolds(s, e, rid, n);
    } else if RecoveryEvent(e) {
      NoRecovery(s, e, rid, n);
    } else {
      PruneHolds(s, e, rid, n);
    }
  }

  lemma WorkHolds(s: State, e: Event, rid: Rid, n: nat)
    requires Enabled(s, e) && WorkEvent(e) && Held(s, rid, n)
    ensures Held(Apply(s, e), rid, n)
  {
    hide Enabled, Apply;
    WorkCases(s, e);
    hide Decide, MaxId, Upsert, ExecReply, ExecDataOf, MarkerOf, CommitOf, ReplyTo, Store;
  }

  /** A server that is up recovers only by dying first. */
  lemma NoRecovery(s: State, e: Event, rid: Rid, n: nat)
    requires Enabled(s, e) && Held(s, rid, n)
    ensures RecoveryEvent(e) ==> e.Crash?
  {
    hide Enabled, Apply, RecoveryEvent, Enumerates;
    if RecoveryEvent(e) {
      RecoveryCases(s, e);
    }
  }

  lemma ClaimHolds(s: State, e: Event, rid: Rid, n: nat)
    requires Enabled(s, e) && ClaimEvent(e) && Held(s, rid, n)
    ensures Held(Apply(s, e), rid, n)
  {
    hide Enabled, Apply, Wire, LineOf, Store;
    ClaimCases(s, e);
  }

  lemma PruneHolds(s: State, e: Event, rid: Rid, n: nat)
    requires Enabled(s, e) && (PruneEvent(e) || e.PruneBegin?) && Held(s, rid, n)
    ensures Held(Apply(s, e), rid, n)
  {
    hide Enabled, Apply, Rewrites, FileRids, Fold, RequestIds;
    PruneCases(s, e);
  }

  lemma {:induction false} RunHolds(s: State, run: seq<Event>, rid: Rid, n: nat)
    requires ValidRun(s, run) && Held(s, rid, n) && forall e :: e in run ==> !e.Crash?
    ensures Held(After(s, run), rid, n)
    decreases |run|
  {
    hide Held, Enabled, Apply;
    if run != [] {
      assert run[0] in run;
      StepHolds(s, run[0], rid, n);
      RunHolds(Apply(s, run[0]), run[1..], rid, n);
    }
  }

  /** Settling this caller makes it the owner. */
  ghost predicate Wins(s: State, c: nat, rid: Rid) {
    CanSettle(s, c) && s.callers[c].rid == rid && DoSettle(s, c).mem.requests != s.mem.requests
  }

  /**
   Single winner: once a caller has won an id, no caller inside claim_request wins it again, however their checks and
   durable lines interleave with everything else, until the server dies or a prune of this run drops the id.
   */
  lemma SingleWinner(s: State, winner: nat, rid: Rid, run: seq<Event>, other: nat)
    requires Wins(s, winner, rid)
    requires ValidRun(DoSettle(s, winner), run) && forall e :: e in run ==> !e.Crash?
    requires After(DoSettle(s, winner), run).h.forgotten[rid] == s.h.forgotten[rid]
    ensures !Wins(After(DoSettle(s, winner), run), other, rid)
  {
    hide ValidRun, After;
    RunHolds(DoSettle(s, winner), run, rid, s.h.forgotten[rid]);
  }

  /**
   What becomes of a caller that does not win: as long as the id is being executed for somebody else it is refused and
   has to ask again; otherwise the stored answer is replayed. Losing changes no log, table or owner.
   */
  lemma LoserIsTold(s: State, c: nat, rid: Rid)
    requires Reachable(s) && CanSettle(s, c) && s.callers[c].rid == rid && !Wins(s, c, rid)
    ensures var t := DoSettle(s, c);
      && (CanRefuse(t, rid) <==> rid in t.owners) && (CanReplay(t, rid) <==> rid !in t.owners)
      && t.disk == s.disk && t.mem == s.mem && t.owners == s.owners && t.callers == s.callers - {c}
  {
    hide Reachable;
    NothingStuck(s);
  }
}
