/**
 What a losing duplicate can undo: its claim line, written after the winner's answer, is the last line of its request
 in the log (store.rs: claim_request appends outside the lock, new lets the last line win).
 */
module Duplicates {
  import opened Prelude
  import opened Protocol
  import opened Tables
  import opened Replies
  import opened Plans
  import opened Machine
  import opened Steps
  import opened Restart
  import opened Commands
  import opened Answers

  /**
   A late claim line for an answered request is harmless exactly when the operation log has the request's record, or
   the answer was itself "lost in a crash"; otherwise every restart loses the answer.
   */
  lemma LateClaim(s: State, c: nat, rid: Rid, m: ServerMessage, run: seq<Event>, t: State)
    requires Reachable(s) && Replays(s, rid, m) && CanAppendClaim(s, c) && s.callers[c].rid == rid
    requires Restarts(DoCrash(DoAppendClaim(s, c)), run, t)
    ensures Replays(t, rid, m) <==>
      HasRecord(Fold(s.disk.ops), rid) || (s.callers[c].request.ExecRequest? && m == ErrorMsg(rid, EXEC_LOST))
  {
    hide Reachable, Restarts, Fold, RequestFold, HasRecord, LineOf, Step, Wire;
    var k := s.callers[c];
    AppendClaimStep(s, c);
    ReachableByStep(s, DoAppendClaim(s, c));
    EntryOfLineOf(rid, Pending(k.request.Op()));
    RequestFoldAppend(s.disk.reqs, LineOf(rid, Pending(k.request.Op())));
    AnswerSurvives(DoAppendClaim(s, c), rid, m, run, t);
  }

  const READ: Request := OtherRequest(OpRead)

  function OneRead(rid: Rid, m: ServerMessage): seq<Event> {
    [AppendClaim(0), Settle(0), Answer(rid, StoredDone(m)), Remember(rid)]
  }

  /** Two copies of a read race; the first is served, the second's line lands after the answer, and the server dies. */
  function RaceRun(rid: Rid, first: ServerMessage): seq<Event> {
    [Load([]), MarkersDone] + [Open] + [Arrive(0, rid, READ), Arrive(1, rid, READ)] + OneRead(rid,
        first) + [AppendClaim(1), Settle(1)]
  }

  /** The restart, and the same id served once more. */
  function AgainRun(rid: Rid, second: ServerMessage): seq<Event> {
    [Crash] + [Load([]), MarkersDone] + [Unstick(rid), Open] + [Arrive(0, rid, READ)] + OneRead(rid, second)
  }

  /** A server nobody but this request's callers uses. */
  ghost predicate OnlyRead(s: State, rid: Rid) {
    s.mode.Serving? && s.disk.ops == [] && s.mem.records == [] && s.lock.Free? && s.owners == map[]
    && (rid in s.h.requestOf ==> s.h.requestOf[rid] == READ) && RequestFold(s.disk.reqs).Keys <= {rid}
  }

  lemma ServeRead(s: State, rid: Rid, m: ServerMessage) returns (t: State)
    requires OnlyRead(s, rid) && rid !in s.mem.requests && 0 in s.callers && s.callers[0] == Caller(rid, READ, false)
    ensures Leads(s, OneRead(rid, m), t) && OnlyRead(t, rid) && t.callers == s.callers - {0}
    ensures rid in t.mem.requests && t.h.replies == s.h.replies + {(rid, m)} && t.ws == s.ws
    ensures t.disk.files == s.disk.files
  {
    hide Does, Step, Leads, RequestFold, LineOf, MaxId, Fold;
    AppendClaimStep(s, 0);
    var a := DoAppendClaim(s, 0);
    RequestFoldAppend(s.disk.reqs, LineOf(rid, Pending(OpRead)));
    EntryOfLineOf(rid, Pending(OpRead));
    SettleStep(a, 0);
    var b := DoSettle(a, 0);
    Two(s, AppendClaim(0), a, Settle(0), b);
    t := ReadAnswered(b, rid, m);
    LeadsFurther(s, [AppendClaim(0), Settle(0)], b, [Answer(rid, StoredDone(m)), Remember(rid)], t);
    assert OneRead(rid, m) == [AppendClaim(0), Settle(0)] + [Answer(rid, StoredDone(m)), Remember(rid)];
  }

  lemma ReadAnswered(s: State, rid: Rid, m: ServerMessage) returns (t: State)
    requires HasClaimed(s, rid) && s.owners == map[rid := Claimed(READ)] && RequestFold(s.disk.reqs).Keys <= {rid}
    ensures Leads(s, [Answer(rid, StoredDone(m)), Remember(rid)], t)
    ensures t.owners == map[] && t.callers == s.callers && t.mode == s.mode && t.lock == s.lock && t.ws == s.ws
    ensures t.disk.ops == s.disk.ops && t.disk.files == s.disk.files && RequestFold(t.disk.reqs).Keys <= {rid}
    ensures t.mem.records == s.mem.records && rid in t.mem.requests
    ensures t.h == s.h.(replies := s.h.replies + {(rid, m)})
  {
    hide Does, Step, Leads, RequestFold, LineOf;
    AnswerStep(s, rid, StoredDone(m));
    var a := DoAnswer(s, rid, StoredDone(m));
    RememberStep(a, rid);
    t := DoRemember(a, rid);
    Two(s, Answer(rid, StoredDone(m)), a, Remember(rid), t);
    RequestFoldAppend(a.disk.reqs, LineOf(rid, Terminal(StoredDone(m))));
    EntryOfLineOf(rid, Terminal(StoredDone(m)));
  }

  lemma Race(s: State, rid: Rid, first: ServerMessage) returns (t: State)
    requires Initial(s)
    ensures Leads(s, RaceRun(rid, first), t) && OnlyRead(t, rid) && t.callers == map[]
    ensures RequestFold(t.disk.reqs) == map[rid := Pending(OpRead)]
    ensures (rid, first) in t.h.replies && t.ws == s.ws && t.disk.files == s.disk.files
  {
    hide Does, Step, Leads, LineOf, MaxId, StuckRids, OneRead;
    var a := LoadBare(s);
    OneStuck(rid);
    OpenStep(a);
    var b := DoOpen(a);
    ArriveStep(b, 0, rid, READ);
    var c := DoArrive(b, 0, rid, READ);
    ArriveStep(c, 1, rid, READ);
    var d := DoArrive(c, 1, rid, READ);
    Two(b, Arrive(0, rid, READ), c, Arrive(1, rid, READ), d);
    var e := ServeRead(d, rid, first);
    t := LoseLate(e, rid);
    LeadsOn(s, [Load([]), MarkersDone], a, Open, b);
    LeadsFurther(s, [Load([]), MarkersDone] + [Open], b, [Arrive(0, rid, READ), Arrive(1, rid, READ)], d);
    LeadsFurther(s, [Load([]), MarkersDone] + [Open] + [Arrive(0, rid, READ), Arrive(1, rid, READ)], d,
        OneRead(rid, first), e);
    var served := [Load([]), MarkersDone] + [Open] + [Arrive(0, rid, READ), Arrive(1, rid, READ)] + OneRead(rid, first);
    LeadsFurther(s, served, e, [AppendClaim(1), Settle(1)], t);
  }

  lemma LoseLate(s: State, rid: Rid) returns (t: State)
    requires OnlyRead(s, rid) && rid in s.mem.requests && s.callers == map[1 := Caller(rid, READ, false)]
    ensures Leads(s, [AppendClaim(1), Settle(1)], t) && OnlyRead(t, rid) && t.callers == map[]
    ensures RequestFold(t.disk.reqs) == map[rid := Pending(OpRead)]
    ensures t.h == s.h && t.ws == s.ws && t.disk.files == s.disk.files
  {
    hide Does, Step, Leads, RequestFold, LineOf, MaxId, Fold;
    AppendClaimStep(s, 1);
    var a := DoAppendClaim(s, 1);
    RequestFoldAppend(s.disk.reqs, LineOf(rid, Pending(OpRead)));
    EntryOfLineOf(rid, Pending(OpRead));
    SettleStep(a, 1);
    t := DoSettle(a, 1);
    Two(s, AppendClaim(1), a, Settle(1), t);
  }

  lemma Again(s: State, rid: Rid, second: ServerMessage) returns (t: State)
    requires OnlyRead(s, rid) && s.callers == map[] && RequestFold(s.disk.reqs) == map[rid := Pending(OpRead)]
    ensures Leads(s, AgainRun(rid, second), t)
    ensures t.h.replies == s.h.replies + {(rid, second)} && t.ws == s.ws && t.disk.files == s.disk.files
  {
    hide Does, Step, Leads, RequestFold, LineOf, MaxId, StuckRids, OneRead, Fold, StuckVerdict;
    CrashStep(s);
    var a := DoCrash(s);
    var b := LoadBare(a);
    StuckRead(rid);
    UnstickStep(b, rid);
    var c := DoUnstick(b, rid);
    assert {rid} - {rid} == {};
    OpenStep(c);
    var d := DoOpen(c);
    Two(b, Unstick(rid), c, Open, d);
    ArriveStep(d, 0, rid, READ);
    var e := DoArrive(d, 0, rid, READ);
    t := ServeRead(e, rid, second);
    LeadsNowhere(s);
    LeadsOn(s, [], s, Crash, a);
    assert [] + [Crash] == [Crash];
    LeadsFurther(s, [Crash], a, [Load([]), MarkersDone], b);
    LeadsFurther(s, [Crash] + [Load([]), MarkersDone], b, [Unstick(rid), Open], d);
    LeadsOn(s, [Crash] + [Load([]), MarkersDone] + [Unstick(rid), Open], d, Arrive(0, rid, READ), e);
    LeadsFurther(s, [Crash] + [Load([]), MarkersDone] + [Unstick(rid), Open] + [Arrive(0, rid, READ)], e,
        OneRead(rid, second), t);
  }

  lemma StuckRead(rid: Rid)
    ensures StuckRids(map[rid := Pending(OpRead)]) == {rid} && StuckVerdict([], rid, Pending(OpRead)) == None
  {
  }

  /**
   In any workspace, this very run answers one request id with any two messages: two copies of a read race, the loser's
   claim line lands after the winner's answer, the server dies, and the id is executed and answered again, with whatever
   the file then holds.
   */
  lemma DuplicateLosesAnswer(s: State, rid: Rid, first: ServerMessage, second: ServerMessage) returns (t: State)
    requires Initial(s)
    ensures Leads(s, RaceRun(rid, first) + AgainRun(rid, second), t)
    ensures (rid, first) in t.h.replies && (rid, second) in t.h.replies && t.ws == s.ws && t.disk.files == s.disk.files
  {
    hide Leads, RaceRun, AgainRun, RequestFold;
    var a := Race(s, rid, first);
    t := Again(a, rid, second);
    LeadsFurther(s, RaceRun(rid, first), a, AgainRun(rid, second), t);
  }
}
