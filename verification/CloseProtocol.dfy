/**
 The client's requests against the reader task that notices the connection is gone (agent-remote-client lib.rs:
 connect, wait_closed, send_request_with_timeout, drain_waiters, reader_loop). Every step is one atomic action of one
 task; tokio's Notify wakes the Notified futures that existed when notify_waiters ran, and remembers nothing.
 */
module CloseProtocol {
  import opened Prelude

  type Rid = nat

  datatype Reader = Reading | Ended | FlagSet | Drained | Notified

  datatype Outcome = Reply | Closed | Timeout | Failed

  /** Where a request is in send_request_with_timeout; `epoch` is the number of notify_waiters its future has seen. */
  datatype Phase =
    | Called                       // about to test the flag
    | Passed                       // saw it clear
    | Inserted                     // sender in the map; writing the request
    | Waiting                      // wait_closed: about to test the flag
    | Looping                      // wait_closed: about to create a Notified future
    | Registered(epoch: nat)       // future created; about to test the flag again
    | Blocked(epoch: nat)          // asleep in select
    | Woken                        // notified; about to test the flag
    | Finished(outcome: Outcome)

  datatype State = State(
    closed: bool,
    reader: Reader,
    epoch: nat,                    // notify_waiters calls so far
    senders: set<Rid>,             // reply_map
    inbox: set<Rid>,               // replies sent and not yet taken
    requests: map<Rid, Phase>)

  datatype Event =
    | Call(r: Rid) | TestFlag(r: Rid) | Insert(r: Rid) | Write(r: Rid) | WriteFails(r: Rid)
    | EnterTest(r: Rid) | Register(r: Rid) | Recheck(r: Rid) | Wake(r: Rid) | WokenTest(r: Rid)
    | TakeReply(r: Rid) | SenderGone(r: Rid) | TimeOut(r: Rid)
    | Deliver(r: Rid) | EndOfStream | SetFlag | Drain | NotifyAll

  predicate At(s: State, r: Rid, p: Phase) { r in s.requests && s.requests[r] == p }

  /** Suspended in the select. */
  predicate IsBlocked(s: State, r: Rid) { r in s.requests && s.requests[r].Blocked? }

  predicate Enabled(s: State, e: Event) {
    match e
    case Call(r) => r !in s.requests && r !in s.senders && r !in s.inbox
    case TestFlag(r) => At(s, r, Called)
    case Insert(r) => At(s, r, Passed)
    case Write(r) => At(s, r, Inserted)
    case WriteFails(r) => At(s, r, Inserted)
    case EnterTest(r) => At(s, r, Waiting)
    case Register(r) => At(s, r, Looping)
    case Recheck(r) => r in s.requests && s.requests[r].Registered?
    case Wake(r) => IsBlocked(s, r) && s.requests[r].epoch < s.epoch
    case WokenTest(r) => At(s, r, Woken)
    case TakeReply(r) => IsBlocked(s, r) && r in s.inbox
    case SenderGone(r) => IsBlocked(s, r) && r !in s.inbox && r !in s.senders
    case TimeOut(r) => IsBlocked(s, r)
    case Deliver(r) => s.reader.Reading? && r in s.senders
    case EndOfStream => s.reader.Reading?
    case SetFlag => s.reader.Ended?
    case Drain => s.reader.FlagSet?
    case NotifyAll => s.reader.Drained?
  }

  function Go(s: State, r: Rid, p: Phase): State { s.(requests := s.requests[r := p]) }

  function Apply(s: State, e: Event): State
    requires Enabled(s, e)
  {
    match e
    case Call(r) => Go(s, r, Called)
    case TestFlag(r) => Go(s, r, if s.closed then Finished(Closed) else Passed)
    case Insert(r) => Go(s, r, Inserted).(senders := s.senders + {r})
    case Write(r) => Go(s, r, Waiting)
    case WriteFails(r) => Go(s, r, Finished(Failed))
    case EnterTest(r) => Go(s, r, if s.closed then Finished(Closed) else Looping)
    case Register(r) => Go(s, r, Registered(s.epoch))
    case Recheck(r) => Go(s, r, if s.closed then Finished(Closed) else Blocked(s.requests[r].epoch))
    case Wake(r) => Go(s, r, Woken)
    case WokenTest(r) => Go(s, r, if s.closed then Finished(Closed) else Looping)
    case TakeReply(r) => Go(s, r, Finished(Reply)).(inbox := s.inbox - {r})
    case SenderGone(r) => Go(s, r, Finished(Closed))
    case TimeOut(r) => Go(s, r, Finished(Timeout)).(senders := s.senders - {r})
    case Deliver(r) => s.(senders := s.senders - {r}, inbox := s.inbox + {r})
    case EndOfStream => s.(reader := Ended)
    case SetFlag => s.(closed := true, reader := FlagSet)
    case Drain => s.(senders := {}, reader := Drained)
    case NotifyAll => s.(epoch := s.epoch + 1, reader := Notified)
  }

  const CONNECTED: State := State(false, Reading, 0, {}, {}, map[])

  predicate ValidRun(s: State, run: seq<Event>)
    decreases |run|
  {
    run == [] || (Enabled(s, run[0]) && ValidRun(Apply(s, run[0]), run[1..]))
  }

  function After(s: State, run: seq<Event>): State
    requires ValidRun(s, run)
    decreases |run|
  {
    if run == [] then s else After(Apply(s, run[0]), run[1..])
  }

  // ---- the invariant ----

  /** Past the insert and not finished. */
  predicate InSelect(p: Phase) {
    p.Inserted? || p.Waiting? || p.Looping? || p.Registered? || p.Blocked? || p.Woken?
  }

  predicate Cleared(reader: Reader) { reader.Drained? || reader.Notified? }

  ghost predicate FlagOk(s: State) {
    && (s.closed <==> s.reader.FlagSet? || Cleared(s.reader))
    && s.epoch == (if s.reader.Notified? then 1 else 0)
  }

  /** Whoever went to sleep saw the flag clear after its future existed, so the one notify was still to come. */
  ghost predicate SleepersOk(s: State) {
    && (forall r :: r in s.requests && s.requests[r].Registered? ==> s.requests[r].epoch <= s.epoch)
    && (forall r :: r in s.requests && s.requests[r].Blocked? ==>
          s.requests[r].epoch == 0 && (Cleared(s.reader) ==> r !in s.senders))
  }

  /** Until the drain, everybody in the select has its sender in the map or its reply in the inbox. */
  ghost predicate SendersOk(s: State) {
    && (forall r :: r in s.senders + s.inbox ==> r in s.requests && !s.requests[r].Called? && !s.requests[r].Passed?)
    && (!Cleared(s.reader) ==> forall r :: r in s.requests && InSelect(s.requests[r]) ==> r in s.senders + s.inbox)
  }

  ghost predicate Inv(s: State) { FlagOk(s) && SleepersOk(s) && SendersOk(s) }

  lemma StepKeeps(s: State, e: Event)
    requires Inv(s) && Enabled(s, e)
    ensures Inv(Apply(s, e))
  {
    hide *;
    InvParts(s);
    StepFlag(s, e);
    StepSleepers(s, e);
    StepSenders(s, e);
    InvParts(Apply(s, e));
  }

  lemma InvParts(s: State)
    ensures Inv(s) <==> FlagOk(s) && SleepersOk(s) && SendersOk(s)
  {
    hide FlagOk, SleepersOk, SendersOk;
  }

  lemma StepFlag(s: State, e: Event)
    requires FlagOk(s) && Enabled(s, e)
    ensures FlagOk(Apply(s, e))
  {
  }

  lemma StepSleepers(s: State, e: Event)
    requires FlagOk(s) && SleepersOk(s) && Enabled(s, e)
    ensures SleepersOk(Apply(s, e))
  {
  }

  lemma StepSenders(s: State, e: Event)
    requires SendersOk(s) && Enabled(s, e)
    ensures SendersOk(Apply(s, e))
  {
  }

  lemma {:induction false} RunKeeps(s: State, run: seq<Event>)
    requires Inv(s) && ValidRun(s, run)
    ensures Inv(After(s, run))
    decreases |run|
  {
    hide Inv, Enabled, Apply;
    if run != [] {
      StepKeeps(s, run[0]);
      RunKeeps(Apply(s, run[0]), run[1..]);
    }
  }

  ghost predicate Reachable(s: State) {
    exists run: seq<Event> :: ValidRun(CONNECTED, run) && After(CONNECTED, run) == s
  }

  lemma ReachableInv(s: State)
    requires Reachable(s)
    ensures Inv(s)
  {
    hide Inv, ValidRun, After;
    ConnectedInv();
    var run: seq<Event> :| ValidRun(CONNECTED, run) && After(CONNECTED, run) == s;
    RunKeeps(CONNECTED, run);
  }

  lemma ConnectedInv()
    ensures Inv(CONNECTED)
  {
  }

  // ---- nobody is stranded ----

  /**
   Once the reader has finished, a sleeping request finds the flag set, its sender gone from the map, and its wake-up
   delivered; before that, a sleeping request always still has its sender in the map or its reply waiting.
   */
  lemma NoStrandedWaiter(s: State, r: Rid)
    requires Reachable(s) && IsBlocked(s, r)
    ensures s.reader.Notified? ==> s.closed && r !in s.senders && Enabled(s, Wake(r))
    ensures !Cleared(s.reader) ==> r in s.senders || r in s.inbox
  {
    ReachableInv(s);
  }

  /** The request's own next action, other than timing out. */
  function Next(s: State, r: Rid): Event
    requires r in s.requests && !s.requests[r].Finished?
  {
    match s.requests[r]
    case Called => TestFlag(r)
    case Passed => Insert(r)
    case Inserted => Write(r)
    case Waiting => EnterTest(r)
    case Looping => Register(r)
    case Registered(_) => Recheck(r)
    case Blocked(_) => Wake(r)
    case Woken => WokenTest(r)
  }

  function Rank(p: Phase): nat {
    match p
    case Called => 4
    case Passed => 3
    case Inserted => 2
    case Waiting => 1
    case Looping => 2
    case Registered(_) => 1
    case Blocked(_) => 2
    case Woken => 1
    case Finished(_) => 0
  }

  function Actor(e: Event): Option<Rid> {
    match e
    case Call(r) => Some(r)
    case TestFlag(r) => Some(r)
    case Insert(r) => Some(r)
    case Write(r) => Some(r)
    case WriteFails(r) => Some(r)
    case EnterTest(r) => Some(r)
    case Register(r) => Some(r)
    case Recheck(r) => Some(r)
    case Wake(r) => Some(r)
    case WokenTest(r) => Some(r)
    case TakeReply(r) => Some(r)
    case SenderGone(r) => Some(r)
    case TimeOut(r) => Some(r)
    case _ => None
  }

  function OwnSteps(run: seq<Event>, r: Rid): nat {
    if run == [] then 0 else (if Actor(run[0]) == Some(r) then 1 else 0) + OwnSteps(run[1..], r)
  }

  lemma StepCloser(s: State, e: Event, r: Rid)
    requires Inv(s) && s.reader.Notified? && r in s.requests && Enabled(s, e)
    ensures var t := Apply(s, e);
      && t.reader.Notified? && r in t.requests
      && Rank(t.requests[r]) + (if Actor(e) == Some(r) then 1 else 0) <= Rank(s.requests[r])
  {
  }

  /**
   After the connection closed, every request finishes: it always has a next step of its own that does not depend on
   the reader or on its timeout, and it takes at most four of them, however the tasks interleave.
   */
  lemma {:induction false} EveryRequestFinishes(s: State, run: seq<Event>, r: Rid)
    requires Inv(s) && s.reader.Notified? && r in s.requests && ValidRun(s, run)
    ensures var t := After(s, run);
      && r in t.requests
      && OwnSteps(run, r) + Rank(t.requests[r]) <= Rank(s.requests[r]) <= 4
      && (!t.requests[r].Finished? ==> Enabled(t, Next(t, r)))
    decreases |run|
  {
    hide Inv, Enabled, Apply, Next, Actor;
    if run == [] {
      AlwaysMoves(s, r);
    } else {
      StepKeeps(s, run[0]);
      StepCloser(s, run[0], r);
      EveryRequestFinishes(Apply(s, run[0]), run[1..], r);
    }
  }

  lemma AlwaysMoves(s: State, r: Rid)
    requires Inv(s) && s.reader.Notified? && r in s.requests
    ensures !s.requests[r].Finished? ==> Enabled(s, Next(s, r))
  {
  }

  // ---- what a request finishes with ----

  /** How a request's phase follows from what happened, `past` being all that did. */
  ghost predicate Told(past: seq<Event>, s: State, r: Rid) { Answered(past, s, r) && Stopped(past, s, r) }

  ghost predicate Answered(past: seq<Event>, s: State, r: Rid) {
    && (At(s, r, Finished(Reply)) <==> TakeReply(r) in past)
    && (TakeReply(r) in past || r in s.inbox <==> Deliver(r) in past)
    && !(TakeReply(r) in past && r in s.inbox)
    && (Deliver(r) in past ==> r !in s.senders && Admitted(s, r))
    && (r in s.senders ==> Admitted(s, r))
  }

  ghost predicate Stopped(past: seq<Event>, s: State, r: Rid) {
    && (At(s, r, Finished(Timeout)) <==> TimeOut(r) in past)
    && (At(s, r, Finished(Failed)) <==> WriteFails(r) in past)
    && (At(s, r, Finished(Closed)) ==> s.closed)
    && (TimeOut(r) in past ==> r !in s.senders)
  }

  /** The request is past its insert. */
  predicate Admitted(s: State, r: Rid) { r in s.requests && !s.requests[r].Called? && !s.requests[r].Passed? }

  lemma StepTold(past: seq<Event>, s: State, e: Event, r: Rid)
    requires Inv(s) && Enabled(s, e) && Told(past, s, r)
    ensures Told(past + [e], Apply(s, e), r)
  {
    hide Inv, Answered, Stopped, Enabled, Apply;
    StepAnswered(past, s, e, r);
    StepStopped(past, s, e, r);
  }

  lemma StepAnswered(past: seq<Event>, s: State, e: Event, r: Rid)
    requires Enabled(s, e) && Answered(past, s, r)
    ensures Answered(past + [e], Apply(s, e), r)
  {
  }

  lemma StepStopped(past: seq<Event>, s: State, e: Event, r: Rid)
    requires Inv(s) && Enabled(s, e) && Stopped(past, s, r)
    ensures Stopped(past + [e], Apply(s, e), r)
  {
  }

  lemma {:induction false} RunTold(past: seq<Event>, s: State, run: seq<Event>, r: Rid)
    requires Inv(s) && ValidRun(s, run) && Told(past, s, r)
    ensures Told(past + run, After(s, run), r)
    decreases |run|
  {
    hide Inv, Enabled, Apply, Told;
    if run == [] {
      assert past + run == past;
    } else {
      StepKeeps(s, run[0]);
      StepTold(past, s, run[0], r);
      RunTold(past + [run[0]], Apply(s, run[0]), run[1..], r);
      assert past + [run[0]] + run[1..] == past + run;
    }
  }

  /**
   Over every run from a fresh connection: a request returns a reply if and only if its reply was delivered and taken
   out of the inbox, times out or fails if and only if it did so in the run, and is told the connection closed only
   once the flag is set. A request that got its reply or timed out is out of the map.
   */
  lemma FinishedAs(run: seq<Event>, r: Rid)
    requires ValidRun(CONNECTED, run)
    ensures var t := After(CONNECTED, run);
      && (At(t, r, Finished(Reply)) <==> Deliver(r) in run && r !in t.inbox)
      && (At(t, r, Finished(Reply)) <==> TakeReply(r) in run)
      && (At(t, r, Finished(Timeout)) <==> TimeOut(r) in run)
      && (At(t, r, Finished(Failed)) <==> WriteFails(r) in run)
      && (At(t, r, Finished(Closed)) ==> t.closed)
      && (At(t, r, Finished(Reply)) || At(t, r, Finished(Timeout)) ==> r !in t.senders)
  {
    hide Inv, Enabled, Apply, ValidRun, After;
    ConnectedInv();
    RunTold([], CONNECTED, run, r);
    assert [] + run == run;
  }

  /** Nothing is sent on a closed connection: a request that has not passed the test when the flag is set never does. */
  lemma {:induction false} NothingSentOnceClosed(s: State, run: seq<Event>, r: Rid)
    requires s.closed && (r !in s.requests || s.requests[r].Called?) && ValidRun(s, run)
    ensures var t := After(s, run);
      && t.closed && (r !in t.requests || t.requests[r].Called? || t.requests[r] == Finished(Closed))
      && Write(r) !in run && Insert(r) !in run
    decreases |run|
  {
    hide Enabled, Apply;
    if run != [] {
      assert run == [run[0]] + run[1..];
      UntestedStep(s, run[0], r);
      if At(Apply(s, run[0]), r, Finished(Closed)) {
        FinishedForGood(Apply(s, run[0]), run[1..], r);
      } else {
        NothingSentOnceClosed(Apply(s, run[0]), run[1..], r);
      }
    }
  }

  lemma UntestedStep(s: State, e: Event, r: Rid)
    requires s.closed && (r !in s.requests || s.requests[r].Called?) && Enabled(s, e)
    ensures var t := Apply(s, e);
      && t.closed && e != Write(r) && e != Insert(r)
      && (r !in t.requests || t.requests[r].Called? || t.requests[r] == Finished(Closed))
  {
  }

  /** A finished request takes no step and keeps its outcome. */
  lemma {:induction false} FinishedForGood(s: State, run: seq<Event>, r: Rid)
    requires r in s.requests && s.requests[r].Finished? && ValidRun(s, run)
    ensures var t := After(s, run); At(t, r, s.requests[r]) && (s.closed ==> t.closed)
    ensures forall e :: e in run ==> Actor(e) != Some(r)
    decreases |run|
  {
    hide Enabled, Apply, Actor;
    if run != [] {
      assert run == [run[0]] + run[1..];
      FinishedStep(s, run[0], r);
      FinishedForGood(Apply(s, run[0]), run[1..], r);
    }
  }

  lemma FinishedStep(s: State, e: Event, r: Rid)
    requires r in s.requests && s.requests[r].Finished? && Enabled(s, e)
    ensures var t := Apply(s, e); At(t, r, s.requests[r]) && (s.closed ==> t.closed) && Actor(e) != Some(r)
  {
  }

  /** A sleeping request whose reply was delivered can take it, and is not told that its sender is gone. */
  lemma DeliveredCanBeTaken(run: seq<Event>, r: Rid)
    requires ValidRun(CONNECTED, run)
    ensures var t := After(CONNECTED, run);
      IsBlocked(t, r) && Deliver(r) in run ==>
        && Enabled(t, TakeReply(r)) && !Enabled(t, SenderGone(r)) && At(Apply(t, TakeReply(r)), r, Finished(Reply))
  {
    hide Inv, ValidRun, After;
    ConnectedInv();
    RunTold([], CONNECTED, run, r);
    assert [] + run == run;
  }
}
