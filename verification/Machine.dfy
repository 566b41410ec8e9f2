/**
 The server as a state machine: every durable write is one step, a crash may fall between any two, and startup
 runs load, recovery and pruning step by step (store.rs, fs_ops.rs, undo.rs, server.rs). What the source leaves to
 the scheduler, the clock or the outside world is carried by the event.
 */
module Machine {
  import opened Prelude
  import opened Protocol
  import opened Tables
  import opened Replies
  import opened Plans

  datatype Disk = Disk(files: Files, ops: seq<Record>, reqs: seq<RequestLine>, blobs: Blobs, counter: nat)

  datatype Memory = Memory(records: seq<Record>, requests: map<Rid, RequestEntry>, nextId: nat)

  datatype Mutation = Mutation(id: nat, rid: Rid, plan: Plan)

  /** How far the mutation under the write guard got. */
  datatype Stage = Allocated | Saved | Logged | Installed

  /**
   The write guard, held from id allocation to commit. After a crash it stands for the mutation whose marker is
   unresolved; `tampered` says somebody wrote that file while the server was down.
   */
  datatype Lock = Free | Held(m: Mutation, stage: Stage, tampered: bool)
  {
    predicate Durable() { Held? && (stage.Logged? || stage.Installed?) }
  }

  /** The winner of a request's claim, executing it. */
  datatype Owner = Claimed(request: Request) | Running(id: nat, spawned: bool) | Answering(reply: StoredResult)

  /** A caller inside claim_request, past the first check. */
  datatype Caller = Caller(rid: Rid, request: Request, appended: bool)

  datatype Mode =
    | Down
    | Marking(todo: seq<Record>)                                  // recover: markers left to resolve
    | Telling(rid: Rid, reply: StoredResult, rest: seq<Record>)   // recover: a marker's request not yet answered
    | Unsticking(stuck: set<Rid>)                                 // recover: stuck requests left
    | Serving
    | Pruning(phase: nat, dropped: seq<Record>)                   // 0 counter, 1 op log, 2 request log, 3 blobs

  /** What happened so far; no step depends on it. */
  datatype History = History(
    logged: set<nat>,                 // ids that ever reached the operation log
    effects: map<nat, Mutation>,      // mutations whose marker was ever logged
    installed: set<nat>, committed: set<nat>, tampered: set<nat>,
    requestOf: map<Rid, Request>,
    spawned: multiset<Rid>,           // commands started, per request
    replies: set<(Rid, ServerMessage)>,
    forgotten: multiset<Rid>,         // entries dropped by prune, per request
    installs: multiset<Rid>,          // installs made, per request
    pruned: multiset<Rid>,            // file records prune took out of the log, per request
    undone: multiset<Rid>)            // installed mutations recovery rolled back, their file being tampered with

  datatype State = State(
    ws: Workspace, disk: Disk, mem: Memory, mode: Mode, lock: Lock,
    owners: map<Rid, Owner>, callers: map<nat, Caller>, h: History)

  datatype Event =
    | Arrive(c: nat, rid: Rid, request: Request)
    | Replay(rid: Rid)
    | Refuse(rid: Rid)
    | AppendClaim(c: nat)
    | Settle(c: nat)
    | Begin(rid: Rid)
    | SaveBlob
    | LogMarker(ts: nat)
    | Install
    | Commit(ts: nat)
    | StartExec(rid: Rid)
    | Spawn(rid: Rid)
    | EndExec(rid: Rid, outcome: ExecOutcome, timeoutMessage: string, ts: nat)
    | LogTransfer(rid: Rid, data: TransferData, ts: nat)
    | Answer(rid: Rid, reply: StoredResult)
    | Remember(rid: Rid)
    | Touch(key: string, content: Option<Bytes>)
    | PruneBegin(keep: nat)
    | PruneCounter
    | PruneOps
    | PruneReqs(lines: seq<RequestLine>)
    | PruneBlob
    | PruneEnd
    | Crash
    | Load(order: seq<Record>)
    | ResolveMarker(ts: nat)
    | Tell
    | MarkersDone
    | Unstick(rid: Rid)
    | Open

  /** The tables in memory are in use. */
  predicate Up(m: Mode) { m.Serving? || m.Pruning? }

  function HighWater(d: Disk): nat { Max(d.counter, MaxId(d.ops)) }

  function Pending(op: OpKind): RequestEntry { RequestEntry(InProgress, None, Some(op)) }

  function Terminal(reply: StoredResult): RequestEntry {
    RequestEntry(if reply.StoredDone? then Done else Failed, Some(reply), None)
  }

  predicate IsPending(e: RequestEntry) { e.status.InProgress? && e.result.None? }

  function AppendOp(d: Disk, r: Record): Disk { d.(ops := d.ops + [r]) }

  function AppendReq(d: Disk, rid: Rid, e: RequestEntry): Disk { d.(reqs := d.reqs + [LineOf(rid, e)]) }

  // ---- claims and answers ----

  function DoAppendClaim(s: State, c: nat): State
    requires c in s.callers
  {
    var k := s.callers[c];
    s.(disk := AppendReq(s.disk, k.rid, Pending(k.request.Op())),
       callers := s.callers[c := k.(appended := true)])
  }

  function DoSettle(s: State, c: nat): State
    requires c in s.callers
  {
    var k := s.callers[c];
    var t := s.(callers := s.callers - {c});
    if k.rid in s.mem.requests then t
    else t.(mem := t.mem.(requests := t.mem.requests[k.rid := Pending(k.request.Op())]),
            owners := t.owners[k.rid := Claimed(k.request)])
  }

  function DoRemember(s: State, rid: Rid): State
    requires rid in s.owners && s.owners[rid].Answering?
  {
    var reply := s.owners[rid].reply;
    s.(disk := AppendReq(s.disk, rid, Terminal(reply)),
       mem := s.mem.(requests := s.mem.requests[rid := Terminal(reply)]),
       owners := s.owners - {rid},
       h := s.h.(replies := s.h.replies + {(rid, Wire(rid, reply))}))
  }

  // ---- mutations ----

  function DoBegin(s: State, rid: Rid): State
    requires rid in s.owners && s.owners[rid].Claimed? && s.owners[rid].request.IsMutation()
  {
    var id := s.mem.nextId + 1;
    match Decide(s.ws, s.disk.files, s.disk.blobs, s.mem.records, s.owners[rid].request)
    case Err(e) => s.(owners := s.owners[rid := Answering(StoredError(e))])
    case Ok(plan) => s.(mem := s.mem.(nextId := id), lock := Held(Mutation(id, rid, plan), Allocated, false))
  }

  function SavedDisk(d: Disk, m: Mutation): Disk {
    d.(blobs := if m.plan.blob.Some? then d.blobs[m.id := m.plan.blob.value] else d.blobs)
  }

  function LoggedDisk(d: Disk, m: Mutation, ts: nat): Disk { AppendOp(d, MarkerOf(m.id, m.rid, m.plan, ts)) }

  function InstalledDisk(d: Disk, m: Mutation): Disk { d.(files := Store(d.files, m.plan.key, m.plan.after)) }

  function CommittedDisk(d: Disk, m: Mutation, ts: nat): Disk { AppendOp(d, CommitOf(m.id, m.rid, m.plan, ts)) }

  function DoSaveBlob(s: State): State
    requires s.lock.Held?
  {
    s.(disk := SavedDisk(s.disk, s.lock.m), lock := s.lock.(stage := Saved))
  }

  function DoLogMarker(s: State, ts: nat): State
    requires s.lock.Held?
  {
    var m := s.lock.m;
    s.(disk := LoggedDisk(s.disk, m, ts), lock := s.lock.(stage := Logged),
       h := s.h.(logged := s.h.logged + {m.id}, effects := s.h.effects[m.id := m]))
  }

  function DoInstall(s: State): State
    requires s.lock.Held?
  {
    s.(disk := InstalledDisk(s.disk, s.lock.m), lock := s.lock.(stage := Installed),
       h := s.h.(installed := s.h.installed + {s.lock.m.id}, installs := s.h.installs + multiset{s.lock.m.rid}))
  }

  function DoCommit(s: State, ts: nat): State
    requires s.lock.Held?
  {
    var m := s.lock.m;
    s.(disk := CommittedDisk(s.disk, m, ts),
       mem := s.mem.(records := Upsert(s.mem.records, CommitOf(m.id, m.rid, m.plan, ts))),
       lock := Free,
       owners := s.owners[m.rid := Answering(StoredDone(ReplyTo(m.id, m.rid, m.plan)))],
       h := s.h.(committed := s.h.committed + {m.id}))
  }

  // ---- commands and transfers ----

  /** Append a record to the log and push it on the table. */
  function LogRecord(s: State, r: Record, reply: StoredResult): State
    requires !r.Aborted?
  {
    s.(disk := AppendOp(s.disk, r), mem := s.mem.(records := s.mem.records + [r]),
       owners := s.owners[r.rid := Answering(reply)], h := s.h.(logged := s.h.logged + {r.id}))
  }

  function DoStartExec(s: State, rid: Rid): State {
    var id := s.mem.nextId + 1;
    s.(mem := s.mem.(nextId := id), owners := s.owners[rid := Running(id, false)])
  }

  function DoSpawn(s: State, rid: Rid): State
    requires rid in s.owners && s.owners[rid].Running?
  {
    s.(owners := s.owners[rid := s.owners[rid].(spawned := true)], h := s.h.(spawned := s.h.spawned + multiset{rid}))
  }

  function DoEndExec(s: State, rid: Rid, outcome: ExecOutcome, timeoutMessage: string, ts: nat): State
    requires rid in s.owners && s.owners[rid].Running?
  {
    var id := s.owners[rid].id;
    LogRecord(s, Exec(id, rid, ExecDataOf(outcome, timeoutMessage), ts), ExecReply(id, rid, outcome))
  }

  function DoLogTransfer(s: State, rid: Rid, data: TransferData, ts: nat): State {
    var id := s.mem.nextId + 1;
    LogRecord(s.(mem := s.mem.(nextId := id)), Transfer(id, rid, data, ts),
        StoredDone(ResultMsg(rid, TransferBody(id, data))))
  }

  // ---- pruning ----

  function Retained(requests: map<Rid, RequestEntry>, records: seq<Record>): map<Rid, RequestEntry> {
    map rid | rid in requests && (requests[rid].status.InProgress? || rid in RequestIds(records)) :: requests[rid]
  }

  /** The last `keep` records, or all there are. */
  function Newest(records: seq<Record>, keep: nat): (kept: seq<Record>)
    ensures |kept| == Min(keep, |records|) && kept == records[|records| - |kept|..]
  {
    records[|records| - Min(keep, |records|)..]
  }

  function DoPruneBegin(s: State, keep: nat): State {
    var kept := Newest(s.mem.records, keep);
    var k := |s.mem.records| - |kept|;
    var requests := Retained(s.mem.requests, kept);
    s.(mem := s.mem.(records := kept, requests := requests), mode := Pruning(0, s.mem.records[..k]),
       h := s.h.(forgotten := s.h.forgotten + multiset(s.mem.requests.Keys - requests.Keys)))
  }

  /** The request log as prune rewrites it: one line for each entry, in any order. */
  ghost predicate Rewrites(lines: seq<RequestLine>, requests: map<Rid, RequestEntry>) {
    && RequestFold(lines) == requests
    && |lines| == |requests|
    && forall l :: l in lines ==> l.rid in requests && l == LineOf(l.rid, requests[l.rid])
  }

  // ---- crash, load, recovery ----

  function DoCrash(s: State): State {
    s.(mem := Memory([], map[], 0), mode := Down, owners := map[], callers := map[],
       lock := if s.lock.Durable() then s.lock else Free)
  }

  function DoLoad(s: State, order: seq<Record>): State {
    s.(mem := Memory(order, RequestFold(s.disk.reqs), HighWater(s.disk)), mode := Marking(Markers(order)))
  }

  datatype Outcome = NoOp | Took | Clash

  /** recover's comparison of a marker with the file. */
  function Classify(ws: Workspace, files: Files, p: Record): Outcome
    requires p.Prepared?
  {
    if p.path !in ws then Clash
    else match (p.before, HashOf(Lookup(files, ws[p.path])))
      case (None, None) => NoOp
      case (Some(_), None) => if p.after == FILE_DELETED_SENTINEL then Took else Clash
      case (None, Some(c)) => if c == p.after then Took else Clash
      case (Some(b), Some(c)) => if b == c then NoOp else if c == p.after then Took else Clash
  }

  function Synthesized(p: Record, ts: nat): Record
    requires p.Prepared?
  {
    Fs(p.id, p.rid, p.kind, p.path, p.before, p.after, ts)
  }

  const CLASH_ERROR: ProtocolError := Error(UndoConflict, "startup recovery could not reconcile operation")
  const EXEC_LOST: ProtocolError := Error(ExecFailed, "exec in progress at time of crash; retry with a new request_id")
  const UNKNOWN_LOST: ProtocolError := Error(InvalidRequest,
      "request was in progress at time of crash; retry with a new request_id")

  function DoResolveMarker(s: State, ts: nat): State
    requires s.mode.Marking? && s.mode.todo != [] && s.mode.todo[0].Prepared?
  {
    var p := s.mode.todo[0];
    var rest := s.mode.todo[1..];
    var outcome := Classify(s.ws, s.disk.files, p);
    var t := s.(lock := Free, h := s.h.(
      tampered := s.h.tampered + (if s.lock.Held? && s.lock.tampered then {p.id} else {}),
      undone := s.h.undone
        + if s.lock.Held? && s.lock.stage.Installed? && !outcome.Took? then multiset{p.rid} else multiset{}));
    match outcome
    case Took =>
      t.(disk := AppendOp(t.disk, Synthesized(p, ts)),
         mem := t.mem.(records := Upsert(t.mem.records, Synthesized(p, ts))),
         mode := Telling(p.rid, StoredDone(Reconstruct(Synthesized(p, ts))), rest),
         h := t.h.(committed := t.h.committed + {p.id}))
    case NoOp =>
      t.(disk := AppendOp(t.disk, Aborted(p.id, ts)),
         mem := t.mem.(records := WithoutMarker(t.mem.records, p.id)), mode := Marking(rest))
    case Clash =>
      t.(disk := AppendOp(t.disk, Aborted(p.id, ts)),
         mem := t.mem.(records := WithoutMarker(t.mem.records, p.id)),
         mode := Telling(p.rid, StoredError(CLASH_ERROR), rest))
  }

  /** Append a terminal line and set the table entry. */
  function Recall(s: State, rid: Rid, reply: StoredResult): State {
    s.(disk := AppendReq(s.disk, rid, Terminal(reply)),
        mem := s.mem.(requests := s.mem.requests[rid := Terminal(reply)]))
  }

  function DoTell(s: State): State
    requires s.mode.Telling?
  {
    Recall(s, s.mode.rid, s.mode.reply).(mode := Marking(s.mode.rest))
  }

  function StuckRids(requests: map<Rid, RequestEntry>): set<Rid> {
    set rid | rid in requests && IsPending(requests[rid])
  }

  /** What recovery does with a stuck request: an answer to record, or None to forget it. */
  function StuckVerdict(records: seq<Record>, rid: Rid, e: RequestEntry): Option<StoredResult> {
    match FindByRequest(records, rid)
    case Some(r) => FindByRequestFacts(records, rid); Some(StoredDone(Reconstruct(r)))
    case None =>
      if e.op == Some(OpExec) then Some(StoredError(EXEC_LOST))
      else if e.op == None then Some(StoredError(UNKNOWN_LOST))
      else None
  }

  function DoUnstick(s: State, rid: Rid): State
    requires s.mode.Unsticking? && rid in s.mem.requests
  {
    var t := s.(mode := Unsticking(s.mode.stuck - {rid}));
    match StuckVerdict(s.mem.records, rid, s.mem.requests[rid])
    case Some(reply) => Recall(t, rid, reply)
    case None => t.(mem := t.mem.(requests := t.mem.requests - {rid}))
  }

  // ---- when each step can happen ----

  predicate HasClaimed(s: State, rid: Rid) { s.mode.Serving? && rid in s.owners && s.owners[rid].Claimed? }

  predicate IsRunning(s: State, rid: Rid) { s.mode.Serving? && rid in s.owners && s.owners[rid].Running? }

  // claim_request: first check, durable line, double check. Duplicates of an id are copies of one request.
  ghost predicate CanArrive(s: State, c: nat, rid: Rid, request: Request) {
    s.mode.Serving? && c !in s.callers && rid !in s.mem.requests
    && (rid in s.h.requestOf ==> s.h.requestOf[rid] == request)
  }

  ghost predicate CanReplay(s: State, rid: Rid) {
    s.mode.Serving? && rid in s.mem.requests && s.mem.requests[rid].result.Some?
  }

  // handle: a duplicate of a request that is still being executed.
  ghost predicate CanRefuse(s: State, rid: Rid) {
    s.mode.Serving? && rid in s.mem.requests && s.mem.requests[rid].result.None?
  }

  ghost predicate CanAppendClaim(s: State, c: nat) {
    s.mode.Serving? && c in s.callers && !s.callers[c].appended
  }

  ghost predicate CanSettle(s: State, c: nat) {
    s.mode.Serving? && c in s.callers && s.callers[c].appended
  }

  ghost predicate CanBegin(s: State, rid: Rid) {
    HasClaimed(s, rid) && s.owners[rid].request.IsMutation() && s.lock.Free?
  }

  ghost predicate CanSaveBlob(s: State) {
    s.mode.Serving? && s.lock.Held? && s.lock.stage.Allocated?
  }

  ghost predicate CanLogMarker(s: State, ts: nat) {
    s.mode.Serving? && s.lock.Held? && s.lock.stage.Saved?
  }

  ghost predicate CanInstall(s: State) {
    s.mode.Serving? && s.lock.Held? && s.lock.stage.Logged?
  }

  ghost predicate CanCommit(s: State, ts: nat) {
    s.mode.Serving? && s.lock.Held? && s.lock.stage.Installed?
  }

  ghost predicate CanStartExec(s: State, rid: Rid) {
    HasClaimed(s, rid) && s.owners[rid].request.ExecRequest?
  }

  ghost predicate CanSpawn(s: State, rid: Rid) {
    IsRunning(s, rid) && !s.owners[rid].spawned
  }

  ghost predicate CanEndExec(s: State, rid: Rid, outcome: ExecOutcome, timeoutMessage: string, ts: nat) {
    IsRunning(s, rid) && (outcome.Ran? ==> s.owners[rid].spawned)
    && (outcome.NoOutcome? ==> outcome.error.expectedHash.None? && outcome.error.actualHash.None?)
  }

  ghost predicate CanLogTransfer(s: State, rid: Rid, data: TransferData, ts: nat) {
    HasClaimed(s, rid) && s.owners[rid].request == TransferRequest(data.direction) && s.lock.Free?
  }

  ghost predicate CanAnswer(s: State, rid: Rid, reply: StoredResult) {
    HasClaimed(s, rid)
    && (s.owners[rid].request.OtherRequest? || (s.owners[rid].request.TransferRequest? && reply.StoredError?))
  }

  ghost predicate CanRemember(s: State, rid: Rid) {
    s.mode.Serving? && rid in s.owners && s.owners[rid].Answering?
  }

  // Outside writes: any file but the one a running mutation is about to replace.
  ghost predicate CanTouch(s: State, key: string, content: Option<Bytes>) {
    s.lock.Held? && !s.mode.Down? ==> s.lock.m.plan.key != key
  }

  // prune: under the guard, with no claim between its line and its entry.
  ghost predicate CanPruneBegin(s: State, keep: nat) {
    s.mode.Serving? && s.lock.Free? && forall c :: c in s.callers ==> !s.callers[c].appended
  }

  ghost predicate CanPruneCounter(s: State) {
    s.mode.Pruning? && s.mode.phase == 0
  }

  ghost predicate CanPruneOps(s: State) {
    s.mode.Pruning? && s.mode.phase == 1
  }

  ghost predicate CanPruneReqs(s: State, lines: seq<RequestLine>) {
    s.mode.Pruning? && s.mode.phase == 2 && Rewrites(lines, s.mem.requests)
  }

  ghost predicate CanPruneBlob(s: State) {
    s.mode.Pruning? && s.mode.phase == 3 && s.mode.dropped != []
  }

  ghost predicate CanPruneEnd(s: State) {
    s.mode.Pruning? && s.mode.phase == 3 && s.mode.dropped == []
  }

  ghost predicate CanCrash(s: State) {
    !s.mode.Down?
  }

  ghost predicate CanLoad(s: State, order: seq<Record>) {
    s.mode.Down? && Enumerates(order, Fold(s.disk.ops))
  }

  ghost predicate CanResolveMarker(s: State, ts: nat) {
    s.mode.Marking? && s.mode.todo != [] && s.mode.todo[0].Prepared?
  }

  ghost predicate CanTell(s: State) {
    s.mode.Telling?
  }

  ghost predicate CanMarkersDone(s: State) {
    s.mode.Marking? && s.mode.todo == []
  }

  ghost predicate CanUnstick(s: State, rid: Rid) {
    s.mode.Unsticking? && rid in s.mode.stuck && rid in s.mem.requests
  }

  ghost predicate CanOpen(s: State) {
    s.mode.Unsticking? && s.mode.stuck == {}
  }

  // ---- the remaining effects ----

  function DoArrive(s: State, c: nat, rid: Rid, request: Request): State
  {
    s.(callers := s.callers[c := Caller(rid, request, false)], h := s.h.(requestOf := s.h.requestOf[rid := request]))
  }

  ghost function DoReplay(s: State, rid: Rid): State
    requires CanReplay(s, rid)
  {
    s.(h := s.h.(replies := s.h.replies + {(rid, Wire(rid, s.mem.requests[rid].result.value))}))
  }

  const IN_PROGRESS: ProtocolError := Error(InvalidRequest, "request already in progress")

  function Refusal(rid: Rid): ServerMessage { ErrorMsg(rid, IN_PROGRESS) }

  function DoRefuse(s: State, rid: Rid): State
  {
    s.(h := s.h.(replies := s.h.replies + {(rid, Refusal(rid))}))
  }

  function DoAnswer(s: State, rid: Rid, reply: StoredResult): State
  {
    s.(owners := s.owners[rid := Answering(reply)])
  }

  function DoTouch(s: State, key: string, content: Option<Bytes>): State
  {
    s.(disk := s.disk.(files := Store(s.disk.files, key, content)),
       lock := if s.lock.Held? && s.lock.m.plan.key == key then s.lock.(tampered := true) else s.lock)
  }

  ghost function DoPruneCounter(s: State): State
    requires CanPruneCounter(s)
  {
    s.(disk := s.disk.(counter := s.mem.nextId), mode := s.mode.(phase := 1))
  }

  ghost function DoPruneOps(s: State): State
    requires CanPruneOps(s)
  {
    s.(disk := s.disk.(ops := s.mem.records), mode := s.mode.(phase := 2),
       h := s.h.(pruned := s.h.pruned + multiset(FileRids(Fold(s.disk.ops)) - FileRids(Fold(s.mem.records)))))
  }

  ghost function DoPruneReqs(s: State, lines: seq<RequestLine>): State
    requires CanPruneReqs(s, lines)
  {
    s.(disk := s.disk.(reqs := lines), mode := s.mode.(phase := 3))
  }

  ghost function DoPruneBlob(s: State): State
    requires CanPruneBlob(s)
  {
    s.(disk := s.disk.(blobs := s.disk.blobs - {s.mode.dropped[0].id}), mode := s.mode.(dropped := s.mode.dropped[1..]))
  }

  function DoPruneEnd(s: State): State
  {
    s.(mode := Serving)
  }

  function DoMarkersDone(s: State): State
  {
    s.(mode := Unsticking(StuckRids(s.mem.requests)))
  }

  function DoOpen(s: State): State
  {
    s.(mode := Serving)
  }

  // ---- the transition function ----

  ghost predicate Enabled(s: State, e: Event) {
    match e
    case Arrive(c, rid, request) => CanArrive(s, c, rid, request)
    case Replay(rid) => CanReplay(s, rid)
    case Refuse(rid) => CanRefuse(s, rid)
    case AppendClaim(c) => CanAppendClaim(s, c)
    case Settle(c) => CanSettle(s, c)
    case Begin(rid) => CanBegin(s, rid)
    case SaveBlob => CanSaveBlob(s)
    case LogMarker(ts) => CanLogMarker(s, ts)
    case Install => CanInstall(s)
    case Commit(ts) => CanCommit(s, ts)
    case StartExec(rid) => CanStartExec(s, rid)
    case Spawn(rid) => CanSpawn(s, rid)
    case EndExec(rid, outcome, timeoutMessage, ts) => CanEndExec(s, rid, outcome, timeoutMessage, ts)
    case LogTransfer(rid, data, ts) => CanLogTransfer(s, rid, data, ts)
    case Answer(rid, reply) => CanAnswer(s, rid, reply)
    case Remember(rid) => CanRemember(s, rid)
    case Touch(key, content) => CanTouch(s, key, content)
    case PruneBegin(keep) => CanPruneBegin(s, keep)
    case PruneCounter => CanPruneCounter(s)
    case PruneOps => CanPruneOps(s)
    case PruneReqs(lines) => CanPruneReqs(s, lines)
    case PruneBlob => CanPruneBlob(s)
    case PruneEnd => CanPruneEnd(s)
    case Crash => CanCrash(s)
    case Load(order) => CanLoad(s, order)
    case ResolveMarker(ts) => CanResolveMarker(s, ts)
    case Tell => CanTell(s)
    case MarkersDone => CanMarkersDone(s)
    case Unstick(rid) => CanUnstick(s, rid)
    case Open => CanOpen(s)
  }

  ghost function Apply(s: State, e: Event): State
    requires Enabled(s, e)
  {
    match e
    case Arrive(c, rid, request) => DoArrive(s, c, rid, request)
    case Replay(rid) => DoReplay(s, rid)
    case Refuse(rid) => DoRefuse(s, rid)
    case AppendClaim(c) => DoAppendClaim(s, c)
    case Settle(c) => DoSettle(s, c)
    case Begin(rid) => DoBegin(s, rid)
    case SaveBlob => DoSaveBlob(s)
    case LogMarker(ts) => DoLogMarker(s, ts)
    case Install => DoInstall(s)
    case Commit(ts) => DoCommit(s, ts)
    case StartExec(rid) => DoStartExec(s, rid)
    case Spawn(rid) => DoSpawn(s, rid)
    case EndExec(rid, outcome, timeoutMessage, ts) => DoEndExec(s, rid, outcome, timeoutMessage, ts)
    case LogTransfer(rid, data, ts) => DoLogTransfer(s, rid, data, ts)
    case Answer(rid, reply) => DoAnswer(s, rid, reply)
    case Remember(rid) => DoRemember(s, rid)
    case Touch(key, content) => DoTouch(s, key, content)
    case PruneBegin(keep) => DoPruneBegin(s, keep)
    case PruneCounter => DoPruneCounter(s)
    case PruneOps => DoPruneOps(s)
    case PruneReqs(lines) => DoPruneReqs(s, lines)
    case PruneBlob => DoPruneBlob(s)
    case PruneEnd => DoPruneEnd(s)
    case Crash => DoCrash(s)
    case Load(order) => DoLoad(s, order)
    case ResolveMarker(ts) => DoResolveMarker(s, ts)
    case Tell => DoTell(s)
    case MarkersDone => DoMarkersDone(s)
    case Unstick(rid) => DoUnstick(s, rid)
    case Open => DoOpen(s)
  }

  const NO_HISTORY: History := History({}, map[], {}, {}, {}, map[], multiset{}, {}, multiset{}, multiset{},
      multiset{}, multiset{})

  predicate RecoveryEvent(e: Event) {
    e.Crash? || e.Load? || e.ResolveMarker? || e.Tell? || e.MarkersDone? || e.Unstick? || e.Open?
  }

  predicate PruneEvent(e: Event) {
    e.PruneCounter? || e.PruneOps? || e.PruneReqs? || e.PruneBlob? || e.PruneEnd?
  }

  /** A state directory nobody used yet. */
  ghost predicate Initial(s: State) {
    && s.disk.ops == [] && s.disk.reqs == [] && s.disk.blobs == map[] && s.disk.counter == 0
    && s.mem == Memory([], map[], 0) && s.mode == Down && s.lock == Free
    && s.owners == map[] && s.callers == map[] && s.h == NO_HISTORY
  }

  ghost predicate ValidRun(s: State, run: seq<Event>)
    decreases |run|
  {
    run == [] || (Enabled(s, run[0]) && ValidRun(Apply(s, run[0]), run[1..]))
  }

  ghost function After(s: State, run: seq<Event>): State
    requires ValidRun(s, run)
    decreases |run|
  {
    if run == [] then s else After(Apply(s, run[0]), run[1..])
  }

  ghost predicate Reachable(s: State) {
    exists s0: State, run: seq<Event> :: Initial(s0) && ValidRun(s0, run) && After(s0, run) == s
  }
}
