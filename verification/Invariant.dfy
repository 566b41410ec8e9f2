/**
 What holds in every state the server can reach, conjunct by conjunct. Each predicate names the parts of the state
 it depends on; `table` is the folded operation log and `answers` the folded request log.
 */
module Invariant {
  import opened Prelude
  import opened Protocol
  import opened Tables
  import opened Replies
  import opened Plans
  import opened Machine

  type Table = map<nat, Record>
  type Answers = map<Rid, RequestEntry>

  ghost predicate Committed1(table: Table, id: nat, rid: Rid) {
    id in table && table[id].IsCommitted() && table[id].rid == rid
  }

  ghost predicate Live1(table: Table, id: nat, rid: Rid) {
    id in table && !table[id].Aborted? && table[id].rid == rid
  }

  /** Every id ever logged stays at or below the durable high-water mark. */
  ghost predicate IdsOk(table: Table, high: nat, logged: set<nat>) {
    && table.Keys <= logged
    && forall id :: id in logged ==> id <= high
  }

  /** Up, the counter in memory is at or above the mark; prune makes the mark durable before it drops records. */
  ghost predicate CounterOk(mode: Mode, high: nat, nextId: nat, counter: nat) {
    && (!mode.Down? ==> high <= nextId)
    && (mode.Pruning? ==> mode.phase <= 3 && (mode.phase > 0 ==> counter == nextId))
  }

  /** Ids handed out and not yet logged are new, bounded and distinct. */
  ghost predicate ReservedOk(lock: Lock, owners: map<Rid, Owner>, nextId: nat, logged: set<nat>) {
    && (lock.Held? && !lock.Durable() ==> lock.m.id <= nextId && lock.m.id !in logged)
    && (forall rid :: rid in owners && owners[rid].Running? ==>
          && owners[rid].id <= nextId && owners[rid].id !in logged
          && (lock.Held? ==> lock.m.id != owners[rid].id))
    && (forall r1, r2 :: r1 in owners && r2 in owners && r1 != r2 && owners[r1].Running? && owners[r2].Running? ==>
          owners[r1].id != owners[r2].id)
  }

  ghost predicate BlobFor(blobs: Blobs, r: Record) {
    (r.Fs? || r.Prepared?) && r.before.Some? ==> r.id in blobs && r.before == Some(Digest(blobs[r.id]))
  }

  /** Every record with a before hash has the content that hashes to it. */
  ghost predicate BlobsOk(table: Table, blobs: Blobs, lock: Lock) {
    && (forall id :: id in table ==> BlobFor(blobs, table[id]))
    && (lock.Held? && lock.stage.Saved? && lock.m.plan.blob.Some? ==>
          lock.m.id in blobs && blobs[lock.m.id] == lock.m.plan.blob.value)
  }

  ghost predicate Describes(r: Record, m: Mutation) {
    (r.Fs? || r.Prepared?) && m.id == r.id && m.rid == r.rid && r.kind == m.plan.kind && r.path == m.plan.path
    && r.before == HashOf(m.plan.before) && r.after == AfterHash(m.plan.after)
  }

  /** Markers and file records say what the mutation really found and installed. */
  ghost predicate EffectsOk(ws: Workspace, table: Table, effects: map<nat, Mutation>, logged: set<nat>) {
    && effects.Keys <= logged
    && (forall id :: id in effects ==> effects[id].id == id && GoodPlan(ws, effects[id].plan))
    && (forall id :: id in table && (table[id].Fs? || table[id].Prepared?) ==>
          id in effects && Describes(table[id], effects[id]))
  }

  /** Records that are not rolled back belong to claimed requests, one record a request. */
  ghost predicate RidsOk(table: Table, answers: Answers) {
    && (forall id :: id in table ==> table[id].id == id)
    && (forall id :: id in table && !table[id].Aborted? ==> table[id].rid in answers)
    && (forall id :: id in table && table[id].Prepared? ==> IsPending(answers[table[id].rid]))
    && (forall i, j :: i in table && j in table && i != j && !table[i].Aborted? && !table[j].Aborted? ==>
          table[i].rid != table[j].rid)
  }

  /** The only unresolved marker is the guarded mutation's. */
  ghost predicate MarkerOk(table: Table, lock: Lock, effects: map<nat, Mutation>) {
    && (forall id :: id in table && table[id].Prepared? ==> lock.Durable() && lock.m.id == id)
    && (lock.Durable() ==> lock.m.id in table && table[lock.m.id].Prepared?)
    && (lock.Durable() ==> lock.m.id in effects && effects[lock.m.id] == lock.m)
  }

  /** The guarded mutation's file is in its before state until the install and in its after state from then on. */
  ghost predicate LockOk(ws: Workspace, files: Files, mode: Mode, lock: Lock, installed: set<nat>,
      committed: set<nat>) {
    lock.Held? ==>
      && GoodPlan(ws, lock.m.plan)
      && (!lock.tampered ==>
            Lookup(files, lock.m.plan.key) == if lock.stage.Installed? then lock.m.plan.after else lock.m.plan.before)
      && (lock.stage.Installed? <==> lock.m.id in installed)
      && lock.m.id !in committed
      && (mode.Serving? ==> !lock.tampered)
      && (!mode.Serving? ==> lock.Durable())
      && (mode.Serving? || mode.Down? || mode.Marking?)
  }

  ghost predicate ModeOk(mode: Mode, table: Table, answers: Answers, requests: Answers, lock: Lock,
                         owners: map<Rid, Owner>, callers: map<nat, Caller>) {
    && (mode.Down? || mode.Marking? || mode.Telling? || mode.Unsticking? ==> owners == map[] && callers == map[])
    && (mode.Marking? || mode.Telling? ==> requests == answers)
    && (mode.Marking? ==> if lock.Held? then lock.m.id in table && mode.todo == [table[lock.m.id]] else mode.todo == [])
    && (mode.Telling? ==> mode.rest == [] && mode.rid in answers && IsPending(answers[mode.rid]))
    && (mode.Telling? ==> forall id :: Live1(table, id, mode.rid) ==>
          table[id].IsCommitted() && Wire(mode.rid, mode.reply) == Reconstruct(table[id]))
    && (mode.Unsticking? ==> mode.stuck == StuckRids(requests))
    && (mode.Serving? ==> owners.Keys == StuckRids(requests))
    && (mode.Pruning? ==> owners.Keys == StuckRids(requests) && forall c :: c in callers ==> !callers[c].appended)
  }

  ghost predicate SubTable(part: Table, whole: Table) {
    forall id :: id in part ==> id in whole && whole[id] == part[id]
  }

  /** The records in memory are the log's, but for markers being worked on; prune drops from memory first. */
  ghost predicate MemOk(mode: Mode, table: Table, ops: seq<Record>, records: seq<Record>, lock: Lock) {
    !mode.Down? ==>
      && Distinct(records)
      && SubTable(Fold(records), table)
      && (if mode.Pruning? then
            && (mode.phase >= 2 ==> ops == records)
            && (forall r :: r in mode.dropped ==> r.id !in Fold(records))
          else
            Live(Fold(records)) == if mode.Serving? && lock.Durable() then Live(table) - {lock.m.id} else Live(table))
  }

  ghost predicate EntryOk(rid: Rid, e: RequestEntry, requestOf: map<Rid, Request>) {
    && rid in requestOf
    && (if IsPending(e) then e.op == Some(requestOf[rid].Op()) else e.result.Some? && e == Terminal(e.result.value))
  }

  ghost predicate EntriesOk(entries: Answers, requestOf: map<Rid, Request>) {
    forall rid :: rid in entries ==> EntryOk(rid, entries[rid], requestOf)
  }

  /** Somebody wrote a claim line for rid and has not yet looked at the table again. */
  ghost predicate Claiming(callers: map<nat, Caller>, rid: Rid) {
    exists c :: c in callers && callers[c].appended && callers[c].rid == rid
  }

  /** A line without an entry is a claim being made, or one recovery cleared, which is never a command's. */
  ghost predicate Unentered(rid: Rid, line: RequestEntry, callers: map<nat, Caller>) {
    IsPending(line) && (line.op == Some(OpExec) ==> Claiming(callers, rid))
  }

  /**
   The request table is the request log's fold, but for answers whose last line is a losing duplicate's claim, and
   for lines without an entry; while recovery runs the two agree on every entry.
   */
  ghost predicate RequestsOk(mode: Mode, answers: Answers, requests: Answers, callers: map<nat, Caller>,
                             requestOf: map<Rid, Request>) {
    && EntriesOk(answers, requestOf)
    && (!mode.Down? ==>
      && EntriesOk(requests, requestOf)
      && requests.Keys <= answers.Keys
      && (forall rid :: rid in requests ==>
            answers[rid] == requests[rid] || (IsPending(answers[rid]) && requests[rid].result.Some?))
      && (mode.Unsticking? ==> forall rid :: rid in requests ==> answers[rid] == requests[rid])
      && (!(mode.Pruning? && mode.phase < 3) ==> forall rid :: rid in answers && rid !in requests ==>
            Unentered(rid, answers[rid], callers)))
  }

  /** Callers carry the request their id stands for; a durable claim not yet decided is pending in the log. */
  ghost predicate CallersOk(callers: map<nat, Caller>, answers: Answers, requests: Answers, requestOf: map<Rid,
      Request>) {
    forall c :: c in callers ==>
      var k := callers[c];
      && k.rid in requestOf && requestOf[k.rid] == k.request
      && (k.appended && k.rid !in requests ==> k.rid in answers && answers[k.rid] == Pending(k.request.Op()))
  }

  /** At-most-once, in memory: whoever has a record has an entry. */
  ghost predicate CoveredOk(mode: Mode, records: seq<Record>, requests: Answers) {
    !mode.Down? ==> forall r :: r in records && !r.Aborted? ==> r.rid in requests
  }

  ghost predicate OwnersOk(table: Table, owners: map<Rid, Owner>, mode: Mode, lock: Lock, requestOf: map<Rid,
      Request>) {
    && (forall rid :: rid in owners ==> rid in requestOf)
    && (forall rid :: rid in owners && owners[rid].Claimed? ==> owners[rid].request == requestOf[rid])
    && (forall rid :: rid in owners && owners[rid].Running? ==> requestOf[rid].ExecRequest?)
    && (forall rid, id :: rid in owners && Live1(table, id, rid) ==>
          if owners[rid].Answering? then
            table[id].IsCommitted() && Wire(rid, owners[rid].reply) == Reconstruct(table[id])
          else lock.Durable() && lock.m.id == id)
    && (lock.Held? ==> lock.m.rid in requestOf && requestOf[lock.m.rid].IsMutation())
    && (mode.Telling? ==> mode.rid in requestOf && requestOf[mode.rid].IsMutation())
    && (mode.Serving? && lock.Held? ==>
          lock.m.rid in owners && owners[lock.m.rid].Claimed? && owners[lock.m.rid].request.IsMutation())
  }

  /** A stored answer is the one the committed record reconstructs to. */
  ghost predicate RepliesOk(table: Table, entries: Answers) {
    forall id ::
      id in table && table[id].IsCommitted() && table[id].rid in entries && entries[table[id].rid].result.Some? ==>
      Wire(table[id].rid, entries[table[id].rid].result.value) == Reconstruct(table[id])
  }

  /** The request's present execution has not started its command. */
  predicate NotStarted(owners: map<Rid, Owner>, rid: Rid) {
    rid in owners && (owners[rid].Claimed? || (owners[rid].Running? && !owners[rid].spawned))
  }

  /** One start for each time prune forgot the request, and one more only while an entry stands for it. */
  ghost predicate ExecOk(mode: Mode, answers: Answers, requests: Answers, owners: map<Rid, Owner>,
                         spawned: multiset<Rid>, forgotten: multiset<Rid>, requestOf: map<Rid, Request>) {
    && (forall rid :: rid in spawned ==> rid in requestOf && requestOf[rid].ExecRequest?)
    && (forall rid :: spawned[rid] <= forgotten[rid] + 1)
    && (forall rid :: rid !in (if mode.Down? then answers else requests) ==> spawned[rid] <= forgotten[rid])
    && (forall rid :: NotStarted(owners, rid) ==> spawned[rid] <= forgotten[rid])
  }

  /** The log, or the mutation under the guard, carries an install of this request. */
  ghost predicate Carried(table: Table, lock: Lock, rid: Rid) {
    rid in FileRids(table) || (lock.Held? && lock.stage.Installed? && lock.m.rid == rid)
  }

  /** Every install is carried, or its record was pruned, or recovery rolled it back on a tampered file. */
  ghost predicate InstallsOk(table: Table, lock: Lock, installs: multiset<Rid>, pruned: multiset<Rid>,
                             undone: multiset<Rid>) {
    forall rid :: installs[rid] <= pruned[rid] + undone[rid] + if Carried(table, lock, rid) then 1 else 0
  }

  /** Of the untampered mutations, exactly the installed ones are committed, but for the one under the guard. */
  ghost predicate HistoryOk(table: Table, lock: Lock, effects: map<nat, Mutation>, installed: set<nat>,
                            committed: set<nat>, tampered: set<nat>) {
    && installed <= effects.Keys && committed <= effects.Keys
    && (forall id :: id in effects && id !in tampered && !(lock.Held? && lock.m.id == id) ==>
          (id in installed <==> id in committed))
    && (forall id :: id in table && id in effects && !table[id].Prepared? ==> (table[id].Fs? <==> id in committed))
    && (forall id :: id in table && id in effects ==> table[id].Fs? || table[id].Prepared? || table[id].Aborted?)
  }

  // ---- the same, read off a state ----

  ghost predicate Ids(s: State) { IdsOk(Fold(s.disk.ops), HighWater(s.disk), s.h.logged) }

  ghost predicate Counter(s: State) { CounterOk(s.mode, HighWater(s.disk), s.mem.nextId, s.disk.counter) }

  ghost predicate Reserved(s: State) { ReservedOk(s.lock, s.owners, s.mem.nextId, s.h.logged) }

  ghost predicate HasBlobs(s: State) { BlobsOk(Fold(s.disk.ops), s.disk.blobs, s.lock) }

  ghost predicate Effects(s: State) { EffectsOk(s.ws, Fold(s.disk.ops), s.h.effects, s.h.logged) }

  ghost predicate Rids(s: State) { RidsOk(Fold(s.disk.ops), RequestFold(s.disk.reqs)) }

  ghost predicate Marker(s: State) { MarkerOk(Fold(s.disk.ops), s.lock, s.h.effects) }

  ghost predicate Guard(s: State) { LockOk(s.ws, s.disk.files, s.mode, s.lock, s.h.installed, s.h.committed) }

  ghost predicate InMode(s: State) {
    ModeOk(s.mode, Fold(s.disk.ops), RequestFold(s.disk.reqs), s.mem.requests, s.lock, s.owners, s.callers)
  }

  ghost predicate Mem(s: State) { MemOk(s.mode, Fold(s.disk.ops), s.disk.ops, s.mem.records, s.lock) }

  ghost predicate Requests(s: State) {
    RequestsOk(s.mode, RequestFold(s.disk.reqs), s.mem.requests, s.callers, s.h.requestOf)
  }

  ghost predicate Callers(s: State) { CallersOk(s.callers, RequestFold(s.disk.reqs), s.mem.requests, s.h.requestOf) }

  ghost predicate Covered(s: State) { CoveredOk(s.mode, s.mem.records, s.mem.requests) }

  ghost predicate Owners(s: State) { OwnersOk(Fold(s.disk.ops), s.owners, s.mode, s.lock, s.h.requestOf) }

  ghost predicate Stored(s: State) {
    && RepliesOk(Fold(s.disk.ops), RequestFold(s.disk.reqs))
    && (!s.mode.Down? ==> RepliesOk(Fold(s.disk.ops), s.mem.requests))
  }

  ghost predicate Installs(s: State) { InstallsOk(Fold(s.disk.ops), s.lock, s.h.installs, s.h.pruned, s.h.undone) }

  ghost predicate Execs(s: State) {
    ExecOk(s.mode, RequestFold(s.disk.reqs), s.mem.requests, s.owners, s.h.spawned, s.h.forgotten, s.h.requestOf)
  }

  ghost predicate Past(s: State) {
    HistoryOk(Fold(s.disk.ops), s.lock, s.h.effects, s.h.installed, s.h.committed, s.h.tampered)
  }

  ghost predicate LogInv(s: State) {
    Ids(s) && Counter(s) && Reserved(s) && HasBlobs(s) && Effects(s) && Rids(s) && Marker(s) && Guard(s)
  }

  ghost predicate TableInv(s: State) {
    InMode(s) && Mem(s) && Requests(s) && Callers(s) && Covered(s)
  }

  ghost predicate PastInv(s: State) {
    Owners(s) && Stored(s) && Installs(s) && Execs(s) && Past(s)
  }

  ghost predicate Inv(s: State) {
    LogInv(s) && TableInv(s) && PastInv(s)
  }

  lemma InitialInv(s: State)
    requires Initial(s)
    ensures Inv(s)
  {
  }
}
