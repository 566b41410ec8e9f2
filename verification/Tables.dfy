/**
 Meaning of the two append-only logs: the last line for a key wins
 (store.rs: OperationStore::new, find_record, commit_fs_record, prune).
 */
module Tables {
  import opened Prelude
  import opened Protocol

  /** operations.jsonl read front to back into a map: a later record for the same id overwrites. */
  function Fold(log: seq<Record>): map<nat, Record> {
    if log == [] then map[]
    else var last := log[|log| - 1]; Fold(log[..|log| - 1])[last.id := last]
  }

  /** Highest operation id on any line. */
  function MaxId(log: seq<Record>): nat {
    if log == [] then 0 else Max(MaxId(log[..|log| - 1]), log[|log| - 1].id)
  }

  function EntryOf(line: RequestLine): RequestEntry {
    RequestEntry(line.status,
      match (line.resultDone, line.resultError)
      case (Some(m), None) => Some(StoredDone(m))
      case (None, Some(e)) => Some(StoredError(e))
      case _ => None,
      line.op)
  }

  function LineOf(rid: Rid, entry: RequestEntry): RequestLine {
    match entry.result
    case None => RequestLine(rid, entry.status, None, None, entry.op)
    case Some(StoredDone(m)) => RequestLine(rid, entry.status, Some(m), None, entry.op)
    case Some(StoredError(e)) => RequestLine(rid, entry.status, None, Some(e), entry.op)
  }

  /** requests.jsonl read front to back. */
  function RequestFold(log: seq<RequestLine>): map<Rid, RequestEntry> {
    if log == [] then map[]
    else var last := log[|log| - 1]; RequestFold(log[..|log| - 1])[last.rid := EntryOf(last)]
  }

  ghost predicate Distinct(records: seq<Record>) {
    forall i, j :: 0 <= i < j < |records| ==> records[i].id != records[j].id
  }

  /** Replace the record with the same id where it stands, or push at the end. */
  function Upsert(records: seq<Record>, r: Record): seq<Record> {
    if records == [] then [r]
    else if records[0].id == r.id then [r] + records[1..]
    else [records[0]] + Upsert(records[1..], r)
  }

  /** drop_prepared's retain: every record but a Prepared marker for id. */
  function WithoutMarker(records: seq<Record>, id: nat): seq<Record> {
    if records == [] then []
    else (if records[0].id == id && records[0].Prepared? then [] else [records[0]]) + WithoutMarker(records[1..], id)
  }

  /** The Prepared markers, in order. */
  function Markers(records: seq<Record>): seq<Record> {
    if records == [] then []
    else (if records[0].Prepared? then [records[0]] else []) + Markers(records[1..])
  }

  /** First committed record carrying rid (find_committed_by_request_id). */
  function FindByRequest(records: seq<Record>, rid: Rid): Option<Record> {
    if records == [] then None
    else if records[0].IsCommitted() && records[0].rid == rid then Some(records[0])
    else FindByRequest(records[1..], rid)
  }

  /** First committed record with this id (find_record). */
  function FindRecord(records: seq<Record>, id: nat): Option<Record> {
    if records == [] then None
    else if records[0].IsCommitted() && records[0].id == id then Some(records[0])
    else FindRecord(records[1..], id)
  }

  function RequestIds(records: seq<Record>): set<Rid> {
    set r | r in records && !r.Aborted? :: r.rid
  }

  /** Oldest first. */
  ghost predicate ByTime(records: seq<Record>) {
    forall i, j :: 0 <= i < j < |records| ==> records[i].ts <= records[j].ts
  }

  /** What a load may leave in memory: each folded record once, oldest timestamp first. */
  ghost predicate Enumerates(records: seq<Record>, table: map<nat, Record>) {
    && Distinct(records)
    && Fold(records) == table
    && ByTime(records)
  }

  /** The requests whose mutation a table holds. */
  function FileRids(table: map<nat, Record>): set<Rid> {
    set id | id in table && table[id].Fs? :: table[id].rid
  }

  /** The part of a table that is not rolled back. */
  function Live(table: map<nat, Record>): map<nat, Record> {
    map id | id in table && !table[id].Aborted? :: table[id]
  }

  /** The part of a table clients can see. */
  function Committed(table: map<nat, Record>): map<nat, Record> {
    map id | id in table && table[id].IsCommitted() :: table[id]
  }

  // ---- lemmas ----

  lemma FoldAppend(log: seq<Record>, r: Record)
    ensures Fold(log + [r]) == Fold(log)[r.id := r]
    ensures MaxId(log + [r]) == Max(MaxId(log), r.id)
  {
    assert (log + [r])[..|log|] == log;
  }

  /** The highest id is an upper bound that some line attains, or 0. */
  lemma {:induction false} MaxIdFacts(log: seq<Record>)
    ensures forall r :: r in log ==> r.id <= MaxId(log)
    ensures MaxId(log) == 0 || exists r :: r in log && r.id == MaxId(log)
  {
    if log != [] {
      var n := |log| - 1;
      MaxIdFacts(log[..n]);
      assert log == log[..n] + [log[n]];
      assert log[n] in log;
    }
  }

  lemma RequestFoldAppend(log: seq<RequestLine>, line: RequestLine)
    ensures RequestFold(log + [line]) == RequestFold(log)[line.rid := EntryOf(line)]
  {
    assert (log + [line])[..|log|] == log;
  }

  lemma EntryOfLineOf(rid: Rid, entry: RequestEntry)
    ensures EntryOf(LineOf(rid, entry)) == entry
    ensures LineOf(rid, entry).rid == rid
  {
  }

  /** An entry holds an answer if and only if its line holds exactly one of message and error. */
  lemma EntryOfLine(line: RequestLine)
    ensures var e := EntryOf(line);
      && e.status == line.status && e.op == line.op
      && (e.result.Some? <==> line.resultDone.Some? != line.resultError.Some?)
      && (e.result.Some? ==>
            e.result.value == if line.resultDone.Some? then StoredDone(line.resultDone.value)
                              else StoredError(line.resultError.value))
  {
  }

  lemma {:induction false} FoldMember(log: seq<Record>)
    ensures forall id :: id in Fold(log) ==> Fold(log)[id].id == id && Fold(log)[id] in log && id <= MaxId(log)
    ensures forall r :: r in log ==> r.id in Fold(log) && r.id <= MaxId(log)
  {
    if log != [] {
      var n := |log| - 1;
      FoldMember(log[..n]);
      assert log == log[..n] + [log[n]];
    }
  }

  lemma {:induction false} FoldDistinct(s: seq<Record>)
    requires Distinct(s)
    ensures forall i :: 0 <= i < |s| ==> s[i].id in Fold(s) && Fold(s)[s[i].id] == s[i]
  {
    if s != [] {
      FoldDistinct(s[..|s| - 1]);
    }
  }

  /** With distinct ids, a table entry is exactly an element of the sequence. */
  lemma FoldIsElements(s: seq<Record>)
    requires Distinct(s)
    ensures forall r: Record :: r in s <==> r.id in Fold(s) && Fold(s)[r.id] == r
  {
    FoldDistinct(s);
    FoldMember(s);
  }

  lemma {:induction false} UpsertElements(s: seq<Record>, r: Record)
    requires Distinct(s)
    ensures Distinct(Upsert(s, r))
    ensures forall x: Record :: x in Upsert(s, r) <==> x == r || (x in s && x.id != r.id)
  {
    if s != [] {
      assert s == [s[0]] + s[1..];
      UpsertElements(s[1..], r);
      if s[0].id != r.id {
        var t := Upsert(s[1..], r);
        forall j | 0 <= j < |t| ensures t[j].id != s[0].id {
          assert t[j] in t;
        }
      }
    }
  }

  lemma SameElements(s: seq<Record>, table: map<nat, Record>)
    requires Distinct(s)
    requires forall id :: id in table ==> table[id].id == id && table[id] in s
    requires forall r :: r in s ==> r.id in table && table[r.id] == r
    ensures Fold(s) == table
  {
    FoldIsElements(s);
    FoldMember(s);
    forall id | id in table ensures id in Fold(s) && Fold(s)[id] == table[id] {
      assert table[id] in s;
    }
  }

  lemma FoldUpsert(s: seq<Record>, r: Record)
    requires Distinct(s)
    ensures Distinct(Upsert(s, r))
    ensures Fold(Upsert(s, r)) == Fold(s)[r.id := r]
  {
    UpsertElements(s, r);
    FoldIsElements(s);
    FoldMember(s);
    SameElements(Upsert(s, r), Fold(s)[r.id := r]);
  }

  lemma {:induction false} WithoutMarkerElements(s: seq<Record>, id: nat)
    requires Distinct(s)
    ensures Distinct(WithoutMarker(s, id))
    ensures forall x: Record :: x in WithoutMarker(s, id) <==> x in s && !(x.id == id && x.Prepared?)
  {
    if s != [] {
      assert s == [s[0]] + s[1..];
      WithoutMarkerElements(s[1..], id);
      var t := WithoutMarker(s[1..], id);
      forall j | 0 <= j < |t| ensures t[j].id != s[0].id {
        assert t[j] in t;
      }
    }
  }

  /** Dropping a marker leaves the others where they stood. */
  lemma {:induction false} WithoutMarkerAt(s: seq<Record>, id: nat, i: nat)
    requires Distinct(s) && i < |s| && s[i].id == id && s[i].Prepared?
    ensures WithoutMarker(s, id) == s[..i] + s[i + 1..]
  {
    if i == 0 {
      NothingToDrop(s[1..], id);
    } else {
      WithoutMarkerAt(s[1..], id, i - 1);
      assert s[1..][..i - 1] == s[1..i] && s[1..][i..] == s[i + 1..];
    }
  }

  lemma {:induction false} NothingToDrop(s: seq<Record>, id: nat)
    requires forall r :: r in s ==> !(r.id == id && r.Prepared?)
    ensures WithoutMarker(s, id) == s
  {
    if s != [] {
      assert s[0] in s;
      NothingToDrop(s[1..], id);
    }
  }

  lemma FoldWithoutMarker(s: seq<Record>, id: nat)
    requires Distinct(s)
    requires id in Fold(s) && Fold(s)[id].Prepared?
    ensures Distinct(WithoutMarker(s, id))
    ensures Fold(WithoutMarker(s, id)) == Fold(s) - {id}
  {
    WithoutMarkerElements(s, id);
    FoldIsElements(s);
    FoldMember(s);
    SameElements(WithoutMarker(s, id), Fold(s) - {id});
  }

  /** Dropping the oldest records leaves exactly the table entries of the others. */
  lemma FoldSuffix(s: seq<Record>, k: nat)
    requires Distinct(s) && k <= |s|
    ensures Distinct(s[k..])
    ensures forall id :: id in Fold(s[k..]) ==> id in Fold(s) && Fold(s)[id] == Fold(s[k..])[id]
    ensures forall r: Record :: r in s[..k] ==> r.id !in Fold(s[k..])
  {
    FoldIsElements(s);
    FoldIsElements(s[k..]);
    FoldMember(s[k..]);
    forall id | id in Fold(s[k..]) ensures id in Fold(s) && Fold(s)[id] == Fold(s[k..])[id] {
      assert Fold(s[k..])[id] in s;
    }
  }

  lemma {:induction false} MarkersElements(s: seq<Record>)
    ensures forall r: Record :: r in Markers(s) <==> r in s && r.Prepared?
    ensures Distinct(s) ==> Distinct(Markers(s))
  {
    if s != [] {
      assert s == [s[0]] + s[1..];
      MarkersElements(s[1..]);
      if Distinct(s) {
        var t := Markers(s[1..]);
        forall j | 0 <= j < |t| ensures t[j].id != s[0].id {
          assert t[j] in s[1..];
        }
      }
    }
  }

  lemma {:induction false} FindByRequestFacts(s: seq<Record>, rid: Rid)
    ensures var f := FindByRequest(s, rid);
      if f.Some? then f.value in s && f.value.IsCommitted() && f.value.rid == rid
      else forall r :: r in s && r.IsCommitted() ==> r.rid != rid
  {
    if s != [] {
      assert s == [s[0]] + s[1..];
      FindByRequestFacts(s[1..], rid);
    }
  }

  lemma {:induction false} FindRecordFacts(s: seq<Record>, id: nat)
    ensures var f := FindRecord(s, id);
      if f.Some? then f.value in s && f.value.IsCommitted() && f.value.id == id
      else forall r :: r in s && r.IsCommitted() ==> r.id != id
  {
    if s != [] {
      assert s == [s[0]] + s[1..];
      FindRecordFacts(s[1..], id);
    }
  }
}
