/**
 Reading the logs into the tables, and the searches over the table (store.rs: new, find_record,
 find_committed_by_request_id, drop_prepared, history).
 */
module Loading {
  import opened Prelude
  import opened Protocol
  import opened Tables
  import opened Machine

  /** Insert after every record that is not younger. */
  function InsertByTime(s: seq<Record>, r: Record): seq<Record> {
    if s == [] then [r]
    else if r.ts < s[0].ts then [r] + s
    else [s[0]] + InsertByTime(s[1..], r)
  }

  lemma {:induction false} InsertElements(s: seq<Record>, r: Record)
    ensures forall x: Record :: x in InsertByTime(s, r) <==> x == r || x in s
    ensures |InsertByTime(s, r)| == |s| + 1
  {
    if s != [] {
      assert s == [s[0]] + s[1..];
      InsertElements(s[1..], r);
    }
  }

  lemma {:induction false} InsertSorted(s: seq<Record>, r: Record)
    requires ByTime(s)
    ensures ByTime(InsertByTime(s, r))
  {
    if s != [] && r.ts >= s[0].ts {
      InsertSorted(s[1..], r);
      InsertElements(s[1..], r);
      var t := InsertByTime(s[1..], r);
      forall j | 0 <= j < |t| ensures s[0].ts <= t[j].ts {
        assert t[j] in t;
        assert t[j] in s[1..] ==> exists k :: 0 < k < |s| && s[k] == t[j];
      }
    }
  }

  lemma {:induction false} InsertDistinct(s: seq<Record>, r: Record)
    requires Distinct(s) && forall x :: x in s ==> x.id != r.id
    ensures Distinct(InsertByTime(s, r))
  {
    if s != [] && r.ts >= s[0].ts {
      InsertDistinct(s[1..], r);
      InsertElements(s[1..], r);
      var t := InsertByTime(s[1..], r);
      forall j | 0 <= j < |t| ensures s[0].id != t[j].id {
        assert t[j] in t;
        assert t[j] in s[1..] ==> exists k :: 0 < k < |s| && s[k] == t[j];
      }
    }
  }

  /** The records of the log, last line per id, oldest first; and the highest id on any line. */
  method LoadRecords(log: seq<Record>) returns (order: seq<Record>, maxId: nat)
    ensures Enumerates(order, Fold(log)) && maxId == MaxId(log)
  {
    var byId: map<nat, Record> := map[];
    maxId := 0;
    for i := 0 to |log|
      invariant byId == Fold(log[..i]) && maxId == MaxId(log[..i])
    {
      FoldAppend(log[..i], log[i]);
      assert log[..i + 1] == log[..i] + [log[i]];
      byId := byId[log[i].id := log[i]];
      maxId := Max(maxId, log[i].id);
    }
    assert log[..|log|] == log;
    order := SortByTime(byId, log);
  }

  method SortByTime(byId: map<nat, Record>, ghost log: seq<Record>) returns (order: seq<Record>)
    requires byId == Fold(log)
    ensures Enumerates(order, byId)
  {
    hide Fold, InsertByTime;
    FoldMember(log);
    order := [];
    var ids := byId.Keys;
    while ids != {}
      invariant ids <= byId.Keys
      invariant Distinct(order) && ByTime(order)
      invariant forall r :: r in order <==> r.id in byId && r.id !in ids && byId[r.id] == r
      decreases |ids|
    {
      var id :| id in ids;
      InsertElements(order, byId[id]);
      InsertSorted(order, byId[id]);
      InsertDistinct(order, byId[id]);
      order := InsertByTime(order, byId[id]);
      ids := ids - {id};
    }
    SameElements(order, byId);
  }

  lemma {:induction false} BuildOrder(byId: map<nat, Record>, ids: set<nat>) returns (order: seq<Record>)
    requires ids <= byId.Keys && forall id :: id in byId ==> byId[id].id == id
    ensures Distinct(order) && ByTime(order)
    ensures forall r :: r in order <==> r.id in ids && byId[r.id] == r
    decreases |ids|
  {
    hide InsertByTime;
    order := [];
    if ids != {} {
      var id :| id in ids;
      order := BuildOrder(byId, ids - {id});
      InsertElements(order, byId[id]);
      InsertSorted(order, byId[id]);
      InsertDistinct(order, byId[id]);
      order := InsertByTime(order, byId[id]);
    }
  }

  /** Every log can be loaded. */
  lemma SomeOrder(log: seq<Record>) returns (order: seq<Record>)
    ensures Enumerates(order, Fold(log))
  {
    hide Fold;
    FoldMember(log);
    order := BuildOrder(Fold(log), Fold(log).Keys);
    SameElements(order, Fold(log));
  }

  method LoadRequests(log: seq<RequestLine>) returns (table: map<Rid, RequestEntry>)
    ensures table == RequestFold(log)
  {
    table := map[];
    for i := 0 to |log|
      invariant table == RequestFold(log[..i])
    {
      RequestFoldAppend(log[..i], log[i]);
      assert log[..i + 1] == log[..i] + [log[i]];
      table := table[log[i].rid := EntryOf(log[i])];
    }
    assert log[..|log|] == log;
  }

  method FindCommitted(records: seq<Record>, id: nat) returns (r: Option<Record>)
    ensures r == FindRecord(records, id)
  {
    var i := 0;
    while i < |records| && !(records[i].IsCommitted() && records[i].id == id)
      invariant i <= |records| && FindRecord(records, id) == FindRecord(records[i..], id)
    {
      i := i + 1;
    }
    r := if i < |records| then Some(records[i]) else None;
  }

  method FindCommittedByRequestId(records: seq<Record>, rid: Rid) returns (r: Option<Record>)
    ensures r == FindByRequest(records, rid)
  {
    var i := 0;
    while i < |records| && !(records[i].IsCommitted() && records[i].rid == rid)
      invariant i <= |records| && FindByRequest(records, rid) == FindByRequest(records[i..], rid)
    {
      i := i + 1;
    }
    r := if i < |records| then Some(records[i]) else None;
  }

  method PreparedOf(records: seq<Record>) returns (markers: seq<Record>)
    ensures markers == Markers(records)
  {
    markers := [];
    for i := 0 to |records|
      invariant Markers(records) == markers + Markers(records[i..])
    {
      if records[i].Prepared? {
        markers := markers + [records[i]];
      }
    }
  }

  method Without(records: seq<Record>, id: nat) returns (kept: seq<Record>)
    ensures kept == WithoutMarker(records, id)
  {
    kept := [];
    for i := 0 to |records|
      invariant WithoutMarker(records, id) == kept + WithoutMarker(records[i..], id)
    {
      if !(records[i].id == id && records[i].Prepared?) {
        kept := kept + [records[i]];
      }
    }
  }

  lemma {:induction false} UpsertAt(records: seq<Record>, r: Record, i: nat)
    requires i <= |records| && (forall k :: 0 <= k < i ==> records[k].id != r.id)
    requires (i < |records| ==> records[i].id == r.id)
    ensures Upsert(records, r) == if i < |records| then records[i := r] else records + [r]
  {
    if i > 0 {
      UpsertAt(records[1..], r, i - 1);
      assert records == [records[0]] + records[1..];
    }
  }

  method Upserted(records: seq<Record>, r: Record) returns (t: seq<Record>)
    ensures t == Upsert(records, r)
  {
    var i := 0;
    while i < |records| && records[i].id != r.id
      invariant i <= |records| && forall k :: 0 <= k < i ==> records[k].id != r.id
    {
      i := i + 1;
    }
    hide Upsert;
    UpsertAt(records, r, i);
    t := if i < |records| then records[i := r] else records + [r];
  }

  // ---- pruning ----

  /** The entries in flight and those of retained records. */
  method RetainRequests(requests: map<Rid, RequestEntry>, records: seq<Record>) returns (kept: map<Rid, RequestEntry>)
    ensures kept == Retained(requests, records)
  {
    hide RequestIds;
    var ids := RequestIds(records);
    kept := requests;
    var todo := requests.Keys;
    while todo != {}
      invariant todo <= requests.Keys
      invariant forall rid :: rid in kept <==>
          rid in requests && (rid in todo || requests[rid].status.InProgress? || rid in ids)
      invariant forall rid :: rid in kept ==> kept[rid] == requests[rid]
      decreases |todo|
    {
      var rid :| rid in todo;
      if !(requests[rid].status.InProgress? || rid in ids) {
        kept := kept - {rid};
      }
      todo := todo - {rid};
    }
  }

  /** One line an entry. */
  method LinesOf(requests: map<Rid, RequestEntry>) returns (lines: seq<RequestLine>)
    ensures Rewrites(lines, requests)
  {
    hide LineOf, EntryOf, RequestFold;
    lines := [];
    var todo := requests.Keys;
    FoldNothing();
    while todo != {}
      invariant todo <= requests.Keys && |lines| + |todo| == |requests|
      invariant RequestFold(lines) == requests - todo
      invariant forall l :: l in lines ==> l.rid in requests && l == LineOf(l.rid, requests[l.rid])
      decreases |todo|
    {
      var rid :| rid in todo;
      var line := LineOf(rid, requests[rid]);
      RequestFoldAppend(lines, line);
      EntryOfLineOf(rid, requests[rid]);
      lines := lines + [line];
      todo := todo - {rid};
    }
  }

  lemma FoldNothing()
    ensures RequestFold([]) == map[]
  {
  }

  // ---- history ----

  /** The same record, except that of a command's output only the counts are left, all of it counted as omitted. */
  ghost predicate Blanked(r: Record, shown: Record) {
    if r.Exec? then
      && shown.Exec? && shown.(exec := r.exec) == r
      && shown.exec.(stdout := r.exec.stdout, stderr := r.exec.stderr) == r.exec
      && var out, err := shown.exec.stdout, shown.exec.stderr;
         out.prefix == out.suffix == err.prefix == err.suffix == ""
         && out.totalBytes == out.omittedBytes == r.exec.stdout.totalBytes
         && err.totalBytes == err.omittedBytes == r.exec.stderr.totalBytes
    else shown == r
  }

  /** `at` names every committed record, in order, but for `skipped` ones older than all it names. */
  ghost predicate CommittedAt(records: seq<Record>, at: seq<nat>, skipped: set<nat>) {
    && (forall i, j :: 0 <= i < j < |at| ==> at[i] < at[j])
    && (forall k :: k in at || k in skipped <==> 0 <= k < |records| && records[k].IsCommitted())
    && (forall k, i :: k in skipped && 0 <= i < |at| ==> k < at[i])
  }

  /** The most recent committed records, oldest first, each blanked; older ones are left out only at the limit. */
  ghost predicate IsHistory(records: seq<Record>, limit: Option<nat>, at: seq<nat>, skipped: set<nat>,
                            page: seq<Record>)
  {
    && CommittedAt(records, at, skipped)
    && (limit.Some? ==> |page| <= limit.value)
    && (skipped != {} ==> limit == Some(|page|))
    && |page| == |at| && (forall i :: 0 <= i < |page| ==> at[i] < |records| && Blanked(records[at[i]], page[i]))
  }

  method CommittedRecords(records: seq<Record>) returns (committed: seq<Record>, ghost at: seq<nat>)
    ensures CommittedAt(records, at, {}) && |committed| == |at|
    ensures forall i :: 0 <= i < |at| ==> at[i] < |records| && committed[i] == records[at[i]]
  {
    committed, at := [], [];
    for i := 0 to |records|
      invariant |committed| == |at|
      invariant forall k, j :: 0 <= k < j < |at| ==> at[k] < at[j]
      invariant forall k :: k in at <==> 0 <= k < i && records[k].IsCommitted()
      invariant forall k :: 0 <= k < |at| ==> at[k] < i && committed[k] == records[at[k]]
    {
      if records[i].IsCommitted() {
        committed := committed + [records[i]];
        at := at + [i];
      }
    }
  }

  lemma SkipOldest(records: seq<Record>, at: seq<nat>, n: nat) returns (skipped: set<nat>)
    requires CommittedAt(records, at, {}) && n <= |at|
    ensures CommittedAt(records, at[n..], skipped) && (n == 0 ==> skipped == {})
  {
    skipped := set k | k in at[..n];
    assert at == at[..n] + at[n..];
    assert forall i :: 0 <= i < |at| - n ==> at[n..][i] == at[n + i];
    assert forall k :: k in at[..n] ==> exists i :: 0 <= i < n && at[i] == k;
  }

  function Redacted(r: Record): (shown: Record)
    ensures Blanked(r, shown)
  {
    if r.Exec? then
      r.(exec := r.exec.(
        stdout := Output("", "", r.exec.stdout.totalBytes, r.exec.stdout.totalBytes),
        stderr := Output("", "", r.exec.stderr.totalBytes, r.exec.stderr.totalBytes)))
    else r
  }

  method History(records: seq<Record>, limit: Option<nat>) returns (page: seq<Record>)
    ensures exists at, skipped :: IsHistory(records, limit, at, skipped, page)
  {
    hide Redacted, Blanked, CommittedAt;
    var committed;
    ghost var at;
    committed, at := CommittedRecords(records);
    var start := if limit.Some? && |committed| > limit.value then |committed| - limit.value else 0;
    ghost var skipped := SkipOldest(records, at, start);
    committed := committed[start..];
    page := [];
    for i := 0 to |committed|
      invariant |page| == i && forall k :: 0 <= k < i ==> Blanked(committed[k], page[k])
    {
      page := page + [Redacted(committed[i])];
    }
    assert IsHistory(records, limit, at[start..], skipped, page);
  }
}
