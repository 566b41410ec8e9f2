/**
 The log files as bytes: splitting into lines, telling a torn tail from damage, and repairing the file (store.rs:
 read_lines, parse_log_line_strict, valid_content_end_offset, truncate_trailing_garbage, append_missing_newline).
 */
module LogBytes {
  import opened Prelude
  import opened Utf8

  const NEWLINE: byte := 10

  /** The record format: what serde_json writes and reads, and str::trim. */
  datatype Codec<!T(==)> = Codec(encode: T -> Bytes, parse: Bytes -> Option<T>, trim: Bytes -> Bytes)

  /** Records are nonempty one-line texts that parse back, and none of their proper prefixes parses. */
  ghost predicate Lawful<T(!new)>(c: Codec<T>) {
    && (forall r: T :: Valid(c.encode(r)) && NEWLINE !in c.encode(r) && c.encode(r) != [])
    && (forall r: T :: c.parse(c.encode(r)) == Some(r) && c.trim(c.encode(r)) == c.encode(r))
    && (forall r: T, p: Bytes :: p < c.encode(r) ==> c.parse(p) == None)
    && (forall r: T, p: Bytes :: p <= c.encode(r) && p != [] ==> c.trim(p) != [] && c.trim(p) <= p)
  }

  datatype LineEntry = LineEntry(text: Bytes, startOffset: nat, hasNewline: bool, utf8Ok: bool, rawLen: nat)

  function Entry(raw: Bytes, at: nat, hasNewline: bool): LineEntry {
    LineEntry(if Valid(raw) then raw else [], at, hasNewline, Valid(raw), |raw|)
  }

  /** Index of the first newline, or the length. */
  function Position(b: Bytes): (i: nat)
    ensures i <= |b| && NEWLINE !in b[..i] && (i < |b| ==> b[i] == NEWLINE)
  {
    if b == [] || b[0] == NEWLINE then 0 else
      assert b[..1 + Position(b[1..])] == [b[0]] + b[1..][..Position(b[1..])];
      1 + Position(b[1..])
  }

  /** The lines of b, whose first byte stands at offset `at` of the file. */
  function Lines(b: Bytes, at: nat): seq<LineEntry>
    decreases |b|
  {
    if b == [] then []
    else
      var i := Position(b);
      if i < |b| then [Entry(b[..i], at, true)] + Lines(b[i + 1..], at + i + 1)
      else [Entry(b, at, false)]
  }

  method FindNewline(b: Bytes, start: nat) returns (i: nat)
    requires start <= |b|
    ensures i == start + Position(b[start..])
  {
    i := start;
    while i < |b| && b[i] != NEWLINE
      invariant start <= i <= |b| && start + Position(b[start..]) == i + Position(b[i..])
    {
      assert b[i..][1..] == b[i + 1..];
      i := i + 1;
    }
  }

  method ReadLines(bytes: Bytes) returns (out: seq<LineEntry>)
    ensures out == Lines(bytes, 0)
  {
    hide Position, Entry, Lines;
    out := [];
    var start := 0;
    assert bytes[0..] == bytes;
    while start < |bytes|
      invariant start <= |bytes| && Lines(bytes, 0) == out + Lines(bytes[start..], start)
      decreases |bytes| - start
    {
      var nl := FindNewline(bytes, start);
      NextLine(bytes, start, nl);
      if nl < |bytes| {
        out := out + [Entry(bytes[start..nl], start, true)];
        start := nl + 1;
      } else {
        out := out + [Entry(bytes[start..], start, false)];
        assert out == Lines(bytes, 0);
        return;
      }
    }
    assert bytes[start..] == [];
    NoLines(start);
    assert out + [] == out;
  }

  lemma NextLine(bytes: Bytes, start: nat, nl: nat)
    requires start < |bytes| && nl == start + Position(bytes[start..])
    ensures Lines(bytes[start..], start) ==
      if nl < |bytes| then [Entry(bytes[start..nl], start, true)] + Lines(bytes[nl + 1..], nl + 1)
                                           else [Entry(bytes[start..], start, false)]
  {
    hide Position, Entry;
    var b := bytes[start..];
    if nl < |bytes| {
      assert b[..nl - start] == bytes[start..nl];
      assert b[nl - start + 1..] == bytes[nl + 1..];
    }
  }

  datatype ParseResult<T> = Parsed(value: T) | SkippedBlank | SkippedCrashTruncated

  datatype LogError = NotUtf8 | BlankLine | BadRecord

  function ParseLogLineStrict<T>(c: Codec<T>, e: LineEntry): Result<ParseResult<T>, LogError> {
    if !e.utf8Ok then
      if !e.hasNewline then Ok(SkippedCrashTruncated) else Err(NotUtf8)
    else if c.trim(e.text) == [] then
      if !e.hasNewline then Ok(SkippedBlank) else Err(BlankLine)
    else match c.parse(c.trim(e.text))
      case Some(v) => Ok(Parsed(v))
      case None => if !e.hasNewline then Ok(SkippedCrashTruncated) else Err(BadRecord)
  }

  datatype Contents<T> = Contents(records: seq<T>, torn: bool)

  /** All lines in order; the first bad one stops the load. */
  function ParseAll<T>(c: Codec<T>, lines: seq<LineEntry>): Result<Contents<T>, LogError> {
    if lines == [] then Ok(Contents([], false))
    else match ParseLogLineStrict(c, lines[0])
      case Err(e) => Err(e)
      case Ok(p) =>
        match ParseAll(c, lines[1..])
        case Err(e) => Err(e)
        case Ok(rest) =>
          Ok(Contents((if p.Parsed? then [p.value] else []) + rest.records, p.SkippedCrashTruncated? || rest.torn))
  }

  /** End of the last newline-terminated line: the maximum over those lines. */
  function ValidContentEndOffset(lines: seq<LineEntry>): nat {
    if lines == [] then 0
    else Max(if lines[0].hasNewline then lines[0].startOffset + lines[0].rawLen + 1 else 0,
        ValidContentEndOffset(lines[1..]))
  }

  // ---- lines and the bytes they come from ----

  /** Empty or ending in a newline. */
  predicate Complete(b: Bytes) { b == [] || b[|b| - 1] == NEWLINE }

  ghost predicate AllTerminated(lines: seq<LineEntry>) {
    forall i :: 0 <= i < |lines| ==> lines[i].hasNewline
  }

  /** The length of the newline-terminated part. */
  function HeadLength(b: Bytes): (n: nat)
    ensures n <= |b| && Complete(b[..n]) && NEWLINE !in b[n..]
  {
    if b == [] || b[|b| - 1] == NEWLINE then assert b[..|b|] == b; |b|
    else
      var n := HeadLength(b[..|b| - 1]);
      assert b[..|b| - 1][..n] == b[..n] && b[n..] == b[..|b| - 1][n..] + [b[|b| - 1]];
      n
  }

  lemma {:induction false} NoNewline(b: Bytes)
    requires NEWLINE !in b
    ensures Position(b) == |b|
  {
    if b != [] {
      NoNewline(b[1..]);
    }
  }

  lemma {:induction false} PositionOfConcat(a: Bytes, b: Bytes)
    requires Position(a) < |a|
    ensures Position(a + b) == Position(a)
  {
    if a[0] != NEWLINE {
      assert (a + b)[1..] == a[1..] + b;
      PositionOfConcat(a[1..], b);
    }
  }

  lemma FirstLine(a: Bytes)
    requires Complete(a) && a != []
    ensures Position(a) < |a| && Complete(a[Position(a) + 1..])
  {
    hide Position;
    assert a[..|a|] == a;
  }

  lemma LinesStep(a: Bytes, b: Bytes, at: nat)
    requires Position(a) < |a|
    ensures var i := Position(a);
      && Lines(a, at) == [Entry(a[..i], at, true)] + Lines(a[i + 1..], at + i + 1)
      && Lines(a + b, at) == [Entry(a[..i], at, true)] + Lines(a[i + 1..] + b, at + i + 1)
  {
    hide Position, Entry;
    var i := Position(a);
    PositionOfConcat(a, b);
    assert (a + b)[..i] == a[..i];
    assert (a + b)[i + 1..] == a[i + 1..] + b;
  }

  /** Terminated text and what follows it split independently. */
  lemma {:induction false} LinesConcat(a: Bytes, b: Bytes, at: nat)
    requires Complete(a)
    ensures Lines(a + b, at) == Lines(a, at) + Lines(b, at + |a|)
    ensures AllTerminated(Lines(a, at))
    ensures ValidContentEndOffset(Lines(a, at)) == if a == [] then 0 else at + |a|
    decreases |a|
  {
    hide Position, Complete, AllTerminated, ValidContentEndOffset, Lines;
    if a == [] {
      assert a + b == b;
      NoLines(at);
    } else {
      FirstLine(a);
      var i := Position(a);
      var rest := a[i + 1..];
      LinesStep(a, b, at);
      LinesConcat(rest, b, at + i + 1);
      LineThenRest(Entry(a[..i], at, true), Lines(rest, at + i + 1), |rest|);
    }
  }

  lemma NoLines(at: nat)
    ensures Lines([], at) == [] && AllTerminated([]) && ValidContentEndOffset([]) == 0
  {
  }

  lemma LineThenRest(e: LineEntry, rest: seq<LineEntry>, n: nat)
    requires e.hasNewline && AllTerminated(rest)
    requires ValidContentEndOffset(rest) == if n == 0 then 0 else e.startOffset + e.rawLen + 1 + n
    ensures AllTerminated([e] + rest)
    ensures ValidContentEndOffset([e] + rest) == e.startOffset + e.rawLen + 1 + n
  {
    assert ([e] + rest)[1..] == rest;
  }

  /** At most one line, without newline. */
  lemma TailLines(b: Bytes, at: nat)
    requires NEWLINE !in b
    ensures Lines(b, at) == if b == [] then [] else [Entry(b, at, false)]
  {
    NoNewline(b);
  }

  lemma {:induction false} EndOffsetConcat(a: seq<LineEntry>, b: seq<LineEntry>)
    ensures ValidContentEndOffset(a + b) == Max(ValidContentEndOffset(a), ValidContentEndOffset(b))
  {
    if a == [] {
      assert a + b == b;
    } else {
      assert (a + b)[1..] == a[1..] + b;
      EndOffsetConcat(a[1..], b);
    }
  }

  /** Any file is terminated lines, then at most one line that is not; truncation cuts exactly that one. */
  lemma FileShape(b: Bytes)
    ensures var n := HeadLength(b);
      && Lines(b, 0) == Lines(b[..n], 0) + (if n == |b| then [] else [Entry(b[n..], n, false)])
      && AllTerminated(Lines(b[..n], 0))
      && ValidContentEndOffset(Lines(b, 0)) == n
  {
    hide *;
    var a, t := Parts(b);
    TwoParts(a, t);
  }

  lemma Parts(b: Bytes) returns (a: Bytes, t: Bytes)
    ensures b == a + t && a == b[..HeadLength(b)] && t == b[HeadLength(b)..]
    ensures Complete(a) && NEWLINE !in t && |a| == HeadLength(b)
  {
    hide *;
    a, t := b[..HeadLength(b)], b[HeadLength(b)..];
  }

  lemma TwoParts(a: Bytes, t: Bytes)
    requires Complete(a) && NEWLINE !in t
    ensures Lines(a + t, 0) == Lines(a, 0) + (if t == [] then [] else [Entry(t, |a|, false)])
    ensures AllTerminated(Lines(a, 0))
    ensures ValidContentEndOffset(Lines(a + t, 0)) == |a|
  {
    hide *;
    LinesConcat(a, t, 0);
    TailLines(t, |a|);
    EndOffsetConcat(Lines(a, 0), Lines(t, |a|));
    NoOffset(t, |a|);
    MaxZero(|a|);
  }

  lemma MaxZero(n: nat)
    ensures Max(n, 0) == n
  {
  }

  lemma NoOffset(raw: Bytes, at: nat)
    ensures ValidContentEndOffset([]) == 0 && ValidContentEndOffset([Entry(raw, at, false)]) == 0
  {
    hide Valid;
    assert [Entry(raw, at, false)][1..] == [];
  }

  // ---- loading and repairing ----

  function Repaired<T>(c: Codec<T>, bytes: Bytes, torn: bool): Bytes {
    var lines := Lines(bytes, 0);
    FileShape(bytes);
    if torn then bytes[..ValidContentEndOffset(lines)]
    else if lines == [] then bytes
    else
      var last := lines[|lines| - 1];
      if last.hasNewline || c.trim(last.text) == [] || !last.utf8Ok then bytes else bytes + [NEWLINE]
  }

  datatype Loaded<T> = Loaded(records: seq<T>, file: Bytes)

  /** The records of a log file and the file as the load leaves it. */
  function Load<T>(c: Codec<T>, bytes: Bytes): Result<Loaded<T>, LogError> {
    match ParseAll(c, Lines(bytes, 0))
    case Err(e) => Err(e)
    case Ok(all) => Ok(Loaded(all.records, Repaired(c, bytes, all.torn)))
  }

  method ParseLines<T>(c: Codec<T>, lines: seq<LineEntry>) returns (r: Result<Contents<T>, LogError>)
    ensures r == ParseAll(c, lines)
  {
    hide ParseLogLineStrict, Prepend;
    var records: seq<T> := [];
    var needsTruncate := false;
    PrependNothing(ParseAll(c, lines));
    assert lines[0..] == lines;
    for i := 0 to |lines|
      invariant ParseAll(c, lines) == Prepend(records, needsTruncate, ParseAll(c, lines[i..]))
    {
      var parsed := ParseLogLineStrict(c, lines[i]);
      if parsed.Err? {
        PrependError(records, needsTruncate, parsed.error);
        return Err(parsed.error);
      }
      PrependStep(c, lines[i..], records, needsTruncate);
      assert lines[i..][1..] == lines[i + 1..];
      records := records + if parsed.value.Parsed? then [parsed.value.value] else [];
      needsTruncate := needsTruncate || parsed.value.SkippedCrashTruncated?;
    }
    PrependEnd<T>(records, needsTruncate);
    return Ok(Contents(records, needsTruncate));
  }

  /** OperationStore::new over one log file. */
  method LoadLog<T>(c: Codec<T>, bytes: Bytes) returns (r: Result<Loaded<T>, LogError>)
    ensures r == Load(c, bytes)
  {
    var lines := ReadLines(bytes);
    var all := ParseLines(c, lines);
    if all.Err? {
      return Err(all.error);
    }
    var file;
    if all.value.torn {
      file := TruncateTrailingGarbage(lines, bytes);
    } else {
      file := AppendMissingNewline(c, lines, bytes);
    }
    r := Ok(Loaded(all.value.records, file));
  }

  /** Cut the file after its last terminated line: exactly the unterminated one goes. */
  method TruncateTrailingGarbage(lines: seq<LineEntry>, bytes: Bytes) returns (file: Bytes)
    requires lines == Lines(bytes, 0)
    ensures ValidContentEndOffset(lines) == HeadLength(bytes) && file == bytes[..HeadLength(bytes)]
  {
    hide Lines, HeadLength, ValidContentEndOffset;
    FileShape(bytes);
    var end: nat := 0;
    for i := 0 to |lines|
      invariant ValidContentEndOffset(lines) == Max(end, ValidContentEndOffset(lines[i..]))
    {
      EndOffsetStep(lines[i..]);
      assert lines[i..][1..] == lines[i + 1..];
      if lines[i].hasNewline {
        end := Max(end, lines[i].startOffset + lines[i].rawLen + 1);
      }
    }
    EndOffsetStep([]);
    file := bytes[..end];
  }

  lemma EndOffsetStep(lines: seq<LineEntry>)
    ensures lines == [] ==> ValidContentEndOffset(lines) == 0
    ensures lines != [] && !lines[0].hasNewline ==> ValidContentEndOffset(lines) == ValidContentEndOffset(lines[1..])
    ensures lines != [] && lines[0].hasNewline ==>
      ValidContentEndOffset(lines) == Max(lines[0].startOffset + lines[0].rawLen + 1, ValidContentEndOffset(lines[1..]))
  {
  }

  /** Terminate a last line that holds text; leave every other file alone. */
  method AppendMissingNewline<T>(c: Codec<T>, lines: seq<LineEntry>, bytes: Bytes) returns (file: Bytes)
    requires lines == Lines(bytes, 0)
    ensures file == Repaired(c, bytes, false)
    ensures file == bytes || (file == bytes + [NEWLINE] && !Complete(bytes))
  {
    hide Lines, HeadLength, ValidContentEndOffset;
    FileShape(bytes);
    file := bytes;
    if lines == [] {
      return;
    }
    var last := lines[|lines| - 1];
    if last.hasNewline || c.trim(last.text) == [] || !last.utf8Ok {
      return;
    }
    UnterminatedLast(bytes);
    file := bytes + [NEWLINE];
  }

  lemma UnterminatedLast(bytes: Bytes)
    requires Lines(bytes, 0) != [] && !Lines(bytes, 0)[|Lines(bytes, 0)| - 1].hasNewline
    ensures !Complete(bytes)
  {
    hide Lines, HeadLength, ValidContentEndOffset;
    if Complete(bytes) {
      WholeHead(bytes);
      FileShape(bytes);
      assert false;
    }
  }

  lemma PrependNothing<T>(rest: Result<Contents<T>, LogError>)
    ensures Prepend([], false, rest) == rest
  {
    assert rest.Ok? ==> [] + rest.value.records == rest.value.records;
  }

  lemma PrependError<T>(records: seq<T>, torn: bool, e: LogError)
    ensures Prepend(records, torn, Err(e)) == Err(e)
  {
  }

  lemma PrependEnd<T>(records: seq<T>, torn: bool)
    ensures Prepend(records, torn, Ok(Contents([], false))) == Ok(Contents(records, torn))
  {
    assert records + [] == records;
  }

  function Prepend<T>(records: seq<T>, torn: bool, rest: Result<Contents<T>, LogError>): Result<Contents<T>, LogError> {
    if rest.Err? then rest else Ok(Contents(records + rest.value.records, torn || rest.value.torn))
  }

  lemma PrependStep<T>(c: Codec<T>, lines: seq<LineEntry>, records: seq<T>, torn: bool)
    requires lines != [] && ParseLogLineStrict(c, lines[0]).Ok?
    ensures var p := ParseLogLineStrict(c, lines[0]).value;
      Prepend(records, torn, ParseAll(c, lines))
        == Prepend(records + (if p.Parsed? then [p.value] else []), torn || p.SkippedCrashTruncated?,
            ParseAll(c, lines[1..]))
  {
    hide ParseLogLineStrict;
    var p := ParseLogLineStrict(c, lines[0]).value;
    var one := if p.Parsed? then [p.value] else [];
    var rest := ParseAll(c, lines[1..]);
    assert rest.Ok? ==> records + (one + rest.value.records) == (records + one) + rest.value.records;
  }

  // ---- what a load does to any file ----

  lemma {:induction false} ParseConcat<T>(c: Codec<T>, a: seq<LineEntry>, b: seq<LineEntry>)
    ensures var x := ParseAll(c, a);
      ParseAll(c, a + b) == if x.Err? then x else Prepend(x.value.records, x.value.torn, ParseAll(c, b))
  {
    hide ParseLogLineStrict;
    if a == [] {
      assert a + b == b;
      PrependNothing(ParseAll(c, b));
    } else {
      assert (a + b)[1..] == a[1..] + b;
      ParseConcat(c, a[1..], b);
      var rest := ParseAll(c, a[1..]);
      if ParseLogLineStrict(c, a[0]).Ok? && rest.Ok? && ParseAll(c, b).Ok? {
        var p := ParseLogLineStrict(c, a[0]).value;
        var one := if p.Parsed? then [p.value] else [];
        assert one + (rest.value.records + ParseAll(c, b).value.records)
            == (one + rest.value.records) + ParseAll(c, b).value.records;
      }
    }
  }

  ghost predicate LinesHold<T>(c: Codec<T>, lines: seq<LineEntry>, records: seq<T>) {
    && |records| == |lines|
    && forall i :: 0 <= i < |lines| ==> lines[i].utf8Ok && c.parse(c.trim(lines[i].text)) == Some(records[i])
  }

  /** A terminated line is a record or stops the load; none is skipped. */
  lemma {:induction false} TerminatedLines<T>(c: Codec<T>, lines: seq<LineEntry>)
    requires AllTerminated(lines) && ParseAll(c, lines).Ok?
    ensures !ParseAll(c, lines).value.torn && LinesHold(c, lines, ParseAll(c, lines).value.records)
  {
    if lines != [] {
      TerminatedLines(c, lines[1..]);
    }
  }

  /** What becomes of a last line without newline. */
  function AfterTail<T>(c: Codec<T>, records: seq<T>, head: Bytes, tail: Bytes): Loaded<T> {
    if tail == [] then Loaded(records, head)
    else if !Valid(tail) then Loaded(records, head)
    else if c.trim(tail) == [] then Loaded(records, head + tail)
    else match c.parse(c.trim(tail))
      case Some(v) => Loaded(records + [v], head + tail + [NEWLINE])
      case None => Loaded(records, head)
  }

  lemma LoadShape<T>(c: Codec<T>, b: Bytes)
    ensures var n := HeadLength(b); var x := ParseAll(c, Lines(b[..n], 0));
      Load(c, b) == if x.Err? then Err(x.error) else Ok(AfterTail(c, x.value.records, b[..n], b[n..]))
  {
    hide Lines, HeadLength, Valid, ValidContentEndOffset, ParseAll;
    var n := HeadLength(b);
    FileShape(b);
    var head := Lines(b[..n], 0);
    assert b == b[..n] + b[n..];
    if ParseAll(c, head).Ok? {
      TerminatedLines(c, head);
    }
    if n == |b| {
      assert Lines(b, 0) == head && b[..n] == b;
    } else {
      var e := Entry(b[n..], n, false);
      ParseConcat(c, head, [e]);
      ParseOne(c, e);
      TailRepair(c, b);
      if ParseAll(c, head).Ok? {
        var records := ParseAll(c, head).value.records;
        assert records + [] == records;
      }
    }
  }

  lemma ParseOne<T>(c: Codec<T>, e: LineEntry)
    ensures var p := ParseLogLineStrict(c, e);
      ParseAll(c, [e]) == if p.Err? then Err(p.error)
                          else Ok(Contents(if p.value.Parsed? then [p.value.value] else [],
                              p.value.SkippedCrashTruncated?))
  {
    hide ParseLogLineStrict;
    var p := ParseLogLineStrict(c, e);
    assert [e][1..] == [];
    if p.Ok? {
      var one := if p.value.Parsed? then [p.value.value] else [];
      assert one + [] == one;
    }
  }

  lemma TailRepair<T>(c: Codec<T>, b: Bytes)
    requires HeadLength(b) < |b|
    ensures var n := HeadLength(b); var tail := b[n..];
      && Repaired(c, b, true) == b[..n]
      && Repaired(c, b, false) == if Valid(tail) && c.trim(tail) != [] then b + [NEWLINE] else b
  {
    hide Lines, HeadLength, Valid, ValidContentEndOffset;
    FileShape(b);
  }

  lemma {:induction false} HeadOf(a: Bytes, t: Bytes)
    requires Complete(a) && NEWLINE !in t
    ensures HeadLength(a + t) == |a| && (a + t)[..|a|] == a && (a + t)[|a|..] == t
  {
    if t == [] {
      assert a + t == a;
    } else {
      var n := |t| - 1;
      HeadOf(a, t[..n]);
      assert (a + t)[..|a| + n] == a + t[..n];
      assert (a + t)[|a| + n] == t[n];
    }
  }

  lemma WholeHead(a: Bytes)
    requires Complete(a)
    ensures HeadLength(a) == |a| && a[..|a|] == a && a[|a|..] == []
  {
    hide HeadLength;
    HeadOf(a, []);
    assert a + [] == a;
  }

  /**
   No complete line is ever dropped: if a file loads, each newline-terminated line of it is one of the records, in
   order, and besides those at most one unterminated line is.
   */
  lemma NothingSkipped<T>(c: Codec<T>, b: Bytes)
    requires Load(c, b).Ok?
    ensures var lines := Lines(b[..HeadLength(b)], 0); var records := Load(c, b).value.records;
      |lines| <= |records| <= |lines| + 1 && LinesHold(c, lines, records[..|lines|])
  {
    hide Lines, HeadLength, Valid, ParseAll, Load, LinesHold;
    LoadShape(c, b);
    FileShape(b);
    var lines := Lines(b[..HeadLength(b)], 0);
    TerminatedLines(c, lines);
    HoldLength(c, lines, ParseAll(c, lines).value.records);
    var records := Load(c, b).value.records;
    assert records[..|lines|] == ParseAll(c, lines).value.records;
  }

  lemma HoldLength<T>(c: Codec<T>, lines: seq<LineEntry>, records: seq<T>)
    requires LinesHold(c, lines, records)
    ensures |records| == |lines|
  {
  }

  /** Repairing a repaired file changes nothing, and it loads as the same records: for every file that loads at all. */
  lemma RepairIdempotent<T>(c: Codec<T>, b: Bytes)
    requires Load(c, b).Ok?
    ensures Load(c, Load(c, b).value.file) == Load(c, b)
  {
    hide Lines, HeadLength, Valid, ParseAll, Load;
    LoadShape(c, b);
    var n := HeadLength(b);
    var file := Load(c, b).value.file;
    var head, tail := b[..n], b[n..];
    if file == head {
      WholeHead(head);
      LoadShape(c, head);
    } else if file == head + tail {
      assert file == b;
    } else {
      LineAccepted(c, head, tail);
    }
  }

  /** A tail that parses becomes, with its newline, one more record. */
  lemma LineAccepted<T>(c: Codec<T>, head: Bytes, tail: Bytes)
    requires Complete(head) && NEWLINE !in tail && tail != []
    requires Valid(tail) && c.trim(tail) != [] && c.parse(c.trim(tail)).Some? && ParseAll(c, Lines(head, 0)).Ok?
    ensures var file := head + tail + [NEWLINE];
      Load(c, file) == Ok(Loaded(ParseAll(c, Lines(head, 0)).value.records + [c.parse(c.trim(tail)).value], file))
  {
    hide Lines, HeadLength, Valid, ParseAll, Load;
    var file := head + tail + [NEWLINE];
    var e := Entry(tail, |head|, true);
    WholeHead(file);
    LoadShape(c, file);
    assert file == head + (tail + [NEWLINE]);
    LinesConcat(head, tail + [NEWLINE], 0);
    OneLine(tail, |head|);
    assert Lines(file, 0) == Lines(head, 0) + [e];
    ParseConcat(c, Lines(head, 0), [e]);
    ParseOne(c, e);
    LinesConcat(head, [], 0);
    TerminatedLines(c, Lines(head, 0));
  }

  lemma {:induction false} PositionOfLine(raw: Bytes)
    requires NEWLINE !in raw
    ensures Position(raw + [NEWLINE]) == |raw|
  {
    if raw != [] {
      assert (raw + [NEWLINE])[1..] == raw[1..] + [NEWLINE];
      PositionOfLine(raw[1..]);
    }
  }

  lemma OneLine(raw: Bytes, at: nat)
    requires NEWLINE !in raw
    ensures Lines(raw + [NEWLINE], at) == [Entry(raw, at, true)]
  {
    hide Entry, Position;
    PositionOfLine(raw);
    assert (raw + [NEWLINE])[..|raw|] == raw;
    assert (raw + [NEWLINE])[|raw| + 1..] == [];
  }

  // ---- well-formed logs and torn appends ----

  /** What appending these records one after the other writes. */
  function Log<T>(c: Codec<T>, records: seq<T>): Bytes {
    if records == [] then []
    else Log(c, records[..|records| - 1]) + c.encode(records[|records| - 1]) + [NEWLINE]
  }

  lemma LogAppend<T>(c: Codec<T>, records: seq<T>, r: T)
    ensures Log(c, records + [r]) == Log(c, records) + c.encode(r) + [NEWLINE]
  {
    assert (records + [r])[..|records|] == records;
  }

  /** A well-formed log loads as its records and is left alone. */
  lemma {:induction false} LogLoads<T(!new)>(c: Codec<T>, records: seq<T>)
    requires Lawful(c)
    ensures Complete(Log(c, records))
    ensures ParseAll(c, Lines(Log(c, records), 0)).Ok?
    ensures Load(c, Log(c, records)) == Ok(Loaded(records, Log(c, records)))
    ensures ParseAll(c, Lines(Log(c, records), 0)).value.records == records
  {
    hide Lines, HeadLength, Valid, ParseAll, Load;
    if records == [] {
      EmptyLoads(c);
    } else {
      var n := |records| - 1;
      var r := records[n];
      var head := Log(c, records[..n]);
      LogLoads(c, records[..n]);
      LineAccepted(c, head, c.encode(r));
      assert records[..n] + [r] == records;
      var file := Log(c, records);
      WholeHead(file);
      LoadShape(c, file);
    }
  }

  lemma EmptyLoads<T>(c: Codec<T>)
    ensures Load(c, []) == Ok(Loaded([], [])) && ParseAll(c, Lines([], 0)) == Ok(Contents([], false))
  {
  }

  /** The records a torn append leaves: the new one too if only its newline is missing. */
  function Survivors<T>(c: Codec<T>, records: seq<T>, r: T, k: nat): seq<T> {
    if k >= |c.encode(r)| then records + [r] else records
  }

  /**
   Torn tail: cut an append short after any number of bytes. The load returns exactly the complete records, counting
   one that lacks only its newline, and leaves the well-formed log of those, so the next append adds one record.
   */
  lemma TornTail<T(!new)>(c: Codec<T>, records: seq<T>, r: T, k: nat, next: T)
    requires Lawful(c) && k <= |c.encode(r)| + 1
    ensures var kept := Survivors(c, records, r, k); var file := Log(c, kept);
      && Load(c, Log(c, records) + (c.encode(r) + [NEWLINE])[..k]) == Ok(Loaded(kept, file))
      && Load(c, file) == Ok(Loaded(kept, file))
      && Load(c, file + c.encode(next) + [NEWLINE]) == Ok(Loaded(kept + [next], file + c.encode(next) + [NEWLINE]))
  {
    hide Lines, HeadLength, Valid, ParseAll, Load, Log;
    var kept := Survivors(c, records, r, k);
    LogLoads(c, kept);
    LogLoads(c, kept + [next]);
    LogAppend(c, kept, next);
    LogAppend(c, records, r);
    var head := Log(c, records);
    var line := c.encode(r) + [NEWLINE];
    if k == |line| {
      assert line[..k] == line;
      assert head + line == head + c.encode(r) + [NEWLINE];
    } else {
      LogLoads(c, records);
      assert line[..k] == c.encode(r)[..k];
      TornLoad(c, head, r, k);
      LoadShape(c, head);
      WholeHead(head);
    }
  }

  lemma TornLoad<T(!new)>(c: Codec<T>, head: Bytes, r: T, k: nat)
    requires Lawful(c) && Complete(head) && k <= |c.encode(r)|
    requires ParseAll(c, Lines(head, 0)).Ok?
    ensures var records := ParseAll(c, Lines(head, 0)).value.records;
      Load(c, head + c.encode(r)[..k]) ==
        Ok(if k == |c.encode(r)| then Loaded(records + [r], head + c.encode(r) + [NEWLINE]) else Loaded(records, head))
  {
    hide Lines, HeadLength, Valid, ParseAll, Load;
    var t := c.encode(r)[..k];
    HeadOf(head, t);
    LoadShape(c, head + t);
    assert k == |c.encode(r)| ==> t == c.encode(r);
    if t != [] && k < |c.encode(r)| {
      assert t < c.encode(r);
      assert c.trim(t) <= t && c.trim(t) < c.encode(r);
    }
  }

  /** Any number of torn appends, each followed by a restart: the file is always the log of what survived. */
  function Tears<T>(c: Codec<T>, records: seq<T>, attempts: seq<(T, nat)>): seq<T>
    decreases |attempts|
  {
    if attempts == [] then records
    else Tears(c, Survivors(c, records, attempts[0].0, attempts[0].1), attempts[1..])
  }

  function FileAfter<T>(c: Codec<T>, file: Bytes, attempts: seq<(T, nat)>): Result<Loaded<T>, LogError>
    decreases |attempts|
  {
    if attempts == [] then Load(c, file)
    else
      var line := c.encode(attempts[0].0) + [NEWLINE];
      match Load(c, file + line[..Min(attempts[0].1, |line|)])
      case Err(e) => Err(e)
      case Ok(l) => FileAfter(c, l.file, attempts[1..])
  }

  lemma {:induction false} TearsNeverPoison<T(!new)>(c: Codec<T>, records: seq<T>, attempts: seq<(T, nat)>)
    requires Lawful(c)
    ensures var kept := Tears(c, records, attempts);
      FileAfter(c, Log(c, records), attempts) == Ok(Loaded(kept, Log(c, kept)))
    decreases |attempts|
  {
    hide Lines, HeadLength, Valid, ParseAll, Load, Log;
    if attempts == [] {
      LogLoads(c, records);
    } else {
      var r := attempts[0].0;
      var line := c.encode(r) + [NEWLINE];
      var k := Min(attempts[0].1, |line|);
      TornTail(c, records, r, k, r);
      TearsNeverPoison(c, Survivors(c, records, r, k), attempts[1..]);
    }
  }
}
