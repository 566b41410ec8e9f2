/** What loading a log file means, told by the raw lines of the file (store.rs: OperationStore::new). */
module LogLines {
  import opened Prelude
  import opened Utf8
  import opened LogBytes

  /** Each text, and a newline after it. */
  function Terminated(raws: seq<Bytes>): Bytes {
    if raws == [] then [] else raws[0] + [NEWLINE] + Terminated(raws[1..])
  }

  ghost predicate OneLiners(raws: seq<Bytes>) { forall raw :: raw in raws ==> NEWLINE !in raw }

  /** A line that is a record. */
  predicate Sound<T(==)>(c: Codec<T>, raw: Bytes) { Valid(raw) && c.trim(raw) != [] && c.parse(c.trim(raw)).Some? }

  /** What is wrong with a line that is none. */
  predicate Damaged<T(==)>(c: Codec<T>, raw: Bytes, e: LogError) {
    match e
    case NotUtf8 => !Valid(raw)
    case BlankLine => Valid(raw) && c.trim(raw) == []
    case BadRecord => Valid(raw) && c.trim(raw) != [] && c.parse(c.trim(raw)).None?
  }

  /** Line by line, the records of the first |raws|. */
  ghost predicate Reads<T>(c: Codec<T>, raws: seq<Bytes>, records: seq<T>) {
    && |records| >= |raws|
    && (forall i :: 0 <= i < |raws| ==> Sound(c, raws[i]) && c.parse(c.trim(raws[i])) == Some(records[i]))
  }

  /** Damage in some line, and before it none. */
  ghost predicate Refused<T>(c: Codec<T>, raws: seq<Bytes>, e: LogError) {
    exists i :: 0 <= i < |raws| && Damaged(c, raws[i], e) && forall j :: 0 <= j < i ==> Sound(c, raws[j])
  }

  /** What becomes of an unterminated end. */
  ghost predicate EndsAs<T>(c: Codec<T>, raws: seq<Bytes>, tail: Bytes, l: Loaded<T>) {
    var blank := tail == [] || (Valid(tail) && c.trim(tail) == []);
    && (tail != [] && Sound(c, tail) ==>
          && |l.records| == |raws| + 1 && c.parse(c.trim(tail)) == Some(l.records[|raws|])
          && l.file == Terminated(raws) + tail + [NEWLINE])
    && (tail == [] || !Sound(c, tail) ==> |l.records| == |raws|)
    && (blank ==> l.file == Terminated(raws) + tail)
    && (!blank && !Sound(c, tail) ==> l.file == Terminated(raws))
  }

  /** Every file is terminated lines and at most one that is not. */
  lemma {:induction false} RawLines(b: Bytes) returns (raws: seq<Bytes>, tail: Bytes)
    ensures OneLiners(raws) && NEWLINE !in tail && b == Terminated(raws) + tail
    decreases |b|
  {
    hide Position;
    var i := Position(b);
    if i == |b| {
      raws, tail := [], b;
      assert b[..|b|] == b;
    } else {
      raws, tail := RawLines(b[i + 1..]);
      var rest := Terminated(raws);
      raws := [b[..i]] + raws;
      assert raws[1..] == raws[1..] && b == b[..i] + [NEWLINE] + b[i + 1..];
      assert Terminated(raws) + tail == b[..i] + [NEWLINE] + (rest + tail);
    }
  }

  lemma {:induction false} TerminatedComplete(raws: seq<Bytes>)
    ensures Complete(Terminated(raws))
  {
    if raws != [] {
      TerminatedComplete(raws[1..]);
    }
  }

  /** The first line of a file and the others. */
  lemma FirstOf(raws: seq<Bytes>, at: nat)
    requires raws != [] && OneLiners(raws)
    ensures Lines(Terminated(raws), at) ==
      [Entry(raws[0], at, true)] + Lines(Terminated(raws[1..]), at + |raws[0]| + 1)
    ensures OneLiners(raws[1..])
  {
    hide Lines, Entry;
    assert raws[0] in raws;
    LinesConcat(raws[0] + [NEWLINE], Terminated(raws[1..]), at);
    OneLine(raws[0], at);
  }

  lemma {:induction false} ParseRaws<T>(c: Codec<T>, raws: seq<Bytes>, at: nat)
    requires OneLiners(raws)
    ensures var x := ParseAll(c, Lines(Terminated(raws), at));
      && (x.Ok? ==> Reads(c, raws, x.value.records) && |x.value.records| == |raws| && !x.value.torn)
      && (x.Err? ==> Refused(c, raws, x.error))
    decreases |raws|
  {
    hide Lines, Valid;
    if raws == [] {
      NoLines(at);
    } else {
      FirstOf(raws, at);
      var next := at + |raws[0]| + 1;
      var e, rest := Entry(raws[0], at, true), Lines(Terminated(raws[1..]), next);
      assert ([e] + rest)[1..] == rest;
      hide Terminated;
      ParseRaws(c, raws[1..], next);
      OneThenRest(c, raws, ParseAll(c, rest));
      hide Refused, Reads;
    }
  }

  /** A sound line, then what the others come to; or a damaged one. */
  lemma OneThenRest<T>(c: Codec<T>, raws: seq<Bytes>, others: Result<Contents<T>, LogError>)
    requires raws != []
    ensures forall e :: Damaged(c, raws[0], e) ==> Refused(c, raws, e)
    ensures Sound(c, raws[0]) && others.Err? && Refused(c, raws[1..], others.error) ==> Refused(c, raws, others.error)
    ensures Sound(c, raws[0]) && others.Ok? && Reads(c, raws[1..], others.value.records) ==>
      Reads(c, raws, [c.parse(c.trim(raws[0])).value] + others.value.records)
  {
    hide Valid, Damaged;
    if Sound(c, raws[0]) && others.Err? && Refused(c, raws[1..], others.error) {
      var i :| 0 <= i < |raws[1..]| && Damaged(c, raws[1..][i], others.error)
        && forall j :: 0 <= j < i ==> Sound(c, raws[1..][j]);
      assert Damaged(c, raws[i + 1], others.error);
      assert forall j :: 0 < j < i + 1 ==> raws[j] == raws[1..][j - 1];
    }
  }

  /**
   What loading a file means: it is refused if and only if some terminated line is no record, for what is wrong with
   the first such line; otherwise every terminated line is a record, in order, and what is left at the end is kept,
   terminated and read if it is a record, kept and passed over if it is blank, and cut off if it is neither.
   */
  lemma LoadMeans<T>(c: Codec<T>, raws: seq<Bytes>, tail: Bytes)
    requires OneLiners(raws) && NEWLINE !in tail
    ensures var x := Load(c, Terminated(raws) + tail);
      && (x.Ok? <==> forall raw :: raw in raws ==> Sound(c, raw))
      && (x.Err? ==> Refused(c, raws, x.error))
      && (x.Ok? ==> Reads(c, raws, x.value.records) && EndsAs(c, raws, tail, x.value))
  {
    hide Lines, Valid, ParseAll, Load, Terminated, Reads, Refused;
    var head := Terminated(raws);
    TerminatedComplete(raws);
    HeadOf(head, tail);
    LoadShape(c, head + tail);
    ParseRaws(c, raws, 0);
    var x := ParseAll(c, Lines(head, 0));
    if x.Err? {
      NotAllSound(c, raws, x.error);
    } else {
      AllSound(c, raws, x.value.records);
    }
    if x.Ok? && tail != [] && Sound(c, tail) {
      OneMore(c, raws, x.value.records, c.parse(c.trim(tail)).value);
    }
    assert tail == [] ==> head + tail == head;
  }

  lemma NotAllSound<T>(c: Codec<T>, raws: seq<Bytes>, e: LogError)
    requires Refused(c, raws, e)
    ensures exists raw :: raw in raws && !Sound(c, raw)
  {
    hide Valid;
    var i :| 0 <= i < |raws| && Damaged(c, raws[i], e);
    assert raws[i] in raws && !Sound(c, raws[i]);
  }

  lemma AllSound<T>(c: Codec<T>, raws: seq<Bytes>, records: seq<T>)
    requires Reads(c, raws, records)
    ensures forall raw :: raw in raws ==> Sound(c, raw)
  {
    hide Sound;
  }

  lemma OneMore<T>(c: Codec<T>, raws: seq<Bytes>, records: seq<T>, v: T)
    requires Reads(c, raws, records) && |records| == |raws|
    ensures Reads(c, raws, records + [v])
  {
  }
}
