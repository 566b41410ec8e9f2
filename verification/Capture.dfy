/** Bounded capture of a command's output (exec.rs: OutputCapture, bounded_lossy). */
module Capture {
  import opened Prelude
  import opened Utf8

  const OUTPUT_PREFIX_LIMIT: nat := 4 * 1024
  const OUTPUT_SUFFIX_LIMIT: nat := 12 * 1024
  const U64_MAX: nat := 0xFFFF_FFFF_FFFF_FFFF

  function SaturatingAdd(a: nat, b: nat): nat { Min(a + b, U64_MAX) }

  // ---- lossy decoding ----

  const REPLACEMENT: Bytes := [0xEF, 0xBF, 0xBD]

  /** Length of the ill-formed piece s begins with: the longest start of some character, or one byte. */
  function BadLength(s: Bytes): (n: nat)
    requires s != [] && CharLength(s) == 0
    ensures 1 <= n <= |s| && n <= 3
  {
    if LeadLength(s[0], if |s| > 1 then s[1] else 0) == 0 then 1
    else if |s| > 2 && IsContinuation(s[2]) then 3
    else 2
  }

  /** String::from_utf8_lossy: every ill-formed piece becomes U+FFFD. */
  function Lossy(s: Bytes): Bytes
    decreases |s|
  {
    if s == [] then []
    else if CharLength(s) > 0 then s[..CharLength(s)] + Lossy(s[CharLength(s)..])
    else REPLACEMENT + Lossy(s[BadLength(s)..])
  }

  lemma ReplacementValid()
    ensures Valid(REPLACEMENT)
  {
    assert CharLength(REPLACEMENT) == 3;
    assert REPLACEMENT[3..] == [];
  }

  lemma OneCharValid(s: Bytes)
    requires CharLength(s) > 0
    ensures Valid(s[..CharLength(s)])
  {
    var n := CharLength(s);
    CharLengthPrefix(s, s[..n]);
    assert s[..n][n..] == [];
  }

  /** Lossy decoding yields text, and leaves text alone. */
  lemma {:induction false} LossyValid(s: Bytes)
    ensures Valid(Lossy(s))
    ensures Valid(s) ==> Lossy(s) == s
    ensures |Lossy(s)| <= 3 * |s|
    decreases |s|
  {
    hide Valid, CharLength, BadLength;
    if s == [] {
      EmptyValid();
    } else if CharLength(s) > 0 {
      var n := CharLength(s);
      LossyValid(s[n..]);
      OneCharValid(s);
      ValidConcat(s[..n], Lossy(s[n..]));
      if Valid(s) {
        ValidUncons(s);
        assert s == s[..n] + s[n..];
      }
    } else {
      LossyValid(s[BadLength(s)..]);
      ReplacementValid();
      ValidConcat(REPLACEMENT, Lossy(s[BadLength(s)..]));
      if Valid(s) {
        ValidUncons(s);
      }
    }
  }

  // ---- what lossy decoding keeps and what it replaces ----

  datatype Piece = Char(bytes: Bytes) | Bad(bytes: Bytes)

  /** A beginning of some character, but not all of it. */
  ghost predicate Begins(p: Bytes) { p != [] && exists t :: IsChar(t) && p < t }

  /**
   How decoding takes the first piece of what is left: the character it begins with; failing that, the longest
   beginning of a character, or a single byte where there is none.
   */
  ghost predicate Takes(p: Piece, rest: Bytes) {
    && p.bytes <= rest
    && (p.Char? ==> IsChar(p.bytes))
    && (p.Bad? ==>
          && (forall n :: 0 <= n <= |rest| ==> !IsChar(rest[..n]))
          && (Begins(p.bytes) || |p.bytes| == 1)
          && (forall n :: |p.bytes| < n <= |rest| ==> !Begins(rest[..n])))
  }

  /** Characters as they are, U+FFFD once for every other piece. */
  function Shown(pieces: seq<Piece>): Bytes {
    if pieces == [] then []
    else (if pieces[0].Char? then pieces[0].bytes else Encode(0xFFFD)) + Shown(pieces[1..])
  }

  /** One piece after the other, until nothing is left. */
  ghost predicate Takings(pieces: seq<Piece>, s: Bytes) {
    if pieces == [] then s == []
    else Takes(pieces[0], s) && Takings(pieces[1..], s[|pieces[0].bytes|..])
  }

  lemma TakesOne(s: Bytes) returns (p: Piece)
    requires s != []
    ensures Takes(p, s) && p.bytes != []
    ensures p == if CharLength(s) > 0 then Char(s[..CharLength(s)]) else Bad(s[..BadLength(s)])
  {
    hide CharLength, BadLength;
    CharLengthIff(s);
    if CharLength(s) > 0 {
      p := Char(s[..CharLength(s)]);
    } else {
      p := Bad(s[..BadLength(s)]);
      BadTaken(s);
    }
  }

  lemma BadTaken(s: Bytes)
    requires s != [] && CharLength(s) == 0
    ensures var n := BadLength(s); (Begins(s[..n]) || n == 1) && forall k :: n < k <= |s| ==> !Begins(s[..k])
  {
    hide Begins, CharLength, IsChar;
    BadBegins(s);
    forall k | BadLength(s) < k <= |s| ensures !Begins(s[..k]) {
      BadMaximal(s, k);
    }
  }

  lemma BadBegins(s: Bytes)
    requires s != [] && CharLength(s) == 0
    ensures Begins(s[..BadLength(s)]) || BadLength(s) == 1
  {
    hide IsChar;
    var n := BadLength(s);
    if n > 1 {
      var rest: Bytes := if n == 3 || LeadLength(s[0], s[1]) == 3 then [0x80] else [0x80, 0x80];
      var t := s[..n] + rest;
      assert CharLength(t) == |t|;
      IsCharIff(t);
      assert s[..n] < t;
    }
  }

  lemma BadMaximal(s: Bytes, k: nat)
    requires s != [] && CharLength(s) == 0 && BadLength(s) < k <= |s|
    ensures !Begins(s[..k])
  {
    hide IsChar;
    if Begins(s[..k]) {
      var t :| IsChar(t) && s[..k] < t;
      SameStart(s, k, t);
      IsCharIff(t);
      assert false;
    }
  }

  lemma SameStart(s: Bytes, k: nat, t: Bytes)
    requires k <= |s| && s[..k] <= t
    ensures forall i :: 0 <= i < k ==> t[i] == s[i]
  {
    assert forall i :: 0 <= i < k ==> t[i] == s[..k][i];
  }

  lemma ReplacementEncoded()
    ensures Encode(0xFFFD) == REPLACEMENT
  {
  }

  /**
   Decoding takes the bytes apart into pieces, none lost: every character comes through, in order, and each piece that
   is none comes through as one U+FFFD.
   */
  lemma {:induction false} LossyPieces(s: Bytes) returns (pieces: seq<Piece>)
    ensures Takings(pieces, s) && Lossy(s) == Shown(pieces)
    decreases |s|
  {
    hide Takes, CharLength, BadLength, Encode;
    pieces := [];
    if s != [] {
      ReplacementEncoded();
      var p := TakesOne(s);
      hide REPLACEMENT;
      var rest := LossyPieces(s[|p.bytes|..]);
      pieces := [p] + rest;
      assert pieces[1..] == rest;
    }
  }

  /** There is one way to take bytes apart. */
  lemma {:induction false} TakingsUnique(a: seq<Piece>, b: seq<Piece>, s: Bytes)
    requires Takings(a, s) && Takings(b, s)
    ensures a == b
    decreases |a|
  {
    hide Takes;
    if a != [] && b != [] {
      TakesSame(a[0], b[0], s);
      TakingsUnique(a[1..], b[1..], s[|a[0].bytes|..]);
      assert a == [a[0]] + a[1..] && b == [b[0]] + b[1..];
    } else if a != [] {
      TakesSome(a[0], s);
    } else if b != [] {
      TakesSome(b[0], s);
    }
  }

  lemma TakesSome(p: Piece, s: Bytes)
    requires Takes(p, s)
    ensures p.bytes != [] && s != []
  {
    hide IsChar;
    IsCharIff(p.bytes);
  }

  lemma TakesSame(p: Piece, q: Piece, s: Bytes)
    requires Takes(p, s) && Takes(q, s)
    ensures p == q && p.bytes <= s
  {
    hide IsChar, Begins;
    CharLengthIff(s);
    assert p.bytes == s[..|p.bytes|] && q.bytes == s[..|q.bytes|];
    if p.Bad? && q.Bad? {
      TakesSome(p, s);
      TakesSome(q, s);
    }
  }

  /** The last character boundary at or before i. */
  function BoundaryBefore(s: Bytes, i: nat): (j: nat)
    requires i <= |s|
    ensures j <= i && IsBoundary(s, j) && forall k :: j < k <= i ==> !IsBoundary(s, k)
  {
    if IsBoundary(s, i) then i else BoundaryBefore(s, i - 1)
  }

  function BoundedLossy(bytes: Bytes, limit: nat): Bytes {
    var text := Lossy(bytes);
    if |text| > limit then text[..BoundaryBefore(text, limit)] else text
  }

  method BoundedLossyLoop(bytes: Bytes, limit: nat) returns (text: Bytes)
    ensures text == BoundedLossy(bytes, limit)
  {
    hide Lossy;
    text := Lossy(bytes);
    if |text| > limit {
      var end: nat := limit;
      while end > 0 && !IsBoundary(text, end)
        invariant end <= limit && BoundaryBefore(text, limit) == BoundaryBefore(text, end)
      {
        end := end - 1;
      }
      text := text[..end];
    }
  }

  /** The result is text, within the limit, the longest such beginning of the decoded bytes; short text is untouched. */
  lemma BoundedLossyFacts(bytes: Bytes, limit: nat)
    ensures var t := BoundedLossy(bytes, limit);
      && Valid(t) && |t| <= limit && t <= Lossy(bytes)
      && (forall k :: |t| < k <= limit && k <= |Lossy(bytes)| ==> !IsBoundary(Lossy(bytes), k))
      && (Valid(bytes) && |bytes| <= limit ==> t == bytes)
  {
    hide Lossy, Valid;
    LossyValid(bytes);
    var text := Lossy(bytes);
    if |text| > limit {
      ValidSplit(text, BoundaryBefore(text, limit));
    }
  }

  // ---- head and tail ----

  function Head(all: Bytes): Bytes { all[..Min(OUTPUT_PREFIX_LIMIT, |all|)] }

  function Last(s: Bytes, n: nat): Bytes { if |s| > n then s[|s| - n..] else s }

  function Tail(all: Bytes): Bytes { Last(all[Min(OUTPUT_PREFIX_LIMIT, |all|)..], OUTPUT_SUFFIX_LIMIT) }

  datatype ExecOutput = ExecOutput(prefix: Bytes, suffix: Bytes, totalBytes: nat, omittedBytes: nat)

  class OutputCapture {
    var prefix: Bytes
    var suffix: Bytes
    var totalBytes: nat
    ghost var all: Bytes      // everything pushed so far

    ghost predicate Valid()
      reads this
    {
      prefix == Head(all) && suffix == Tail(all) && totalBytes == Min(|all|, U64_MAX)
    }

    constructor ()
      ensures Valid() && all == []
    {
      prefix, suffix, totalBytes, all := [], [], 0, [];
    }

    method Push(bytes: Bytes)
      requires Valid()
      modifies this
      ensures Valid() && all == old(all) + bytes
    {
      totalBytes := SaturatingAdd(totalBytes, |bytes|);
      var prefixLen := Min(OUTPUT_PREFIX_LIMIT - |prefix|, |bytes|);
      HeadGrows(all, bytes);
      prefix := prefix + bytes[..prefixLen];
      var rest := bytes[prefixLen..];
      ghost var tail := old(all)[|old(prefix)|..];
      for i := 0 to |rest|
        invariant suffix == Last(tail + rest[..i], OUTPUT_SUFFIX_LIMIT)
        invariant prefix == Head(old(all) + bytes) && all == old(all)
        invariant totalBytes == Min(|old(all)| + |bytes|, U64_MAX)
      {
        LastPush(tail + rest[..i], rest[i]);
        assert tail + rest[..i + 1] == (tail + rest[..i]) + [rest[i]];
        if |suffix| == OUTPUT_SUFFIX_LIMIT {
          suffix := suffix[1..];
        }
        suffix := suffix + [rest[i]];
      }
      all := all + bytes;
      assert rest[..|rest|] == rest;
      TailGrows(old(all), bytes);
    }

    method Finish() returns (o: ExecOutput)
      requires Valid()
      ensures o.prefix == BoundedLossy(Head(all), OUTPUT_PREFIX_LIMIT)
      ensures o.suffix == BoundedLossy(Tail(all), OUTPUT_SUFFIX_LIMIT)
      ensures o.totalBytes == Min(|all|, U64_MAX)
      ensures |all| <= U64_MAX ==> |Head(all)| + |Tail(all)| + o.omittedBytes == o.totalBytes
    {
      hide BoundedLossy;
      HeadTail(all);
      var kept := |prefix| + |suffix|;
      var p := BoundedLossyLoop(prefix, OUTPUT_PREFIX_LIMIT);
      var s := BoundedLossyLoop(suffix, OUTPUT_SUFFIX_LIMIT);
      o := ExecOutput(p, s, totalBytes, if totalBytes > kept then totalBytes - kept else 0);
    }
  }

  lemma LastPush(s: Bytes, b: byte)
    ensures var t := Last(s, OUTPUT_SUFFIX_LIMIT);
      Last(s + [b], OUTPUT_SUFFIX_LIMIT) == (if |t| == OUTPUT_SUFFIX_LIMIT then t[1..] else t) + [b]
  {
  }

  lemma HeadGrows(all: Bytes, bytes: Bytes)
    ensures Head(all + bytes) == Head(all) + bytes[..Min(OUTPUT_PREFIX_LIMIT - |Head(all)|, |bytes|)]
  {
  }

  lemma TailGrows(all: Bytes, bytes: Bytes)
    ensures var n := Min(OUTPUT_PREFIX_LIMIT - |Head(all)|, |bytes|);
      Tail(all + bytes) == Last(all[|Head(all)|..] + bytes[n..], OUTPUT_SUFFIX_LIMIT)
  {
    var n := Min(OUTPUT_PREFIX_LIMIT - |Head(all)|, |bytes|);
    assert (all + bytes)[Min(OUTPUT_PREFIX_LIMIT, |all + bytes|)..] == all[|Head(all)|..] + bytes[n..];
  }

  /** What is kept: the first 4096 bytes and the last 12288 of the rest; everything, exactly when nothing is omitted. */
  lemma HeadTail(all: Bytes)
    ensures Head(all) <= all && |Head(all)| == Min(4096, |all|)
    ensures |Tail(all)| == Min(12288, |all| - |Head(all)|)
    ensures Tail(all) == all[|all| - |Tail(all)|..]
    ensures |Head(all)| + |Tail(all)| == |all| <==> |all| <= 16384
    ensures |Head(all)| + |Tail(all)| == |all| <==> Head(all) + Tail(all) == all
  {
    if |all| <= OUTPUT_PREFIX_LIMIT + OUTPUT_SUFFIX_LIMIT {
      assert all == all[..|Head(all)|] + all[|Head(all)|..];
    }
  }

  function Flatten(chunks: seq<Bytes>): Bytes {
    if chunks == [] then [] else Flatten(chunks[..|chunks| - 1]) + chunks[|chunks| - 1]
  }

  /** Chunking does not matter, and short text comes back whole. */
  method CaptureAll(chunks: seq<Bytes>) returns (o: ExecOutput)
    ensures var all := Flatten(chunks);
      && o.prefix == BoundedLossy(Head(all), 4096)
      && o.suffix == BoundedLossy(Tail(all), 12288)
      && o.totalBytes == Min(|all|, 0xFFFF_FFFF_FFFF_FFFF)
      && (|all| <= 0xFFFF_FFFF_FFFF_FFFF ==> |Head(all)| + |Tail(all)| + o.omittedBytes == |all|)
      && (Utf8.Valid(all) && |all| <= OUTPUT_PREFIX_LIMIT ==> o == ExecOutput(all, [], |all|, 0))
  {
    hide BoundedLossy, Utf8.Valid;
    var capture := new OutputCapture();
    for i := 0 to |chunks|
      invariant capture.Valid() && capture.all == Flatten(chunks[..i])
    {
      capture.Push(chunks[i]);
      assert chunks[..i + 1][..i] == chunks[..i];
    }
    assert chunks[..|chunks|] == chunks;
    o := capture.Finish();
    if Utf8.Valid(Flatten(chunks)) && |Flatten(chunks)| <= OUTPUT_PREFIX_LIMIT {
      SmallOutputWhole(Flatten(chunks));
    }
  }

  /** Small text comes back whole. */
  lemma SmallOutputWhole(all: Bytes)
    requires Utf8.Valid(all) && |all| <= OUTPUT_PREFIX_LIMIT
    ensures BoundedLossy(Head(all), OUTPUT_PREFIX_LIMIT) == all && BoundedLossy(Tail(all), OUTPUT_SUFFIX_LIMIT) == []
  {
    BoundedLossyFacts(all, OUTPUT_PREFIX_LIMIT);
    BoundedLossyFacts([], OUTPUT_SUFFIX_LIMIT);
    assert Head(all) == all;
  }
}
