/**
 Downloads on the wire: a JSON header line with the size, exactly that many raw bytes, a JSON trailer line with the
 hash (agent-remote-server transfer.rs: run_transfer_send; agent-remote-client transfer.rs: receive_stream).
 */
module Framing {
  import opened Prelude
  import opened Protocol
  import opened Utf8
  import opened LogBytes

  const TRANSFER_BUF_SIZE: nat := 64 * 1024

  datatype Codecs = Codecs(header: Codec<nat>, trailer: Codec<Hash>)

  ghost predicate LawfulLine<T(!new)>(c: Codec<T>) {
    Lawful(c) && c.trim([]) == [] && forall r: T :: c.trim(c.encode(r) + [NEWLINE]) == c.encode(r)
  }

  ghost predicate LawfulCodecs(c: Codecs) {
    LawfulLine(c.header) && LawfulLine(c.trailer)
  }

  /** How many of the wanted bytes the k-th read returns: at least one, if there are any. */
  function ReadSize(chunks: nat -> nat, k: nat, wanted: nat, available: nat): (n: nat)
    ensures n <= wanted && n <= available && (n == 0 <==> wanted == 0 || available == 0)
  {
    Min(Min(wanted, available), Max(1, chunks(k)))
  }

  // ---- the sender ----

  function HeaderLine(c: Codecs, size: nat): Bytes { c.header.encode(size) + [NEWLINE] }

  function TrailerLine(c: Codecs, hash: Hash): Bytes { c.trailer.encode(hash) + [NEWLINE] }

  function Framed(c: Codecs, content: Bytes): Bytes {
    HeaderLine(c, |content|) + content + TrailerLine(c, Digest(content))
  }

  /** `size` is the length the file had when it was looked up, `file` what reading it yields. */
  method TransferSend(c: Codecs, size: nat, file: Bytes, chunks: nat -> nat) returns (out: Bytes, shrank: bool)
    ensures shrank <==> |file| < size
    ensures out == if shrank then HeaderLine(c, size) + file else Framed(c, file[..size])
  {
    out := HeaderLine(c, size);
    var hashed: Bytes := [];
    var remaining: nat := size;
    var k: nat := 0;
    while remaining > 0
      invariant |hashed| == size - remaining <= |file| && hashed == file[..|hashed|]
      invariant out == HeaderLine(c, size) + hashed
      decreases remaining
    {
      var want := Min(remaining, TRANSFER_BUF_SIZE);
      var pos := |hashed|;
      var n := ReadSize(chunks, k, want, |file| - pos);
      if n == 0 {
        assert hashed == file;
        return out, true;
      }
      hashed := hashed + file[pos..pos + n];
      out := out + file[pos..pos + n];
      remaining := remaining - n;
      k := k + 1;
    }
    assert hashed == file[..size] && |file[..size]| == size;
    out := out + TrailerLine(c, Digest(hashed));
    shrank := false;
  }

  // ---- the receiver ----

  datatype TransferError = NotText | NoHeader | BadHeader | EndedEarly | BadTrailer | HashMismatch

  /** Bytes up to and including the first newline, or all of them. */
  function LineLength(s: Bytes): (n: nat)
    ensures n <= |s|
  {
    if Position(s) < |s| then Position(s) + 1 else |s|
  }

  datatype Received = Received(size: nat, hash: Hash, content: Bytes)

  function ReceiveTrailer(c: Codecs, size: nat, content: Bytes, rest: Bytes): Result<Received, TransferError> {
    var line := rest[..LineLength(rest)];
    if !Valid(line) then Err(NotText)
    else match c.trailer.parse(c.trailer.trim(line))
      case None => Err(BadTrailer)
      case Some(hash) => if hash != Digest(content) then Err(HashMismatch) else Ok(Received(size, hash, content))
  }

  function Receive(c: Codecs, stream: Bytes): Result<Received, TransferError> {
    var n := LineLength(stream);
    var line, rest := stream[..n], stream[n..];
    if !Valid(line) then Err(NotText)
    else if c.header.trim(line) == [] then Err(NoHeader)
    else match c.header.parse(c.header.trim(line))
      case None => Err(BadHeader)
      case Some(size) =>
        if |rest| < size then Err(EndedEarly)
        else ReceiveTrailer(c, size, rest[..size], rest[size..])
  }

  method ReceiveStream(c: Codecs, stream: Bytes, chunks: nat -> nat) returns (r: Result<Received, TransferError>)
    ensures r == Receive(c, stream)
  {
    hide Valid, ReceiveTrailer, LineLength;
    var n := LineLength(stream);
    var line := stream[..n];
    if !Valid(line) { return Err(NotText); }
    if c.header.trim(line) == [] { return Err(NoHeader); }
    var header := c.header.parse(c.header.trim(line));
    if header.None? { return Err(BadHeader); }
    var rest := stream[n..];
    var out: Bytes := [];
    var remaining: nat := header.value;
    var k: nat := 0;
    while remaining > 0
      invariant |out| == header.value - remaining <= |rest| && out == rest[..|out|]
      decreases remaining
    {
      var want := Min(remaining, TRANSFER_BUF_SIZE);
      var pos := |out|;
      var m := ReadSize(chunks, k, want, |rest| - pos);
      if m == 0 {
        return Err(EndedEarly);
      }
      out := out + rest[pos..pos + m];
      remaining := remaining - m;
      k := k + 1;
    }
    assert out == rest[..header.value];
    r := ReceiveTrailer(c, header.value, out, rest[header.value..]);
  }

  // ---- what receiving means ----

  /** Up to and including the first newline, or all there is. */
  ghost predicate FirstLine(s: Bytes, line: Bytes) {
    && line <= s
    && (if NEWLINE in line then NEWLINE !in line[..|line| - 1] && line[|line| - 1] == NEWLINE else line == s)
  }

  lemma FirstLineLength(s: Bytes, line: Bytes)
    requires FirstLine(s, line)
    ensures LineLength(s) == |line|
  {
    hide Position;
    if NEWLINE in line {
      PositionOfLine(line[..|line| - 1]);
      assert line == line[..|line| - 1] + [NEWLINE];
      PositionOfConcat(line, s[|line|..]);
      assert s == line + s[|line|..];
    } else {
      NoNewline(s);
    }
  }

  /** Every stream has one first line. */
  lemma OneFirstLine(s: Bytes, line: Bytes)
    ensures FirstLine(s, line) <==> line == s[..LineLength(s)]
  {
    hide Position;
    if FirstLine(s, line) {
      FirstLineLength(s, line);
    }
  }

  /**
   Which streams are received, and with which error the others are refused: a header line that reads as a size, that
   many bytes, and a line that reads as their hash. What follows is not looked at.
   */
  lemma ReceiveMeans(c: Codecs, stream: Bytes, line: Bytes)
    requires FirstLine(stream, line)
    ensures var r := Receive(c, stream); var rest := stream[|line|..]; var text := c.header.trim(line);
      && (!Valid(line) ==> r == Err(NotText))
      && (Valid(line) && text == [] ==> r == Err(NoHeader))
      && (Valid(line) && text != [] && c.header.parse(text).None? ==> r == Err(BadHeader))
      && (Valid(line) && text != [] && c.header.parse(text).Some? && |rest| < c.header.parse(text).value ==>
            r == Err(EndedEarly))
      && (Valid(line) && text != [] && c.header.parse(text).Some? && |rest| >= c.header.parse(text).value ==>
            var size := c.header.parse(text).value; forall last :: FirstLine(rest[size..], last) ==>
              EndsAs(c, size, rest[..size], last, r))
  {
    hide Valid, ReceiveTrailer, LineLength, FirstLine, EndsAs;
    FirstLineLength(stream, line);
    StartsWith(stream, line);
    var rest := stream[|line|..];
    var text := c.header.trim(line);
    if Valid(line) && text != [] && c.header.parse(text).Some? && |rest| >= c.header.parse(text).value {
      var size := c.header.parse(text).value;
      forall last | FirstLine(rest[size..], last) ensures EndsAs(c, size, rest[..size], last, Receive(c, stream)) {
        TrailerMeans(c, size, rest[..size], rest[size..], last);
      }
    }
  }

  lemma StartsWith(s: Bytes, line: Bytes)
    requires FirstLine(s, line)
    ensures |line| <= |s| && s[..|line|] == line
  {
  }

  /** The outcome, given the size announced, the bytes that came and the line after them. */
  ghost predicate EndsAs(c: Codecs, size: nat, content: Bytes, last: Bytes, r: Result<Received, TransferError>) {
    var hash := c.trailer.parse(c.trailer.trim(last));
    && (r == Err(NotText) <==> !Valid(last))
    && (r == Err(BadTrailer) <==> Valid(last) && hash.None?)
    && (r == Err(HashMismatch) <==> Valid(last) && hash.Some? && hash != Some(Digest(content)))
    && (r.Ok? <==> Valid(last) && hash == Some(Digest(content)))
    && (r.Ok? ==> r.value == Received(size, Digest(content), content))
  }

  lemma TrailerMeans(c: Codecs, size: nat, content: Bytes, rest: Bytes, last: Bytes)
    requires FirstLine(rest, last)
    ensures EndsAs(c, size, content, last, ReceiveTrailer(c, size, content, rest))
  {
    hide Valid, LineLength, FirstLine;
    FirstLineLength(rest, last);
    StartsWith(rest, last);
  }

  // ---- theorems ----

  /** A line that is there is read whole, and what follows is untouched. */
  lemma LineOf<T(!new)>(c: Codec<T>, v: T, rest: Bytes)
    requires LawfulLine(c)
    ensures var line := c.encode(v) + [NEWLINE]; var s := line + rest;
      LineLength(s) == |line| && s[..|line|] == line && s[|line|..] == rest
    ensures Valid(c.encode(v) + [NEWLINE])
  {
    hide Position, Valid;
    PositionOfLine(c.encode(v));
    PositionOfConcat(c.encode(v) + [NEWLINE], rest);
    NewlineValid();
    ValidConcat(c.encode(v), [NEWLINE]);
  }

  lemma NewlineValid()
    ensures Valid([NEWLINE])
  {
    assert CharLength([NEWLINE]) == 1;
    assert [NEWLINE][1..] == [];
  }

  /** A line cut short of its newline is read as far as it goes. */
  lemma CutLine<T(!new)>(c: Codec<T>, v: T, k: nat)
    requires LawfulLine(c) && k <= |c.encode(v)|
    ensures var s := c.encode(v)[..k]; LineLength(s) == |s| && s[..|s|] == s && s[|s|..] == []
    ensures var s := c.encode(v)[..k];
      k < |c.encode(v)| ==> c.parse(c.trim(s)) == None
  {
    var s := c.encode(v)[..k];
    NoNewline(s);
    if k < |c.encode(v)| && s != [] {
      assert s < c.encode(v);
      assert c.trim(s) <= s && c.trim(s) < c.encode(v);
    }
    if s == [] {
      assert [] < c.encode(v);
    }
  }

  lemma ReceiveBody(c: Codecs, size: nat, body: Bytes)
    requires LawfulCodecs(c)
    ensures Receive(c, HeaderLine(c, size) + body) ==
      if |body| < size then Err(EndedEarly) else ReceiveTrailer(c, size, body[..size], body[size..])
  {
    hide Valid, ReceiveTrailer, LineLength;
    LineOf(c.header, size, body);
  }

  lemma WholeTrailer(c: Codecs, size: nat, content: Bytes, hash: Hash)
    requires LawfulCodecs(c)
    ensures ReceiveTrailer(c, size, content, TrailerLine(c, hash))
         == if hash != Digest(content) then Err(HashMismatch) else Ok(Received(size, hash, content))
  {
    hide Valid, LineLength;
    LineOf(c.trailer, hash, []);
    assert TrailerLine(c, hash) + [] == TrailerLine(c, hash);
  }

  /**
   Round trip: whatever the chunking on either side, the receiver ends up with exactly the file, its size and hash.
   */
  lemma RoundTrip(c: Codecs, content: Bytes)
    requires LawfulCodecs(c)
    ensures Receive(c, Framed(c, content)) == Ok(Received(|content|, Digest(content), content))
  {
    hide Valid, LineLength, ReceiveTrailer, Receive, Lawful;
    var body := content + TrailerLine(c, Digest(content));
    assert Framed(c, content) == HeaderLine(c, |content|) + body;
    ReceiveBody(c, |content|, body);
    assert body[..|content|] == content && body[|content|..] == TrailerLine(c, Digest(content));
    WholeTrailer(c, |content|, content, Digest(content));
  }

  lemma CutTrailer(c: Codecs, size: nat, content: Bytes, hash: Hash, k: nat)
    requires LawfulCodecs(c) && k <= |c.trailer.encode(hash)|
    ensures ReceiveTrailer(c, size, content, c.trailer.encode(hash)[..k]).Ok? <==>
        k == |c.trailer.encode(hash)| && hash == Digest(content)
  {
    hide Valid, LineLength;
    CutLine(c.trailer, hash, k);
    assert c.trailer.encode(hash)[..|c.trailer.encode(hash)|] == c.trailer.encode(hash);
  }

  lemma CutHeader(c: Codecs, size: nat, k: nat)
    requires LawfulCodecs(c) && k <= |c.header.encode(size)|
    ensures Receive(c, c.header.encode(size)[..k]).Err?
  {
    hide Valid, LineLength;
    var s := c.header.encode(size)[..k];
    CutLine(c.header, size, k);
    EmptyTrailer(c, []);
    if k == |c.header.encode(size)| {
      assert s == c.header.encode(size);
    }
  }

  lemma EmptyTrailer(c: Codecs, content: Bytes)
    requires LawfulCodecs(c)
    ensures forall size: nat :: ReceiveTrailer(c, size, content, []).Err?
  {
    hide Valid;
    assert [] < c.trailer.encode(Digest(content));
    var none: Bytes := [];
    assert none[..0] == none;
  }

  /**
   A stream cut anywhere into or before the trailer's JSON is rejected; only the final newline may be missing.
   */
  lemma PrefixAccepted(c: Codecs, content: Bytes, k: nat)
    requires LawfulCodecs(c) && k <= |Framed(c, content)|
    ensures Receive(c, Framed(c, content)[..k]).Ok? <==> k >= |Framed(c, content)| - 1
  {
    hide Valid, LineLength, ReceiveTrailer, Receive, Lawful;
    var whole := Framed(c, content);
    var h := HeaderLine(c, |content|);
    var t := c.trailer.encode(Digest(content));
    if k < |h| {
      assert whole[..k] == c.header.encode(|content|)[..k];
      CutHeader(c, |content|, k);
    } else if k < |h| + |content| {
      assert whole[..k] == h + content[..k - |h|];
      ReceiveBody(c, |content|, content[..k - |h|]);
    } else if k < |whole| {
      var j := k - |h| - |content|;
      var body := content + t[..j];
      assert whole[..k] == h + body;
      ReceiveBody(c, |content|, body);
      assert body[..|content|] == content && body[|content|..] == t[..j];
      CutTrailer(c, |content|, content, Digest(content), j);
    } else {
      assert whole[..k] == whole;
      RoundTrip(c, content);
    }
  }

  /** Bytes changed on the way never pass: the same frame around other content of that length is refused. */
  lemma TamperDetected(c: Codecs, sent: Bytes, arrived: Bytes)
    requires LawfulCodecs(c) && |sent| == |arrived| && sent != arrived
    ensures Receive(c, HeaderLine(c, |sent|) + arrived + TrailerLine(c, Digest(sent))) == Err(HashMismatch)
  {
    hide Valid, LineLength, ReceiveTrailer, Receive, Lawful;
    var body := arrived + TrailerLine(c, Digest(sent));
    assert HeaderLine(c, |sent|) + arrived + TrailerLine(c, Digest(sent)) == HeaderLine(c, |sent|) + body;
    ReceiveBody(c, |sent|, body);
    assert body[..|sent|] == arrived && body[|sent|..] == TrailerLine(c, Digest(sent));
    WholeTrailer(c, |sent|, arrived, Digest(sent));
  }

  /** A sender whose file shrank under it is never taken for a complete download. */
  lemma ShrunkRejected(c: Codecs, size: nat, file: Bytes)
    requires LawfulCodecs(c) && |file| < size
    ensures Receive(c, HeaderLine(c, size) + file) == Err(EndedEarly)
  {
    hide Valid, LineLength, ReceiveTrailer, Receive, Lawful;
    ReceiveBody(c, size, file);
  }

  // ---- the laws can be met ----

  function Ones(n: nat): Bytes { if n == 0 then [] else Ones(n - 1) + [0x31] }

  function Braced(n: nat): Bytes { [0x7B] + Ones(n) + [0x7D] }

  function ParseBraced(b: Bytes): Option<nat> { if |b| >= 2 && b == Braced(|b| - 2) then Some(|b| - 2) else None }

  function TrimNewline(b: Bytes): Bytes { if b != [] && b[|b| - 1] == NEWLINE then b[..|b| - 1] else b }

  lemma {:induction false} OnesFacts(n: nat)
    ensures |Ones(n)| == n && NEWLINE !in Ones(n) && 0x7D !in Ones(n) && Valid(Ones(n))
  {
    if n == 0 {
      EmptyValid();
    } else {
      OnesFacts(n - 1);
      AsciiValid(0x31);
      ValidConcat(Ones(n - 1), [0x31]);
    }
  }

  lemma AsciiValid(b: byte)
    requires b < 0x80
    ensures Valid([b])
  {
    assert CharLength([b]) == 1;
    assert [b][1..] == [];
  }

  lemma BracedFacts(n: nat)
    ensures |Braced(n)| == n + 2 && NEWLINE !in Braced(n) && Valid(Braced(n))
    ensures forall p: Bytes :: p < Braced(n) ==> ParseBraced(p) == None
    ensures TrimNewline(Braced(n) + [NEWLINE]) == Braced(n)
  {
    hide Valid;
    OnesFacts(n);
    AsciiValid(0x7B);
    AsciiValid(0x7D);
    ValidConcat([0x7B], Ones(n));
    ValidConcat([0x7B] + Ones(n), [0x7D]);
    assert (Braced(n) + [NEWLINE])[..n + 2] == Braced(n);
    forall p: Bytes | p < Braced(n) ensures ParseBraced(p) == None {
      if |p| >= 2 {
        assert p[|p| - 1] == Ones(n)[|p| - 2];
        OnesFacts(|p| - 2);
      }
    }
  }

  function ParseNumbered<T>(value: nat -> Option<T>, b: Bytes): Option<T> {
    match ParseBraced(b)
    case None => None
    case Some(n) => value(n)
  }

  /** Values as their numbers, in unary between braces. */
  function Numbered<T>(number: T -> nat, value: nat -> Option<T>): Codec<T> {
    Codec(v => Braced(number(v)), b => ParseNumbered(value, b), TrimNewline)
  }

  /** The laws, one value at a time. */
  ghost predicate LawfulFor<T>(c: Codec<T>, v: T) {
    var b := c.encode(v);
    && Valid(b) && NEWLINE !in b && b != [] && c.parse(b) == Some(v) && c.trim(b) == b && c.trim(b + [NEWLINE]) == b
    && (forall p: Bytes :: p < b ==> c.parse(p) == None)
    && (forall p: Bytes :: p <= b && p != [] ==> c.trim(p) != [] && c.trim(p) <= p)
  }

  lemma LawfulByValue<T(!new)>(c: Codec<T>)
    requires c.trim([]) == [] && forall v :: LawfulFor(c, v)
    ensures LawfulLine(c)
  {
    hide Valid;
    assert forall v: T :: LawfulFor(c, v) ==> c.trim(c.encode(v) + [NEWLINE]) == c.encode(v);
    forall v: T
      ensures Valid(c.encode(v)) && NEWLINE !in c.encode(v) && c.encode(v) != []
      ensures c.parse(c.encode(v)) == Some(v) && c.trim(c.encode(v)) == c.encode(v)
      ensures forall p: Bytes :: p < c.encode(v) ==> c.parse(p) == None
      ensures forall p: Bytes :: p <= c.encode(v) && p != [] ==> c.trim(p) != [] && c.trim(p) <= p
    {
      assert LawfulFor(c, v);
    }
  }

  lemma NumberedLawful<T>(number: T -> nat, value: nat -> Option<T>, v: T)
    requires value(number(v)) == Some(v)
    ensures LawfulFor(Numbered(number, value), v)
  {
    hide Valid, Braced, ParseBraced;
    BracedFacts(number(v));
    ParseOwn(number(v));
  }

  lemma ParseOwn(n: nat)
    requires |Braced(n)| == n + 2
    ensures ParseBraced(Braced(n)) == Some(n)
  {
    hide Braced;
  }

  /** Every type whose values can be numbered has a lawful codec. */
  lemma LawsCanBeMet<T(!new)>(number: T -> nat, value: nat -> Option<T>)
    requires forall v :: value(number(v)) == Some(v)
    ensures exists c: Codec<T> :: LawfulLine(c)
  {
    hide LawfulFor, LawfulLine, ParseNumbered;
    var c := Numbered(number, value);
    forall v ensures LawfulFor(c, v) {
      NumberedLawful(number, value, v);
    }
    LawfulByValue(c);
  }
}
