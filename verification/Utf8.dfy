/** UTF-8 as section 3 and 4 of RFC 3629 define it, and Rust's notion of a character boundary. */
module Utf8 {
  import opened Prelude

  predicate IsContinuation(b: byte) { 0x80 <= b as int <= 0xBF }

  /** Number of bytes a well-formed sequence starting with this byte and this second byte takes; 0 if none does. */
  function LeadLength(b: byte, second: byte): nat {
    if b < 0x80 then 1
    else if 0xC2 <= b <= 0xDF && IsContinuation(second) then 2
    else if (b == 0xE0 && 0xA0 <= second <= 0xBF) || (b == 0xED && 0x80 <= second <= 0x9F)
         || (0xE1 <= b <= 0xEF && b != 0xED && IsContinuation(second)) then 3
    else if (b == 0xF0 && 0x90 <= second <= 0xBF) || (b == 0xF4 && 0x80 <= second <= 0x8F)
         || (0xF1 <= b <= 0xF3 && IsContinuation(second)) then 4
    else 0
  }

  /** Length of the character s begins with, 0 if s does not begin with a well-formed one. */
  function CharLength(s: Bytes): (n: nat)
    ensures n <= |s| && n <= 4
  {
    if s == [] then 0
    else
      var n := LeadLength(s[0], if |s| > 1 then s[1] else 0);
      if n <= |s| && (forall k :: 2 <= k < n ==> IsContinuation(s[k])) then n else 0
  }

  predicate Valid(s: Bytes) {
    s == [] || (CharLength(s) > 0 && Valid(s[CharLength(s)..]))
  }

  /** Rust's str::is_char_boundary. */
  predicate IsBoundary(s: Bytes, i: nat) {
    i == 0 || i == |s| || (i < |s| && !IsContinuation(s[i]))
  }

  /** Inside a character every byte but the first is a continuation byte; the first never is. */
  lemma CharShape(s: Bytes)
    requires CharLength(s) > 0
    ensures !IsContinuation(s[0])
    ensures forall k :: 1 <= k < CharLength(s) ==> IsContinuation(s[k])
  {
  }

  /** A character's length and well-formedness depend on its own bytes only. */
  lemma CharLengthPrefix(s: Bytes, t: Bytes)
    requires CharLength(s) > 0
    requires |t| >= CharLength(s) && t[..CharLength(s)] == s[..CharLength(s)]
    ensures CharLength(t) == CharLength(s)
  {
    var n := CharLength(s);
    assert forall k :: 0 <= k < n ==> t[k] == t[..n][k] == s[..n][k] == s[k];
  }

  lemma {:induction false} ValidConcat(a: Bytes, b: Bytes)
    requires Valid(a) && Valid(b)
    ensures Valid(a + b)
    decreases |a|
  {
    if a == [] {
      assert a + b == b;
    } else {
      var n := CharLength(a);
      assert (a + b)[..n] == a[..n];
      CharLengthPrefix(a, a + b);
      assert (a + b)[n..] == a[n..] + b;
      ValidConcat(a[n..], b);
    }
  }

  /** A first character followed by valid text is valid. */
  lemma ValidCons(s: Bytes, n: nat)
    requires 0 < n <= |s| && CharLength(s) == n && Valid(s[n..])
    ensures Valid(s)
  {
  }

  lemma BoundaryPastFirst(s: Bytes, i: nat)
    requires CharLength(s) > 0 && 0 < i <= |s| && IsBoundary(s, i)
    ensures i >= CharLength(s) && IsBoundary(s[CharLength(s)..], i - CharLength(s))
  {
    CharShape(s);
  }

  /** Cutting valid text at a character boundary leaves two valid texts. */
  lemma {:induction false} ValidSplit(s: Bytes, i: nat)
    requires Valid(s) && i <= |s| && IsBoundary(s, i)
    ensures Valid(s[..i]) && Valid(s[i..])
    decreases |s|
  {
    hide *;
    if i == 0 {
      assert s[0..] == s && s[..0] == [];
      EmptyValid();
    } else {
      ValidUncons(s);
      var n := CharLength(s);
      BoundaryPastFirst(s, i);
      ValidSplit(s[n..], i - n);
      assert s[n..][..i - n] == s[n..i];
      assert s[n..][i - n..] == s[i..];
      assert s[..i][..n] == s[..n];
      CharLengthPrefix(s, s[..i]);
      assert s[..i][n..] == s[n..i];
      ValidCons(s[..i], n);
    }
  }

  lemma EmptyValid()
    ensures Valid([])
  {
  }

  lemma ValidUncons(s: Bytes)
    requires Valid(s) && s != []
    ensures CharLength(s) > 0 && Valid(s[CharLength(s)..])
  {
  }

  /** From any position, a boundary is at most three bytes ahead. */
  lemma {:induction false} BoundaryNear(s: Bytes, i: nat)
    requires Valid(s) && i <= |s|
    ensures exists j :: i <= j <= i + 3 && j <= |s| && IsBoundary(s, j)
    decreases |s|
  {
    if i == 0 || i == |s| {
      assert IsBoundary(s, i);
    } else {
      var n := CharLength(s);
      if i < n {
        ValidStart(s, n);
        assert i <= n <= i + 3 && IsBoundary(s, n);
      } else {
        BoundaryNear(s[n..], i - n);
        var j :| i - n <= j <= i - n + 3 && j <= |s[n..]| && IsBoundary(s[n..], j);
        ValidStart(s, n);
        assert j > 0 && j < |s[n..]| ==> s[n..][j] == s[n + j];
        assert IsBoundary(s, n + j);
      }
    }
  }

  lemma ValidStart(s: Bytes, n: nat)
    requires Valid(s) && n == CharLength(s)
    ensures IsBoundary(s, n)
  {
    if 0 < n < |s| {
      CharShape(s[n..]);
      assert s[n..][0] == s[n];
    }
  }

  lemma FirstByte(p: Bytes)
    requires Valid(p) && p != []
    ensures !IsContinuation(p[0])
  {
    CharShape(p);
  }

  /** The text between two boundaries is valid. */
  lemma SliceValid(s: Bytes, i: nat, j: nat)
    requires Valid(s) && i <= j <= |s| && IsBoundary(s, i) && IsBoundary(s, j)
    ensures Valid(s[i..j])
  {
    ValidSplit(s, j);
    assert i < j ==> s[..j][i] == s[i];
    ValidSplit(s[..j], i);
    assert s[..j][i..] == s[i..j];
  }

  /** Self-synchronisation: valid, nonempty text can only occur in valid text between two boundaries. */
  lemma ValidInfix(s: Bytes, i: nat, p: Bytes)
    requires Valid(s) && Valid(p) && p != []
    requires i + |p| <= |s| && s[i..i + |p|] == p
    ensures IsBoundary(s, i) && IsBoundary(s, i + |p|)
  {
    FirstByte(p);
    assert s[i] == s[i..i + |p|][0] == p[0];
    ValidSplit(s, i);
    InfixEnd(s, i, p);
  }

  lemma InfixEnd(s: Bytes, i: nat, p: Bytes)
    requires i + |p| <= |s| && s[i..i + |p|] == p
    requires Valid(p) && Valid(s[i..])
    ensures IsBoundary(s, i + |p|)
  {
    var t := s[i..];
    assert t[..|p|] == p;
    EndsOnBoundary(p, t);
    assert |p| < |t| ==> t[|p|] == s[i + |p|];
    if p == [] && i < |s| {
      FirstByte(t);
      assert t[0] == s[i];
    }
  }

  /** A valid prefix of valid text ends on a boundary of it. */
  lemma {:induction false} EndsOnBoundary(p: Bytes, t: Bytes)
    requires Valid(p) && Valid(t) && p <= t
    ensures IsBoundary(t, |p|)
    decreases |p|
  {
    if p != [] {
      var n := CharLength(p);
      assert t[..n] == p[..n];
      CharLengthPrefix(p, t);
      assert p[n..] <= t[n..];
      EndsOnBoundary(p[n..], t[n..]);
      ValidStart(t, n);
      assert 0 < |p| - n && |p| < |t| ==> t[n..][|p| - n] == t[|p|];
    }
  }

  /** The cuts that leave text on both sides are exactly the character boundaries. */
  lemma BoundaryIff(s: Bytes, i: nat)
    requires Valid(s) && i <= |s|
    ensures IsBoundary(s, i) <==> Valid(s[..i]) && Valid(s[i..])
  {
    hide Valid, IsBoundary;
    if IsBoundary(s, i) {
      ValidSplit(s, i);
    }
    if Valid(s[..i]) {
      EndsOnBoundary(s[..i], s);
    }
  }

  // ---- against the encoding ----

  /** A Unicode scalar value. */
  type Scalar = c: nat | c < 0xD800 || 0xE000 <= c <= 0x10FFFF

  /** Section 3 of RFC 3629: the bits of c spread over one to four octets. */
  function Encode(c: Scalar): Bytes {
    if c < 0x80 then [c as byte]
    else if c < 0x800 then [(0xC0 + c / 64) as byte, (0x80 + c % 64) as byte]
    else if c < 0x10000 then [(0xE0 + c / 4096) as byte, (0x80 + c / 64 % 64) as byte, (0x80 + c % 64) as byte]
    else [(0xF0 + c / 262144) as byte, (0x80 + c / 4096 % 64) as byte, (0x80 + c / 64 % 64) as byte,
          (0x80 + c % 64) as byte]
  }

  ghost predicate IsChar(s: Bytes) { exists c: Scalar :: s == Encode(c) }

  lemma EncodedChar(c: Scalar)
    ensures CharLength(Encode(c)) == |Encode(c)| > 0
  {
    if c >= 0x10000 {
      EncodedFour(c);
    } else if c >= 0x800 {
      EncodedThree(c);
    }
  }

  lemma EncodedThree(c: Scalar)
    requires 0x800 <= c < 0x10000
    ensures CharLength(Encode(c)) == |Encode(c)| == 3
  {
    assert c / 4096 == 0 ==> c / 64 % 64 == c / 64;
  }

  lemma EncodedFour(c: Scalar)
    requires 0x10000 <= c
    ensures CharLength(Encode(c)) == |Encode(c)| == 4
  {
    assert c / 262144 == 0 ==> c / 4096 % 64 == c / 4096;
  }

  /** The payload bits of the octets can be read off the sum. */
  lemma Payload(w: nat, x: nat, y: nat, z: nat)
    requires x < 64 && y < 64 && z < 64
    ensures var c := w * 262144 + x * 4096 + y * 64 + z;
      c / 262144 == w && c / 4096 == w * 64 + x && c / 4096 % 64 == x && c / 64 % 64 == y && c % 64 == z
  {
  }

  /** The scalar value a character stands for. */
  lemma CharEncoded(s: Bytes) returns (c: Scalar)
    requires CharLength(s) == |s| > 0
    ensures s == Encode(c)
  {
    if |s| == 1 {
      c := s[0] as int;
    } else if |s| == 2 {
      c := TwoEncoded(s);
    } else if |s| == 3 {
      c := ThreeEncoded(s);
    } else {
      c := FourEncoded(s);
    }
  }

  lemma TwoEncoded(s: Bytes) returns (c: Scalar)
    requires CharLength(s) == |s| == 2
    ensures s == Encode(c)
  {
    var y: nat, z: nat := s[0] as int - 0xC0, s[1] as int - 0x80;
    c := y * 64 + z;
  }

  lemma ThreeEncoded(s: Bytes) returns (c: Scalar)
    requires CharLength(s) == |s| == 3
    ensures s == Encode(c)
  {
    ThreeOctets(s);
    hide CharLength;
    var x: nat, y: nat, z: nat := s[0] as int - 0xE0, s[1] as int - 0x80, s[2] as int - 0x80;
    Payload(0, x, y, z);
    c := x * 4096 + y * 64 + z;
  }

  lemma ThreeOctets(s: Bytes)
    requires CharLength(s) == |s| == 3
    ensures 0xE0 <= s[0] < 0xF0 && 0x80 <= s[1] < 0xC0 && 0x80 <= s[2] < 0xC0
    ensures (s[0] == 0xE0 ==> s[1] >= 0xA0) && (s[0] == 0xED ==> s[1] < 0xA0)
  {
  }

  lemma FourEncoded(s: Bytes) returns (c: Scalar)
    requires CharLength(s) == |s| == 4
    ensures s == Encode(c)
  {
    FourOctets(s);
    hide CharLength;
    var w: nat, x: nat := s[0] as int - 0xF0, s[1] as int - 0x80;
    var y: nat, z: nat := s[2] as int - 0x80, s[3] as int - 0x80;
    Payload(w, x, y, z);
    c := w * 262144 + x * 4096 + y * 64 + z;
  }

  lemma FourOctets(s: Bytes)
    requires CharLength(s) == |s| == 4
    ensures 0xF0 <= s[0] < 0xF5 && 0x80 <= s[1] < 0xC0 && 0x80 <= s[2] < 0xC0 && 0x80 <= s[3] < 0xC0
    ensures (s[0] == 0xF0 ==> s[1] >= 0x90) && (s[0] == 0xF4 ==> s[1] < 0x90)
  {
  }

  /** Exactly the encodings of scalar values are characters. */
  lemma IsCharIff(s: Bytes)
    ensures IsChar(s) <==> CharLength(s) == |s| > 0
  {
    hide Encode, CharLength;
    if IsChar(s) {
      var c: Scalar :| s == Encode(c);
      EncodedChar(c);
    }
    if CharLength(s) == |s| > 0 {
      var c := CharEncoded(s);
    }
  }

  /** The length is that of the one character s begins with, or 0 if there is none. */
  lemma CharLengthIff(s: Bytes)
    ensures forall n :: 0 <= n <= |s| ==> (IsChar(s[..n]) <==> n == CharLength(s) > 0)
  {
    forall n | 0 <= n <= |s| ensures IsChar(s[..n]) <==> n == CharLength(s) > 0 {
      hide IsChar;
      IsCharIff(s[..n]);
      if n > 0 && CharLength(s[..n]) == n {
        CharLengthPrefix(s[..n], s);
      }
      if n == CharLength(s) > 0 {
        CharLengthPrefix(s, s[..n]);
      }
    }
  }

  function EncodeAll(text: seq<Scalar>): Bytes {
    if text == [] then [] else Encode(text[0]) + EncodeAll(text[1..])
  }

  lemma {:induction false} EncodedValid(text: seq<Scalar>)
    ensures Valid(EncodeAll(text))
    decreases |text|
  {
    hide Encode, CharLength;
    if text != [] {
      var head, rest := Encode(text[0]), EncodeAll(text[1..]);
      EncodedChar(text[0]);
      EncodedValid(text[1..]);
      assert (head + rest)[..|head|] == head;
      CharLengthPrefix(head, head + rest);
      assert (head + rest)[|head|..] == rest;
    }
  }

  lemma {:induction false} ValidEncoded(s: Bytes) returns (text: seq<Scalar>)
    requires Valid(s)
    ensures s == EncodeAll(text)
    decreases |s|
  {
    hide Encode, CharLength;
    if s == [] {
      text := [];
    } else {
      var n := CharLength(s);
      CharLengthPrefix(s, s[..n]);
      var c := CharEncoded(s[..n]);
      var rest := ValidEncoded(s[n..]);
      text := [c] + rest;
      assert s == s[..n] + s[n..];
    }
  }

  /** Text is what some sequence of scalar values encodes to. */
  lemma ValidIff(s: Bytes)
    ensures Valid(s) <==> exists text :: s == EncodeAll(text)
  {
    hide Valid, EncodeAll;
    if Valid(s) {
      var text := ValidEncoded(s);
    }
    if exists text :: s == EncodeAll(text) {
      var text :| s == EncodeAll(text);
      EncodedValid(text);
    }
  }
}
