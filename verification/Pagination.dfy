/** Paged reads (fs_ops.rs: read, nearest_char_boundary_at_or_after). */
module Pagination {
  import opened Prelude
  import opened Utf8

  const READ_MAX_LIMIT: nat := 65536
  const READ_DEFAULT_LIMIT: nat := 65536

  datatype Page = Page(content: Bytes, truncated: bool, nextOffset: Option<nat>)

  datatype ReadError = NotUtf8 | BadLimit | PastEnd | NotOnBoundary

  /** Smallest boundary at or after i. */
  function NextBoundary(s: Bytes, i: nat): (j: nat)
    requires i <= |s|
    ensures i <= j <= |s| && IsBoundary(s, j)
    ensures forall k :: i <= k < j ==> !IsBoundary(s, k)
    decreases |s| - i
  {
    if IsBoundary(s, i) then i else NextBoundary(s, i + 1)
  }

  /** The loop of the source, against that specification. */
  method NearestCharBoundaryAtOrAfter(s: Bytes, target: nat) returns (i: nat)
    ensures i == NextBoundary(s, Min(target, |s|))
  {
    i := Min(target, |s|);
    while i < |s| && !IsBoundary(s, i)
      invariant Min(target, |s|) <= i <= |s|
      invariant NextBoundary(s, Min(target, |s|)) == NextBoundary(s, i)
    {
      i := i + 1;
    }
  }

  function ReadPage(s: Bytes, offset: Option<nat>, limit: Option<nat>): Result<Page, ReadError> {
    var start := if offset.Some? then offset.value else 0;
    var lim := if limit.Some? then limit.value else READ_DEFAULT_LIMIT;
    if !Valid(s) then Err(NotUtf8)
    else if lim == 0 || lim > READ_MAX_LIMIT then Err(BadLimit)
    else if start > |s| then Err(PastEnd)
    else if !IsBoundary(s, start) then Err(NotOnBoundary)
    else
      var end := NextBoundary(s, Min(start + lim, |s|));
      Ok(Page(s[start..end], end < |s|, if end < |s| then Some(end) else None))
  }

  /**
   The text from `start` to the first boundary that is `most` bytes away or more, or to the end of the file, and
   whether and where it goes on.
   */
  ghost predicate IsPage(s: Bytes, start: nat, most: nat, p: Page) {
    && start + |p.content| <= |s| && p.content == s[start..start + |p.content|] && Valid(p.content)
    && Min(most, |s| - start) <= |p.content| <= most + 3
    && IsBoundary(s, start + |p.content|)
    && (forall k :: start + most <= k < start + |p.content| ==> !IsBoundary(s, k))
    && (p.truncated <==> start + |p.content| < |s|)
    && p.nextOffset == (if p.truncated then Some(start + |p.content|) else None)
  }

  /** What a read yields: from the start and up to 65536 bytes unless asked otherwise, or the first thing wrong. */
  ghost predicate IsRead(s: Bytes, offset: Option<nat>, limit: Option<nat>, r: Result<Page, ReadError>) {
    var badLimit := limit == Some(0) || (limit.Some? && limit.value > 65536);
    && (r == Err(NotUtf8) <==> !Valid(s))
    && (r == Err(BadLimit) <==> Valid(s) && badLimit)
    && (r == Err(PastEnd) <==> Valid(s) && !badLimit && offset.Some? && offset.value > |s|)
    && (r == Err(NotOnBoundary) <==>
          Valid(s) && !badLimit && offset.Some? && offset.value <= |s| && !IsBoundary(s, offset.value))
    && (r.Ok? ==>
          match (offset, limit)
          case (None, None) => IsPage(s, 0, 65536, r.value)
          case (None, Some(most)) => IsPage(s, 0, most, r.value)
          case (Some(start), None) => IsPage(s, start, 65536, r.value)
          case (Some(start), Some(most)) => IsPage(s, start, most, r.value))
  }

  lemma PageAt(s: Bytes, start: nat, most: nat, p: Page)
    requires Valid(s) && 1 <= most && start <= |s| && IsBoundary(s, start)
    requires var end := NextBoundary(s, Min(start + most, |s|));
      p == Page(s[start..end], end < |s|, if end < |s| then Some(end) else None)
    ensures IsPage(s, start, most, p)
  {
    hide Valid, IsBoundary;
    NextBoundaryPastStart(s, start, most);
  }

  lemma ReadPageIs(s: Bytes, offset: Option<nat>, limit: Option<nat>)
    ensures IsRead(s, offset, limit, ReadPage(s, offset, limit))
  {
    hide Valid, IsBoundary, IsPage;
    StartIsBoundary(s);
    var r := ReadPage(s, offset, limit);
    if r.Ok? {
      match (offset, limit)
      case (None, None) => PageAt(s, 0, 65536, r.value);
      case (None, Some(most)) => PageAt(s, 0, most, r.value);
      case (Some(start), None) => PageAt(s, start, 65536, r.value);
      case (Some(start), Some(most)) => PageAt(s, start, most, r.value);
    }
  }

  lemma StartIsBoundary(s: Bytes)
    ensures IsBoundary(s, 0)
  {
  }

  method Read(s: Bytes, offset: Option<nat>, limit: Option<nat>) returns (r: Result<Page, ReadError>)
    ensures IsRead(s, offset, limit, r) && r == ReadPage(s, offset, limit)
  {
    hide IsRead;
    ReadPageIs(s, offset, limit);
    if !Valid(s) { return Err(NotUtf8); }
    var start := if offset.Some? then offset.value else 0;
    var lim := if limit.Some? then limit.value else READ_DEFAULT_LIMIT;
    if lim == 0 || lim > READ_MAX_LIMIT { return Err(BadLimit); }
    if start > |s| { return Err(PastEnd); }
    if !IsBoundary(s, start) { return Err(NotOnBoundary); }
    var end := Min(start + lim, |s|);
    if end >= |s| {
      end := |s|;
    } else {
      end := NearestCharBoundaryAtOrAfter(s, end);
    }
    var truncated := end < |s|;
    return Ok(Page(s[start..end], truncated, if truncated then Some(end) else None));
  }

  predicate LegalLimit(limit: nat) { 1 <= limit <= READ_MAX_LIMIT }

  lemma NextBoundaryNear(s: Bytes, i: nat)
    requires Valid(s) && i <= |s|
    ensures NextBoundary(s, i) <= i + 3
  {
    BoundaryNear(s, i);
  }

  lemma NextBoundaryPastStart(s: Bytes, offset: nat, limit: nat)
    requires Valid(s) && 1 <= limit && offset <= |s| && IsBoundary(s, offset)
    ensures var end := NextBoundary(s, Min(offset + limit, |s|));
      && Min(limit, |s| - offset) <= end - offset <= limit + 3
      && Valid(s[offset..end])
  {
    var end := NextBoundary(s, Min(offset + limit, |s|));
    NextBoundaryNear(s, Min(offset + limit, |s|));
    SliceValid(s, offset, end);
  }

  /**
   One page of a valid file asked for at a boundary: it is the text that follows, itself valid, it ends on a
   boundary, it is nonempty while data remains, and it overshoots the limit by at most three bytes.
   */
  lemma PageFacts(s: Bytes, offset: nat, limit: nat)
    requires Valid(s) && LegalLimit(limit) && offset <= |s| && IsBoundary(s, offset)
    ensures var r := ReadPage(s, Some(offset), Some(limit));
      && r.Ok?
      && var p := r.value;
      && offset + |p.content| <= |s|
      && p.content == s[offset..offset + |p.content|]
      && Valid(p.content)
      && (offset < |s| ==> p.content != [])
      && Min(limit, |s| - offset) <= |p.content| <= limit + 3
      && p.truncated == (offset + |p.content| < |s|)
      && p.nextOffset == (if p.truncated then Some(offset + |p.content|) else None)
      && IsBoundary(s, offset + |p.content|)
  {
    hide Valid, IsBoundary;
    NextBoundaryPastStart(s, offset, limit);
  }

  /** A client's walk: ask at `offset`, then at each next_offset, the k-th time with limit limits(k). */
  function Walk(s: Bytes, offset: nat, limits: nat -> nat, k: nat): (pages: seq<Page>)
    requires Valid(s) && offset <= |s| && IsBoundary(s, offset)
    requires forall i :: LegalLimit(limits(i))
    decreases |s| - offset
  {
    PageFacts(s, offset, limits(k));
    var p := ReadPage(s, Some(offset), Some(limits(k))).value;
    if p.nextOffset.None? then [p]
    else [p] + Walk(s, p.nextOffset.value, limits, k + 1)
  }

  function Text(pages: seq<Page>): Bytes {
    if pages == [] then [] else pages[0].content + Text(pages[1..])
  }

  /** The pages together are exactly `text`, each valid and within its limit, all but the last marked truncated. */
  ghost predicate ReadsAll(pages: seq<Page>, text: Bytes, limits: nat -> nat, k: nat) {
    && Text(pages) == text
    && 1 <= |pages| <= |text| + 1
    && (forall i :: 0 <= i < |pages| ==> (pages[i].truncated <==> i < |pages| - 1))
    && (forall i :: 0 <= i < |pages| ==> Valid(pages[i].content) && |pages[i].content| <= limits(k + i) + 3)
    && (text != [] ==> forall i :: 0 <= i < |pages| ==> pages[i].content != [])
  }

  lemma OnePage(p: Page, limits: nat -> nat, k: nat)
    requires Valid(p.content) && |p.content| <= limits(k) + 3 && !p.truncated
    ensures ReadsAll([p], p.content, limits, k)
  {
    assert [p][1..] == [];
    assert p.content + [] == p.content;
  }

  lemma PageThenRest(p: Page, rest: seq<Page>, text: Bytes, limits: nat -> nat, k: nat)
    requires Valid(p.content) && |p.content| <= limits(k) + 3 && p.truncated && p.content != []
    requires text != [] && ReadsAll(rest, text, limits, k + 1)
    ensures ReadsAll([p] + rest, p.content + text, limits, k)
  {
    assert ([p] + rest)[1..] == rest;
    forall i | 0 < i <= |rest|
      ensures Valid(([p] + rest)[i].content) && |([p] + rest)[i].content| <= limits(k + i) + 3
    {
      assert ([p] + rest)[i] == rest[i - 1];
      assert k + i == (k + 1) + (i - 1);
    }
  }

  lemma WalkUnfold(s: Bytes, offset: nat, limits: nat -> nat, k: nat) returns (p: Page)
    requires Valid(s) && offset <= |s| && IsBoundary(s, offset)
    requires forall i :: LegalLimit(limits(i))
    ensures Valid(p.content) && |p.content| <= limits(k) + 3
    ensures offset + |p.content| <= |s| && p.content == s[offset..offset + |p.content|]
    ensures IsBoundary(s, offset + |p.content|)
    ensures p.truncated <==> offset + |p.content| < |s|
    ensures offset < |s| ==> p.content != []
    ensures Walk(s, offset, limits, k)
         == if p.truncated then [p] + Walk(s, offset + |p.content|, limits, k + 1) else [p]
  {
    hide Valid, IsBoundary;
    PageFacts(s, offset, limits(k));
    hide ReadPage;
    p := ReadPage(s, Some(offset), Some(limits(k))).value;
  }

  /**
   Walking a valid file from a boundary, with any legal limits, is never rejected, ends after at most one page
   per byte plus one, and reads all that follows.
   */
  lemma {:induction false} WalkReadsFile(s: Bytes, offset: nat, limits: nat -> nat, k: nat)
    requires Valid(s) && offset <= |s| && IsBoundary(s, offset)
    requires forall i :: LegalLimit(limits(i))
    ensures ReadsAll(Walk(s, offset, limits, k), s[offset..], limits, k)
    decreases |s| - offset
  {
    hide *;
    var p := WalkUnfold(s, offset, limits, k);
    var next := offset + |p.content|;
    assert s[offset..] == p.content + s[next..];
    if p.truncated {
      WalkReadsFile(s, next, limits, k + 1);
      PageThenRest(p, Walk(s, next, limits, k + 1), s[next..], limits, k);
    } else {
      assert s[next..] == [];
      assert p.content + [] == p.content;
      OnePage(p, limits, k);
    }
  }
}
