/** Exact-text replacement (fs_ops.rs: edit, the matches/replace/replacen expressions). */
module TextEdit {
  import opened Prelude
  import opened Utf8

  predicate OccursAt(s: Bytes, p: Bytes, i: nat) {
    i + |p| <= |s| && s[i..i + |p|] == p
  }

  /** str::matches(p).count(): non-overlapping occurrences, scanning left to right. */
  function Count(s: Bytes, p: Bytes): nat
    requires p != []
    decreases |s|
  {
    if s == [] then 0
    else if OccursAt(s, p, 0) then 1 + Count(s[|p|..], p)
    else Count(s[1..], p)
  }

  /** str::replacen(p, q, k). */
  function ReplaceN(s: Bytes, p: Bytes, q: Bytes, k: nat): Bytes
    requires p != []
    decreases |s|
  {
    if k == 0 || s == [] then s
    else if OccursAt(s, p, 0) then q + ReplaceN(s[|p|..], p, q, k - 1)
    else [s[0]] + ReplaceN(s[1..], p, q, k)
  }

  /** str::replace(p, q). */
  function ReplaceAll(s: Bytes, p: Bytes, q: Bytes): Bytes
    requires p != []
  {
    ReplaceN(s, p, q, |s|)
  }

  /** The gaps with a separator between each two. */
  function Join(gaps: seq<Bytes>, sep: Bytes): Bytes
    requires gaps != []
  {
    if |gaps| == 1 then gaps[0] else gaps[0] + sep + Join(gaps[1..], sep)
  }

  /**
   The declarative reading of "the k leftmost non-overlapping occurrences": s is the gaps joined by p, and each p
   starts at the first place after its predecessor where p occurs.
   */
  ghost predicate LeftmostSplit(s: Bytes, p: Bytes, gaps: seq<Bytes>)
    requires p != []
    decreases |gaps|
  {
    && gaps != []
    && (if |gaps| == 1 then s == gaps[0]
        else
          && OccursAt(s, p, |gaps[0]|)
          && s[..|gaps[0]|] == gaps[0]
          && (forall i :: 0 <= i < |gaps[0]| ==> !OccursAt(s, p, i))
          && LeftmostSplit(s[|gaps[0]| + |p|..], p, gaps[1..]))
  }

  ghost predicate NoOccurrence(s: Bytes, p: Bytes) {
    forall i :: 0 <= i <= |s| ==> !OccursAt(s, p, i)
  }

  /** The gaps around the first k occurrences. */
  ghost function Gaps(s: Bytes, p: Bytes, k: nat): (gaps: seq<Bytes>)
    requires p != []
    ensures gaps != []
    decreases |s|
  {
    if k == 0 || s == [] then [s]
    else if OccursAt(s, p, 0) then [[]] + Gaps(s[|p|..], p, k - 1)
    else
      var g := Gaps(s[1..], p, k);
      [[s[0]] + g[0]] + g[1..]
  }

  lemma OccursTail(s: Bytes, p: Bytes)
    requires s != []
    ensures forall i: nat :: OccursAt(s[1..], p, i) <==> OccursAt(s, p, i + 1)
  {
    forall i: nat ensures OccursAt(s[1..], p, i) <==> OccursAt(s, p, i + 1) {
      if i + 1 + |p| <= |s| {
        assert s[1..][i..i + |p|] == s[i + 1..i + 1 + |p|];
      }
    }
  }

  lemma {:induction false} GapsSplit(s: Bytes, p: Bytes, k: nat)
    requires p != []
    ensures LeftmostSplit(s, p, Gaps(s, p, k))
    decreases |s|
  {
    if k == 0 || s == [] {
    } else if OccursAt(s, p, 0) {
      GapsSplit(s[|p|..], p, k - 1);
      assert ([[]] + Gaps(s[|p|..], p, k - 1))[1..] == Gaps(s[|p|..], p, k - 1);
    } else {
      GapsSplit(s[1..], p, k);
      SplitPrepend(s, p, Gaps(s[1..], p, k));
    }
  }

  lemma SplitPrepend(s: Bytes, p: Bytes, g: seq<Bytes>)
    requires p != [] && s != [] && !OccursAt(s, p, 0)
    requires LeftmostSplit(s[1..], p, g)
    ensures LeftmostSplit(s, p, [[s[0]] + g[0]] + g[1..])
  {
    OccursTail(s, p);
    var h := [[s[0]] + g[0]] + g[1..];
    assert h[1..] == g[1..];
    if |g| > 1 {
      assert s[..|h[0]|] == h[0] by {
        assert s[1..][..|g[0]|] == s[1..|h[0]|];
      }
      assert s[1..][|g[0]| + |p|..] == s[|h[0]| + |p|..];
      forall i | 0 <= i < |h[0]| ensures !OccursAt(s, p, i) {
        if i > 0 {
          assert !OccursAt(s[1..], p, i - 1);
        }
      }
    } else {
      assert s == [s[0]] + s[1..];
    }
  }

  /** Any leftmost split of s, joined with p, is s again. */
  lemma {:induction false} SplitJoins(s: Bytes, p: Bytes, gaps: seq<Bytes>)
    requires p != [] && LeftmostSplit(s, p, gaps)
    ensures Join(gaps, p) == s
    decreases |gaps|
  {
    if |gaps| > 1 {
      var n := |gaps[0]|;
      SplitJoins(s[n + |p|..], p, gaps[1..]);
      assert s == s[..n] + s[n..n + |p|] + s[n + |p|..];
    }
  }

  lemma {:induction false} ReplaceJoins(s: Bytes, p: Bytes, q: Bytes, k: nat)
    requires p != []
    ensures ReplaceN(s, p, q, k) == Join(Gaps(s, p, k), q)
    decreases |s|
  {
    if k == 0 || s == [] {
    } else if OccursAt(s, p, 0) {
      ReplaceJoins(s[|p|..], p, q, k - 1);
      var g := Gaps(s[|p|..], p, k - 1);
      assert ([[]] + g)[1..] == g;
      assert [] + q + Join(g, q) == q + Join(g, q);
    } else {
      ReplaceJoins(s[1..], p, q, k);
      var g := Gaps(s[1..], p, k);
      JoinPrepend(s[0], g, q);
    }
  }

  lemma JoinPrepend(b: byte, g: seq<Bytes>, q: Bytes)
    requires g != []
    ensures Join([[b] + g[0]] + g[1..], q) == [b] + Join(g, q)
  {
    var h := [[b] + g[0]] + g[1..];
    assert h[1..] == g[1..];
    if |g| > 1 {
      assert ([b] + g[0]) + q + Join(g[1..], q) == [b] + (g[0] + q + Join(g[1..], q));
    }
  }

  lemma {:induction false} GapsCount(s: Bytes, p: Bytes, k: nat)
    requires p != []
    ensures |Gaps(s, p, k)| == Min(k, Count(s, p)) + 1
    ensures Count(s, p) <= |s|
    decreases |s|
  {
    if k == 0 || s == [] {
      if s != [] {
        GapsCount(if OccursAt(s, p, 0) then s[|p|..] else s[1..], p, 0);
      }
    } else if OccursAt(s, p, 0) {
      GapsCount(s[|p|..], p, k - 1);
    } else {
      GapsCount(s[1..], p, k);
    }
  }

  /** Past the last counted occurrence there is none. */
  lemma {:induction false} LastGapClean(s: Bytes, p: Bytes, k: nat)
    requires p != [] && k >= Count(s, p)
    ensures NoOccurrence(Gaps(s, p, k)[|Gaps(s, p, k)| - 1], p)
    decreases |s|
  {
    if s == [] {
    } else if OccursAt(s, p, 0) {
      LastGapClean(s[|p|..], p, k - 1);
    } else if k == 0 {
      LastGapClean(s[1..], p, k);
      NoneFurther(s, p);
    } else {
      LastGapClean(s[1..], p, k);
      GapsSplit(s[1..], p, k);
      OneGapTail(s, p, k);
    }
  }

  lemma NoneFurther(s: Bytes, p: Bytes)
    requires s != [] && !OccursAt(s, p, 0) && NoOccurrence(s[1..], p)
    ensures NoOccurrence(s, p)
  {
    OccursTail(s, p);
    forall i | 0 <= i <= |s| ensures !OccursAt(s, p, i) {
      if i > 0 {
        assert !OccursAt(s[1..], p, i - 1);
      }
    }
  }

  lemma OneGapTail(s: Bytes, p: Bytes, k: nat)
    requires p != [] && s != [] && k > 0 && !OccursAt(s, p, 0)
    requires var g := Gaps(s[1..], p, k); NoOccurrence(g[|g| - 1], p) && LeftmostSplit(s[1..], p, g)
    ensures var g := Gaps(s, p, k); NoOccurrence(g[|g| - 1], p)
  {
    var g := Gaps(s[1..], p, k);
    if |g| == 1 {
      assert s == [s[0]] + g[0];
      NoneFurther(s, p);
    }
  }

  lemma {:induction false} JoinLength(gaps: seq<Bytes>, p: Bytes, q: Bytes)
    requires gaps != []
    ensures |Join(gaps, q)| == |Join(gaps, p)| + (|gaps| - 1) * (|q| - |p|)
  {
    if |gaps| > 1 {
      JoinLength(gaps[1..], p, q);
    }
  }

  lemma JoinDiffers(gaps: seq<Bytes>, p: Bytes, q: Bytes)
    requires |gaps| > 1 && p != q
    ensures Join(gaps, p) != Join(gaps, q)
  {
    if |p| == |q| {
      var n := |gaps[0]|;
      assert Join(gaps, p)[n..n + |p|] == p;
      assert Join(gaps, q)[n..n + |q|] == q;
    } else {
      JoinLength(gaps, p, q);
      assert (|gaps| - 1) * (|q| - |p|) != 0;
    }
  }

  /**
   Exact edit: the result keeps every byte outside the first min(k, count) leftmost occurrences and has q in place
   of each of those; nothing is left to replace when k is at least the count.
   */
  lemma ReplaceExact(s: Bytes, p: Bytes, q: Bytes, k: nat)
    requires p != []
    ensures exists gaps: seq<Bytes> ::
      && LeftmostSplit(s, p, gaps)
      && |gaps| == Min(k, Count(s, p)) + 1
      && Join(gaps, p) == s
      && Join(gaps, q) == ReplaceN(s, p, q, k)
      && (k >= Count(s, p) ==> NoOccurrence(gaps[|gaps| - 1], p))
    ensures |ReplaceN(s, p, q, k)| == |s| + Min(k, Count(s, p)) * (|q| - |p|)
    ensures p != q && k > 0 && Count(s, p) > 0 ==> ReplaceN(s, p, q, k) != s
  {
    var gaps := Gaps(s, p, k);
    GapsSplit(s, p, k);
    GapsCount(s, p, k);
    SplitJoins(s, p, gaps);
    ReplaceJoins(s, p, q, k);
    JoinLength(gaps, p, q);
    if k >= Count(s, p) {
      LastGapClean(s, p, k);
    }
    if |gaps| > 1 && p != q {
      JoinDiffers(gaps, p, q);
    }
  }

  /** count() is zero exactly when the text does not occur at all. */
  lemma {:induction false} CountZero(s: Bytes, p: Bytes)
    requires p != []
    ensures Count(s, p) == 0 <==> NoOccurrence(s, p)
    decreases |s|
  {
    if s == [] {
    } else if OccursAt(s, p, 0) {
    } else {
      CountZero(s[1..], p);
      OccursTail(s, p);
      if NoOccurrence(s[1..], p) {
        NoneFurther(s, p);
      } else {
        var i :| 0 <= i <= |s[1..]| && OccursAt(s[1..], p, i);
        assert OccursAt(s, p, i + 1);
      }
    }
  }

  /** The one split that leaves nothing: every occurrence scanning left to right, and none after the last. */
  ghost predicate FullSplit(s: Bytes, p: Bytes, gaps: seq<Bytes>)
    requires p != []
  {
    gaps != [] && LeftmostSplit(s, p, gaps) && NoOccurrence(gaps[|gaps| - 1], p)
  }

  lemma OneGap(s: Bytes, p: Bytes, gaps: seq<Bytes>)
    requires p != [] && FullSplit(s, p, gaps)
    ensures |gaps| == 1 <==> NoOccurrence(s, p)
  {
    if |gaps| > 1 {
      assert OccursAt(s, p, |gaps[0]|);
    }
  }

  lemma {:induction false} SplitUnique(s: Bytes, p: Bytes, g: seq<Bytes>, h: seq<Bytes>)
    requires p != [] && FullSplit(s, p, g) && FullSplit(s, p, h)
    ensures g == h
    decreases |g|
  {
    OneGap(s, p, g);
    OneGap(s, p, h);
    if |g| > 1 {
      assert |g[0]| == |h[0]|;
      SplitUnique(s[|g[0]| + |p|..], p, g[1..], h[1..]);
      assert g == [g[0]] + g[1..] && h == [h[0]] + h[1..];
    }
  }

  /** Counting and replacing, in terms of that split. */
  lemma CountsFully(s: Bytes, p: Bytes, q: Bytes) returns (gaps: seq<Bytes>)
    requires p != []
    ensures FullSplit(s, p, gaps) && |gaps| == Count(s, p) + 1
    ensures ReplaceAll(s, p, q) == Join(gaps, q)
    ensures |gaps| == 2 ==> ReplaceN(s, p, q, 1) == Join(gaps, q)
  {
    hide LeftmostSplit, Gaps, Join, Count, ReplaceN, NoOccurrence;
    gaps := Gaps(s, p, |s|);
    FullyReplaced(s, p, q, |s|);
    GapsCount(s, p, |s|);
    if |gaps| == 2 {
      GapsCount(s, p, 1);
      FullyReplaced(s, p, q, 1);
      SplitUnique(s, p, gaps, Gaps(s, p, 1));
    }
  }

  lemma FullyReplaced(s: Bytes, p: Bytes, q: Bytes, k: nat)
    requires p != []
    ensures k >= Count(s, p) || k == |s| ==> FullSplit(s, p, Gaps(s, p, k))
    ensures ReplaceN(s, p, q, k) == Join(Gaps(s, p, k), q)
  {
    hide LeftmostSplit, Gaps, Join, Count, ReplaceN, NoOccurrence;
    GapsCount(s, p, k);
    GapsSplit(s, p, k);
    ReplaceJoins(s, p, q, k);
    if k >= Count(s, p) {
      LastGapClean(s, p, k);
    }
  }

  /** Replacing text by text keeps a UTF-8 file UTF-8, so the edited file can be read and edited again. */
  lemma {:induction false} ReplaceKeepsUtf8(s: Bytes, p: Bytes, q: Bytes, gaps: seq<Bytes>)
    requires p != [] && LeftmostSplit(s, p, gaps)
    requires Valid(s) && Valid(p) && Valid(q)
    ensures Valid(Join(gaps, q))
    decreases |gaps|
  {
    hide Valid;
    if |gaps| > 1 {
      var n := |gaps[0]|;
      ValidInfix(s, n, p);
      ValidSplit(s, n);
      ValidSplit(s, n + |p|);
      ReplaceKeepsUtf8(s[n + |p|..], p, q, gaps[1..]);
      ValidConcat(gaps[0], q);
      ValidConcat(gaps[0] + q, Join(gaps[1..], q));
    }
  }

  // ---- edit's checks, in order ----

  const MAX_TEXT_BYTES: nat := 4 * 1024 * 1024

  datatype EditError =
    | EmptyOldText | NothingToChange | ArgumentsTooLong | FileTooLong
    | FileNotUtf8 | NoOldText | Ambiguous | ResultTooLong

  /** The checks edit makes on its arguments before it looks at the file. */
  function CheckArguments(oldText: Bytes, newText: Bytes): Option<EditError> {
    if oldText == [] then Some(EmptyOldText)
    else if oldText == newText then Some(NothingToChange)
    else if |oldText| > MAX_TEXT_BYTES || |newText| > MAX_TEXT_BYTES then Some(ArgumentsTooLong)
    else None
  }

  /** The new content, once the arguments passed and the base hash matched. */
  function NewContent(original: Bytes, oldText: Bytes, newText: Bytes, replaceAll: bool): Result<Bytes, EditError>
    requires CheckArguments(oldText, newText).None?
  {
    if |original| > MAX_TEXT_BYTES then Err(FileTooLong)
    else if !Valid(original) then Err(FileNotUtf8)
    else
      var matches := Count(original, oldText);
      if matches == 0 then Err(NoOldText)
      else if matches > 1 && !replaceAll then Err(Ambiguous)
      else
        var content :=
          if replaceAll then ReplaceAll(original, oldText, newText) else ReplaceN(original, oldText, newText, 1);
        if |content| > MAX_TEXT_BYTES then Err(ResultTooLong) else Ok(content)
  }

  /**
   An accepted edit replaces every occurrence: the one there is, or all of them with replace_all. It changes the
   file, which is how recovery tells the two states apart.
   */
  lemma AcceptedEdit(original: Bytes, oldText: Bytes, newText: Bytes, replaceAll: bool)
    requires CheckArguments(oldText, newText).None?
    requires NewContent(original, oldText, newText, replaceAll).Ok?
    ensures var content := NewContent(original, oldText, newText, replaceAll).value;
      var k := Count(original, oldText);
      && content != original
      && k >= 1 && (k == 1 || replaceAll)
      && |content| == |original| + k * (|newText| - |oldText|)
      && (exists gaps: seq<Bytes> ::
            LeftmostSplit(original, oldText, gaps) && |gaps| == k + 1
            && Join(gaps, oldText) == original && Join(gaps, newText) == content
            && NoOccurrence(gaps[k], oldText))
      && (Valid(oldText) && Valid(newText) ==> Valid(content))
  {
    hide Valid, LeftmostSplit, ReplaceN, Count, Join;
    GapsCount(original, oldText, |original|);
    var k := if replaceAll then |original| else 1;
    ReplaceExact(original, oldText, newText, k);
    var gaps: seq<Bytes> :|
      && LeftmostSplit(original, oldText, gaps)
      && |gaps| == Min(k, Count(original, oldText)) + 1
      && Join(gaps, oldText) == original
      && Join(gaps, newText) == ReplaceN(original, oldText, newText, k)
      && (k >= Count(original, oldText) ==> NoOccurrence(gaps[|gaps| - 1], oldText));
    if Valid(oldText) && Valid(newText) {
      ReplaceKeepsUtf8(original, oldText, newText, gaps);
    }
  }
}
