/**
 What the handlers decide, in their own terms: when each request is accepted, what it then installs, and with which
 error it is refused (fs_ops.rs: create, edit, delete, check_base_hash; undo.rs: undo; server.rs: the Undo dispatch).
 */
module Handlers {
  import opened Prelude
  import opened Protocol
  import opened Tables
  import opened TextEdit
  import opened Plans
  import Utf8

  /** The four sizes edit and create check are bounded by 4 MiB. */
  predicate Short(text: Bytes) { |text| <= 4_194_304 }

  // ---- create ----

  lemma CreateDecided(ws: Workspace, files: Files, path: string, content: Bytes)
    ensures var d := PlanCreate(ws, files, path, content);
      && (d.Ok? <==> Short(content) && path in ws && ws[path] !in files)
      && (d.Ok? ==> d.value == Plan(Create, path, ws[path], None, Some(content), None, None))
      && (d.Err? ==> (d.error.code == InvalidRequest <==> !Short(content)))
      && (d.Err? ==> (d.error.code == PathOutsideRoot <==> Short(content) && path !in ws))
      && (d.Err? ==> d.error.code in {InvalidRequest, PathOutsideRoot, AlreadyExists})
  {
  }

  // ---- delete ----

  lemma DeleteDecided(ws: Workspace, files: Files, path: string)
    ensures var d := PlanDelete(ws, files, path);
      && (d.Ok? <==> path in ws && ws[path] in files)
      && (d.Ok? ==>
            d.value == Plan(Delete, path, ws[path], Some(files[ws[path]]), None, Some(files[ws[path]]), None))
      && (d.Err? ==> d.error.code == if path !in ws then PathOutsideRoot else NotFound)
  {
  }

  // ---- edit ----

  /** The arguments alone. */
  predicate EditArguments(o: Bytes, n: Bytes) { o != [] && o != n && Short(o) && Short(n) }

  /** A file the client described, that edit can work on. */
  ghost predicate Editable(ws: Workspace, files: Files, path: string, base: Hash) {
    path in ws && ws[path] in files && Digest(files[ws[path]]) == base
    && Short(files[ws[path]]) && Utf8.Valid(files[ws[path]])
  }

  /**
   What an accepted edit of `original` installs: with `gaps` the text around every occurrence of the old text, one of
   them unless replace_all, the gaps joined by the new text.
   */
  ghost predicate Replacement(original: Bytes, o: Bytes, n: Bytes, all: bool, gaps: seq<Bytes>, content: Bytes)
    requires o != []
  {
    FullSplit(original, o, gaps) && |gaps| >= 2 && (|gaps| == 2 || all) && content == Join(gaps, n)
  }

  lemma ContentDecided(original: Bytes, o: Bytes, n: Bytes, all: bool) returns (gaps: seq<Bytes>)
    requires EditArguments(o, n)
    ensures FullSplit(original, o, gaps)
    ensures var r := NewContent(original, o, n, all);
      && (r.Ok? <==>
            && Short(original) && Utf8.Valid(original) && |gaps| >= 2 && (|gaps| == 2 || all)
            && Short(Join(gaps, n)))
      && (r.Ok? ==> r.value == Join(gaps, n))
      && (r.Err? ==> (r.error.NoOldText? <==> Short(original) && Utf8.Valid(original) && |gaps| == 1))
      && (r.Err? ==> (r.error.Ambiguous? <==> Short(original) && Utf8.Valid(original) && |gaps| > 2 && !all))
  {
    hide FullSplit, Join, Count, ReplaceN, ReplaceAll, Utf8.Valid;
    gaps := CountsFully(original, o, n);
  }

  /** The gaps around every occurrence are determined by the text. */
  lemma GapsDetermined(s: Bytes, o: Bytes, g: seq<Bytes>)
    requires o != [] && FullSplit(s, o, g)
    ensures forall h: seq<Bytes> :: FullSplit(s, o, h) ==> h == g
  {
    hide FullSplit;
    forall h: seq<Bytes> | FullSplit(s, o, h) ensures h == g {
      SplitUnique(s, o, g, h);
    }
  }

  /**
   When an edit is accepted and what it installs: exactly if its arguments are sensible, the file is the one the base
   hash describes, and the replacement exists and is short; and then precisely that replacement.
   */
  lemma EditDecided(ws: Workspace, files: Files, path: string, base: Hash, o: Bytes, n: Bytes, all: bool)
    ensures var d := PlanEdit(ws, files, path, base, o, n, all);
      d.Ok? <==>
        && EditArguments(o, n) && Editable(ws, files, path, base)
        && exists gaps, content :: Replacement(files[ws[path]], o, n, all, gaps, content) && Short(content)
    ensures var d := PlanEdit(ws, files, path, base, o, n, all);
      d.Ok? ==>
        && path in ws && ws[path] in files && o != []
        && d.value == Plan(Edit, path, ws[path], Some(files[ws[path]]), d.value.after, Some(files[ws[path]]), None)
        && d.value.after.Some?
        && exists gaps :: Replacement(files[ws[path]], o, n, all, gaps, d.value.after.value)
  {
    hide NewContent, FullSplit, Join, Utf8.Valid;
    if EditArguments(o, n) && path in ws && ws[path] in files {
      var original := files[ws[path]];
      var gaps := ContentDecided(original, o, n, all);
      GapsDetermined(original, o, gaps);
      assert NewContent(original, o, n, all).Ok? ==> Replacement(original, o, n, all, gaps, Join(gaps, n));
    }
  }

  /** With which error an edit is refused, in the order of the checks. */
  lemma EditRefused(ws: Workspace, files: Files, path: string, base: Hash, o: Bytes, n: Bytes, all: bool)
    requires PlanEdit(ws, files, path, base, o, n, all).Err?
    ensures var e := PlanEdit(ws, files, path, base, o, n, all).error;
      && (e.code == PathOutsideRoot <==> EditArguments(o, n) && path !in ws)
      && (e.code == NotFound <==> EditArguments(o, n) && path in ws && ws[path] !in files)
      && (e.code == StaleFile <==>
            EditArguments(o, n) && path in ws && ws[path] in files && Digest(files[ws[path]]) != base)
      && (e.code == StaleFile ==> e.expectedHash == Some(base) && e.actualHash == Some(Digest(files[ws[path]])))
      && (e.code == NoMatch <==>
            EditArguments(o, n) && Editable(ws, files, path, base) && NoOccurrence(files[ws[path]], o))
      && (e.code == AmbiguousMatch <==>
            && EditArguments(o, n) && Editable(ws, files, path, base) && !all
            && exists gaps :: FullSplit(files[ws[path]], o, gaps) && |gaps| > 2)
      && (e.code in {InvalidRequest, PathOutsideRoot, NotFound, StaleFile, NoMatch, AmbiguousMatch})
  {
    hide NewContent, FullSplit, Join, Utf8.Valid, NoOccurrence;
    if EditArguments(o, n) && path in ws && ws[path] in files {
      var original := files[ws[path]];
      var gaps := ContentDecided(original, o, n, all);
      GapsDetermined(original, o, gaps);
      OneGap(original, o, gaps);
    }
  }

  // ---- undo ----

  /** With which error an undo is refused before its file is looked at. */
  lemma UndoTargetRefused(ws: Workspace, files: Files, blobs: Blobs, records: seq<Record>, target: nat)
    ensures var d := Decide(ws, files, blobs, records, UndoRequest(target)); var r := FindRecord(records, target);
      && (r.None? ==> d.Err? && d.error.code == OperationNotFound)
      && (r.Some? && !(r.value.Fs? && !r.value.kind.Undo?) ==> d.Err? && d.error.code == InvalidRequest)
      && (r.Some? && r.value.Fs? && !r.value.kind.Undo? && r.value.path !in ws ==>
            d.Err? && d.error.code == PathOutsideRoot)
  {
    FindRecordFacts(records, target);
  }

  /** With which error an undo is refused when its target's file is not as the target left it. */
  lemma UndoConflicts(ws: Workspace, files: Files, blobs: Blobs, target: Record)
    requires target.Fs? && !target.kind.Undo? && target.path in ws
    ensures var d := PlanUndo(ws, files, blobs, target); var current := Lookup(files, ws[target.path]);
      && (d.Err? ==> d.error.code == UndoConflict)
      && (current.Some? && Digest(current.value) != target.after ==>
            d.Err? && d.error.expectedHash == Some(target.after) && d.error.actualHash == Some(Digest(current.value)))
      && (current.None? && target.after != FILE_DELETED_SENTINEL ==>
            d.Err? && d.error.expectedHash.None? && d.error.actualHash.None?)
      && (target.before.Some? && target.id !in blobs ==> d.Err?)
  {
  }
}
