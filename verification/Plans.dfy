/**
 What each mutating handler decides before it writes anything: refuse, or a plan of blob, marker, install and
 commit (fs_ops.rs: create, edit, delete, check_base_hash; undo.rs: undo; server.rs: the Undo dispatch).
 */
module Plans {
  import opened Prelude
  import opened Protocol
  import opened Tables
  import opened TextEdit
  import Utf8

  /** Path resolution: a partial function from request paths to file keys, fixed over a run. */
  type Workspace = imap<string, string>

  type Files = map<string, Bytes>

  type Blobs = map<nat, Bytes>

  function Lookup<K, V>(m: map<K, V>, k: K): (v: Option<V>)
    ensures v.Some? <==> k in m
    ensures v.Some? ==> m[k] == v.value
  {
    if k in m then Some(m[k]) else None
  }

  /** Put content at a key, or remove the key; every other key is left alone. */
  function Store<K, V>(m: map<K, V>, k: K, v: Option<V>): (t: map<K, V>)
    ensures Lookup(t, k) == v && t - {k} == m - {k}
  {
    match v
    case None => m - {k}
    case Some(x) => m[k := x]
  }

  datatype Plan = Plan(
    kind: OperationKind, path: string, key: string,
    before: Option<Bytes>,        // file content now
    after: Option<Bytes>,         // file content to install
    blob: Option<Bytes>,          // content saved for a later undo
    restored: Option<Hash>)       // undo only: the before hash of the operation being undone

  type Decision = Result<Plan, ProtocolError>

  function Refuse(code: ErrorCode, message: string): Decision { Err(Error(code, message)) }

  const UNRESOLVED: ProtocolError := Error(PathOutsideRoot, "path does not resolve inside the workspace")

  function PlanCreate(ws: Workspace, files: Files, path: string, content: Bytes): Decision {
    if |content| > MAX_TEXT_BYTES then Refuse(InvalidRequest, "content too long")
    else if path !in ws then Err(UNRESOLVED)
    else if ws[path] in files then Refuse(AlreadyExists, "already exists")
    else Ok(Plan(Create, path, ws[path], None, Some(content), None, None))
  }

  function CheckBaseHash(current: Option<Bytes>, baseHash: Option<Hash>): Result<Option<Hash>, ProtocolError> {
    if baseHash.None? then Ok(HashOf(current))
    else match HashOf(current)
      case Some(actual) =>
        if actual == baseHash.value then Ok(Some(actual))
        else Err(ProtocolError(StaleFile, "file changed since base_hash", baseHash, Some(actual)))
      case None =>
        Err(ProtocolError(StaleFile, "file does not exist", baseHash, Some(FILE_DELETED_SENTINEL)))
  }

  function EditErrorCode(e: EditError): ErrorCode {
    match e
    case NoOldText => NoMatch
    case Ambiguous => AmbiguousMatch
    case _ => InvalidRequest
  }

  function PlanEdit(ws: Workspace, files: Files, path: string, baseHash: Hash, oldText: Bytes, newText: Bytes,
                    replaceAll: bool): Decision {
    var bad := CheckArguments(oldText, newText);
    if bad.Some? then Refuse(EditErrorCode(bad.value), "bad edit arguments")
    else if path !in ws then Err(UNRESOLVED)
    else if ws[path] !in files then Refuse(NotFound, "not found")
    else
      var original := files[ws[path]];
      var checked := CheckBaseHash(Some(original), Some(baseHash));
      if checked.Err? then Err(checked.error)
      else
        var content := NewContent(original, oldText, newText, replaceAll);
        if content.Err? then Refuse(EditErrorCode(content.error), "edit refused")
        else Ok(Plan(Edit, path, ws[path], Some(original), Some(content.value), Some(original), None))
  }

  function PlanDelete(ws: Workspace, files: Files, path: string): Decision {
    if path !in ws then Err(UNRESOLVED)
    else if ws[path] !in files then Refuse(NotFound, "not found")
    else
      var content := files[ws[path]];
      Ok(Plan(Delete, path, ws[path], Some(content), None, Some(content), None))
  }

  function Conflict(expected: Hash, actual: Hash): Decision {
    Err(ProtocolError(UndoConflict, "file changed since target operation", Some(expected), Some(actual)))
  }

  const BLOB_MISSING: ProtocolError := Error(UndoConflict, "before-content blob missing; cannot restore")

  function PlanUndo(ws: Workspace, files: Files, blobs: Blobs, target: Record): Decision
    requires target.Fs?
  {
    if target.kind.Undo? then Refuse(InvalidRequest, "cannot undo an undo operation")
    else if target.path !in ws then Err(UNRESOLVED)
    else
      var key := ws[target.path];
      var current := Lookup(files, key);
      match (target.before, current)
      case (None, Some(bytes)) =>
        if Digest(bytes) != target.after then Conflict(target.after, Digest(bytes))
        else Ok(Plan(Undo, target.path, key, current, None, current, target.before))
      case (Some(_), Some(bytes)) =>
        if Digest(bytes) != target.after then Conflict(target.after, Digest(bytes))
        else if target.id !in blobs then Err(BLOB_MISSING)
        else Ok(Plan(Undo, target.path, key, current, Some(blobs[target.id]), current, target.before))
      case (Some(_), None) =>
        if target.after != FILE_DELETED_SENTINEL then Refuse(UndoConflict, "file no longer exists")
        else if target.id !in blobs then Err(BLOB_MISSING)
        else Ok(Plan(Undo, target.path, key, None, Some(blobs[target.id]), None, target.before))
      case (None, None) => Refuse(UndoConflict, "file no longer exists")
  }

  /** The operations that leave no record. */
  type ReadOnlyOp = op: OpKind
    | op.OpList? || op.OpStat? || op.OpRead? || op.OpHistory? || op.OpOperationGet? || op.OpRequestStatus? || op.OpGc?
    witness OpList

  /** The requests the write guard serialises, and the rest. */
  datatype Request =
    | CreateRequest(path: string, content: Bytes)
    | EditRequest(path: string, baseHash: Hash, oldText: Bytes, newText: Bytes, replaceAll: bool)
    | DeleteRequest(path: string)
    | UndoRequest(target: nat)
    | ExecRequest
    | TransferRequest(direction: Direction)
    | OtherRequest(op: ReadOnlyOp)
  {
    predicate IsMutation() { CreateRequest? || EditRequest? || DeleteRequest? || UndoRequest? }

    /** The operation written to the request log. */
    function Op(): (op: OpKind)
      ensures op == OpExec <==> ExecRequest?
      ensures op == OpCreate <==> CreateRequest?
      ensures op == OpEdit <==> EditRequest?
      ensures op == OpDelete <==> DeleteRequest?
      ensures op == OpUndo <==> UndoRequest?
      ensures op == OpUploadCommit || op == OpDownloadRecord <==> TransferRequest?
      ensures TransferRequest? ==> (op == OpUploadCommit <==> direction.Upload?)
      ensures OtherRequest? ==> op == this.op
    {
      match this
      case CreateRequest(_, _) => OpCreate
      case EditRequest(_, _, _, _, _) => OpEdit
      case DeleteRequest(_) => OpDelete
      case UndoRequest(_) => OpUndo
      case ExecRequest => OpExec
      case TransferRequest(d) => if d.Upload? then OpUploadCommit else OpDownloadRecord
      case OtherRequest(op) => op
    }
  }

  function Decide(ws: Workspace, files: Files, blobs: Blobs, records: seq<Record>, request: Request): Decision
    requires request.IsMutation()
  {
    match request
    case CreateRequest(path, content) => PlanCreate(ws, files, path, content)
    case EditRequest(path, base, o, n, all) => PlanEdit(ws, files, path, base, o, n, all)
    case DeleteRequest(path) => PlanDelete(ws, files, path)
    case UndoRequest(target) =>
      match FindRecord(records, target)
      case Some(r) =>
        if r.Fs? then PlanUndo(ws, files, blobs, r)
        else if r.Exec? then Refuse(InvalidRequest, "cannot undo an exec operation")
        else Refuse(InvalidRequest, "transfer operations do not support undo")
      case None => Refuse(OperationNotFound, "operation not found")
  }

  /** The write-ahead marker and the record of a plan, and the reply the handler sends once it is committed. */
  function MarkerOf(id: nat, rid: Rid, p: Plan, ts: nat): Record {
    Prepared(id, rid, p.kind, p.path, HashOf(p.before), AfterHash(p.after), ts)
  }

  function CommitOf(id: nat, rid: Rid, p: Plan, ts: nat): Record {
    Fs(id, rid, p.kind, p.path, HashOf(p.before), AfterHash(p.after), ts)
  }

  function ReplyTo(id: nat, rid: Rid, p: Plan): ServerMessage {
    if p.kind.Undo? then ResultMsg(rid, UndoBody(id, p.restored, AfterHash(p.after)))
    else ResultMsg(rid, MutationBody(id, HashOf(p.before), AfterHash(p.after)))
  }

  /** A plan saves exactly what it overwrites and changes the file; an undo restores what its target says was there. */
  ghost predicate GoodPlan(ws: Workspace, p: Plan) {
    && p.path in ws && p.key == ws[p.path] && p.blob == p.before && p.after != p.before
    && (p.kind.Undo? ==> p.restored == HashOf(p.after)) && !p.kind.Write? && !p.kind.Patch?
  }

  /** The plan that puts back what a mutation found. */
  function ReversalOf(p: Plan): Plan {
    Plan(Undo, p.path, p.key, p.after, p.before, p.after, HashOf(p.before))
  }

  /** What recovery relies on: besides, the plan describes the file as it is. */
  ghost predicate SoundPlan(ws: Workspace, files: Files, p: Plan) {
    GoodPlan(ws, p) && p.before == Lookup(files, p.key)
  }

  /** The target of an undo is trustworthy: its before hash is its blob's, and it changed the file. */
  ghost predicate UndoableTarget(blobs: Blobs, r: Record)
    requires r.Fs?
  {
    && (r.before.Some? && r.id in blobs ==> r.before == Some(Digest(blobs[r.id])))
    && (r.before.Some? ==> r.before != Some(r.after))
  }

  lemma EditPlanSound(ws: Workspace, files: Files, path: string, base: Hash, o: Bytes, n: Bytes, all: bool)
    ensures var d := PlanEdit(ws, files, path, base, o, n, all); d.Ok? ==> SoundPlan(ws, files, d.value)
  {
    hide NewContent, CheckArguments, LeftmostSplit, Join, Count, ReplaceAll, ReplaceN, OccursAt, Utf8.Valid;
    if CheckArguments(o, n).None? && path in ws && ws[path] in files && NewContent(files[ws[path]], o, n, all).Ok? {
      EditChanges(files[ws[path]], o, n, all);
    }
  }

  lemma EditChanges(original: Bytes, o: Bytes, n: Bytes, all: bool)
    requires CheckArguments(o, n).None? && NewContent(original, o, n, all).Ok?
    ensures NewContent(original, o, n, all).value != original
  {
    hide NewContent;
    AcceptedEdit(original, o, n, all);
  }

  lemma UndoPlanSound(ws: Workspace, files: Files, blobs: Blobs, target: Record)
    requires target.Fs? && UndoableTarget(blobs, target)
    ensures var d := PlanUndo(ws, files, blobs, target); d.Ok? ==> SoundPlan(ws, files, d.value)
  {
  }

  lemma DecisionSound(ws: Workspace, files: Files, blobs: Blobs, records: seq<Record>, request: Request)
    requires request.IsMutation()
    requires forall r :: r in records && r.Fs? ==> UndoableTarget(blobs, r)
    ensures var d := Decide(ws, files, blobs, records, request); d.Ok? ==> SoundPlan(ws, files, d.value)
  {
    hide PlanEdit, PlanUndo, SoundPlan;
    match request
    case CreateRequest(path, content) => CreatePlanSound(ws, files, path, content);
    case EditRequest(path, base, o, n, all) => EditPlanSound(ws, files, path, base, o, n, all);
    case DeleteRequest(path) => DeletePlanSound(ws, files, path);
    case UndoRequest(target) =>
      FindRecordFacts(records, target);
      var found := FindRecord(records, target);
      if found.Some? && found.value.Fs? {
        UndoPlanSound(ws, files, blobs, found.value);
      }
  }

  lemma CreatePlanSound(ws: Workspace, files: Files, path: string, content: Bytes)
    ensures var d := PlanCreate(ws, files, path, content); d.Ok? ==> SoundPlan(ws, files, d.value)
  {
  }

  lemma DeletePlanSound(ws: Workspace, files: Files, path: string)
    ensures var d := PlanDelete(ws, files, path); d.Ok? ==> SoundPlan(ws, files, d.value)
  {
  }

  /** What create, edit and delete decide depends on one file only. */
  lemma DecidedByFile(ws: Workspace, a: Files, b: Files, blobs: Blobs, records: seq<Record>, request: Request, p: Plan)
    requires request.IsMutation() && !request.UndoRequest?
    requires Decide(ws, a, blobs, records, request) == Ok(p) && Lookup(b, p.key) == Lookup(a, p.key)
    ensures p.before == Lookup(a, p.key)
    ensures Decide(ws, b, map[], [], request) == Ok(p)
  {
    hide NewContent, CheckArguments;
  }
}
