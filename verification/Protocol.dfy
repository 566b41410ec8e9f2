/**
 The protocol's records and messages (agent-remote-protocol: error.rs, record.rs, messages.rs).
 Operation ids "op-N" are represented by N. Fields that no modelled function reads (argv, cwd,
 profile, timeout of an exec record) are omitted.
 */
module Protocol {
  import opened Prelude

  type Rid = string

  /** SHA-256 as an injective function: a digest carries what it was computed from. */
  datatype Hash = Digest(data: Bytes) | Text(text: string)

  /** The value standing for "the file is absent"; it is no digest. */
  const FILE_DELETED_SENTINEL: Hash := Text("sha256:")

  function HashOf(content: Option<Bytes>): (h: Option<Hash>)
    ensures h.Some? <==> content.Some?
    ensures content.Some? ==> h == Some(Digest(content.value))
  {
    match content
    case None => None
    case Some(b) => Some(Digest(b))
  }

  /** How a record writes the state a mutation leaves behind. */
  function AfterHash(content: Option<Bytes>): (h: Hash)
    ensures content.Some? ==> h == Digest(content.value)
    ensures content.None? ==> h == Text("sha256:")
  {
    match content
    case None => FILE_DELETED_SENTINEL
    case Some(b) => Digest(b)
  }

  datatype ErrorCode =
    | InvalidRequest | PathOutsideRoot | NotFound | StaleFile | IoError | ExecFailed
    | UndoConflict | OperationNotFound | AlreadyExists | NoMatch | AmbiguousMatch

  datatype ProtocolError = ProtocolError(code: ErrorCode, message: string, expectedHash: Option<Hash>,
      actualHash: Option<Hash>)

  function Error(code: ErrorCode, message: string): ProtocolError {
    ProtocolError(code, message, None, None)
  }

  datatype OperationKind = Create | Edit | Delete | Undo | Write | Patch

  datatype Termination = Exited(code: int) | TimedOut | Signaled(signal: int)

  datatype Disposition = RanToEnd | KilledByTimeout | Rejected

  datatype Output = Output(prefix: string, suffix: string, totalBytes: nat, omittedBytes: nat)

  const NO_OUTPUT: Output := Output("", "", 0, 0)

  datatype ExecData = ExecData(
    disposition: Disposition, termination: Option<Termination>, error: Option<string>, errorCode: Option<ErrorCode>,
    durationMs: nat, drainTimedOut: bool, stdout: Output, stderr: Output)

  datatype Direction = Upload | Download

  datatype TransferData = TransferData(direction: Direction, path: string, size: nat, sha256: Hash, durationMs: nat)

  datatype Record =
    | Fs(id: nat, rid: Rid, kind: OperationKind, path: string, before: Option<Hash>, after: Hash, ts: nat)
    | Exec(id: nat, rid: Rid, exec: ExecData, ts: nat)
    | Transfer(id: nat, rid: Rid, transfer: TransferData, ts: nat)
    | Prepared(id: nat, rid: Rid, kind: OperationKind, path: string, before: Option<Hash>, after: Hash, ts: nat)
    | Aborted(id: nat, ts: nat)
  {
    /** True for the records clients see, false for the write-ahead markers. */
    predicate IsCommitted() { Fs? || Exec? || Transfer? }
  }

  datatype Body =
    | MutationBody(operationId: nat, oldHash: Option<Hash>, newHash: Hash)
    | UndoBody(operationId: nat, restoredHash: Option<Hash>, newHash: Hash)
    | ExecBody(operationId: nat, termination: Termination, durationMs: nat, drainTimedOut: bool, stdout: Output,
        stderr: Output)
    | TransferBody(operationId: nat, transfer: TransferData)
    | OtherBody(text: string)

  datatype ServerMessage = ResultMsg(rid: Rid, body: Body) | ErrorMsg(rid: Rid, error: ProtocolError)

  datatype RequestStatus = Unknown | InProgress | Done | Failed

  datatype StoredResult = StoredDone(msg: ServerMessage) | StoredError(error: ProtocolError)

  datatype OpKind =
    | OpList | OpStat | OpRead | OpCreate | OpEdit | OpExec | OpDelete | OpUndo
    | OpUploadCommit | OpDownloadRecord | OpHistory | OpOperationGet | OpRequestStatus | OpGc

  datatype RequestEntry = RequestEntry(status: RequestStatus, result: Option<StoredResult>, op: Option<OpKind>)

  /** One line of requests.jsonl. */
  datatype RequestLine = RequestLine(
    rid: Rid, status: RequestStatus, resultDone: Option<ServerMessage>, resultError: Option<ProtocolError>,
        op: Option<OpKind>)
}
