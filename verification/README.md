# Verification of agent-remote

agent-remote lets an agent work on files of a remote machine through a small server: it creates, edits, deletes and
undoes files, runs commands and moves files, and keeps an append-only operation log, an append-only request log that
makes requests idempotent, a saved copy of everything it overwrites, and an operation counter. A client talks to it
over a pipe that can break at any time. This project models that core in Dafny 4.11 and proves what it is for: nothing
half-done survives a crash, a request is carried out once as long as its record or its entry is kept, an answer is given
again as long as the disk can tell it, undo puts back what was there, and the text and byte algorithms around it lose
nothing they promise to keep. Where such a promise holds only under a condition, the condition is proved to be exact.

`dafny verify dfyconfig.toml` checks everything.

## How it is organised

| file | about |
|---|---|
| `Protocol`, `Tables`, `Replies` | records, log lines, the meaning of a log (last line per key wins), rebuilding an answer from a record |
| `Plans`, `TextEdit`, `Utf8`, `Pagination` | what each handler decides before it writes; exact replacement; UTF-8 and character boundaries; paged reads |
| `Handlers`, `Outcomes` | when each request is accepted, what it then does to its file, what it logs and answers, and which error refuses it, in the request's own terms |
| `Machine`, `Cases` | the server as a state machine: one event for each durable write, plus crash, load, every step of recovery and of prune |
| `Invariant`, `ServingProofs`, `RecoveryProofs`, `PruneProofs` | what holds in every reachable state, event by event |
| `Runs`, `Steps`, `Claims` | the theorems about whole runs, building runs event by event, racing claims |
| `Restart`, `Reentrancy`, `Verdicts`, `CrashPoints` | what a restart arrives at from any crash state, when that depends on further crashes, what becomes of an interrupted mutation by the content of its file, dying after each step of a mutation |
| `Answers`, `Duplicates` | which requests a restart forgets and which answers it gives again, and the racing duplicate that loses one |
| `Pruning`, `Commands`, `Mutations`, `Planning`, `Repeats` | what prune keeps, and exactly when a command can be started or a mutation installed once more |
| `Loading`, `StateStore`, `Server` | the store as the mutable object it is, and one request from claim to answer, each durable write tied to one machine event |
| `LogBytes`, `LogLines` | the log files as bytes: lines, torn tails, repair; what loading any file means, raw line by raw line |
| `Capture`, `ShellQuote`, `Framing`, `CloseProtocol` | command output, remote command lines, downloads, and the client's close protocol |

The machine and the class answer different questions. `Machine` interleaves what the source interleaves, within
the assumptions below: callers inside `claim_request`, commands, transfers, the mutation under the write guard, outside writes, prune, and a
crash between any two durable writes. `StateStore.OperationStore` has the source's fields and methods; its ghost field
`now` is the machine state it is in, and each primitive that writes something durable demands a machine step with
exactly that effect. So a method that wrote in another order would not verify, and every theorem about reachable
states holds after every single write of every method.

## Assumptions

- The hash is injective; the sentinel `sha256:` is the hash of no content. Operation ids `op-N` are the numbers N.
- After a marker is logged, a mutation either goes on or the process dies. The source also returns I/O errors there
  (for instance `AlreadyExists` from the hard link, fs_ops.rs:319) and then leaves the marker unresolved until the next start.
- A durable append is all or nothing in `Machine`; `LogBytes` and `CrashPoints.TornAppendIsAtomic` justify that. The
  writes of a blob and of the counter are atomic too. The source truncates and rewrites the counter in place
  (store.rs:832), and refuses to start on an empty one (store.rs:126): `Reentrancy.RestartExists` leaves that death out.
- Outside programs, commands among them, may write any file at any moment, except the one file a mutation under the
  write guard is about to replace; while the server is down they may also write the file of an unresolved mutation. The
  file an upload installs counts as such a write.
- Duplicates of a request id are copies of one request. Prune runs when no caller is between its claim line and its
  table entry and no mutation holds the guard.
- While a prune rewrites its logs nothing is appended to them: during `Pruning` the machine has no event that ends a
  command, records a transfer or remembers an answer. In the source those appends take none of the locks prune holds
  (store.rs:877-917), so such a line can be written to a log that is about to be replaced, and be lost.
- Timestamps are arbitrary. A load leaves any order of the folded records that is sorted by timestamp.
- Path resolution is a partial function fixed over a run. One server per state directory.
- Log and frame encodings: one line, UTF-8, parse back, no proper prefix parses. `Framing.LawsCanBeMet` gives
  such a codec for every type whose values can be numbered.

## What turned out to be false, and exactly when it holds

- "A command is never retried" fails when a history limit is set. Recovery marks a command that was running at a crash
  as never to be retried, but the startup prune drops that mark, whatever the limit, because no record mentions the
  request: `Commands.ExecRunsTwice` gives the run. A command is started at most once, plus once for each time prune
  forgot its request (`Runs.ExecAtMostOnce`); it can be started, however the server dies and restarts, if and only if
  its request has no entry or its entry has not started it yet (`Commands.StartableIff`), and a prune opens that way if
  and only if the request is not being executed and no retained record mentions it (`Commands.PruneReenables`).
- "A mutation is done at most once" needs its record, or the file as the mutation left it. The write guard is released
  before the answer is durable (server.rs:281, 306, 325); a gc in between can drop the record and leave the request
  pending, and a death then opens the request again although prune never forgot it (`Mutations.PrunedInFlight`). In
  general a death opens a request again if and only if its last line is a claim, of anything but a command, and it has
  neither a record in the log nor an install under the guard (`Mutations.CrashForgets`). A request opened again, or
  forgotten by prune, is installed once more if and only if the file admits it (`Repeats.InstallsAgainIff`): create needs
  the path absent, edit the very content it edited, delete any file, undo its target's record and the state the target
  left. While the file is as the mutation left it the repeat is refused (`Repeats.RepeatIff`), so a second install takes
  another write to the file in between; `Repeats.CreatedTwice` is such a run. Counted over whole runs, a mutation is installed at most
  once, plus once for each time prune took its record out of the log and once for each time recovery rolled it back
  because somebody wrote its file (`Runs.InstallAtMostOnce`, `Mutations.InstallOnceWithoutPrune`).
- "Duplicates cannot disturb each other": a duplicate that finds its id being executed is not answered but refused, with
  "request already in progress", and has to ask again; that is decided exactly while somebody executes the id
  (`Runs.NothingStuck`, `Claims.LoserIsTold`). `claim_request` is described as one locked check-and-insert
  (server.rs:184-185), but the lock is released while the claim line is written. One caller still wins
  (`Claims.SingleWinner`), yet a loser's line can land after the winner's answer. An answer is given again after a death
  if and only if its last line is not such a claim, or the log has the request's record at that moment, or it is itself
  "lost in a crash" (`Answers.AnswerSurvives`, `Duplicates.LateClaim`); `Duplicates.DuplicateLosesAnswer` gives a run in
  which one request is answered twice, differently. While every crash meets that condition and every prune retains the
  entry, each message sent for a request is such a refusal or the request's one answer (`Answers.RepliesAgree`), and
  once the answer is stored nothing else is decided for it (`Answers.AnswerGivenAgain`).
- Recovery is re-entrant if and only if the file of an unresolved mutation holds what the mutation found or what it was
  to leave (`Reentrancy.ReentrantIff`, `Verdicts.ReentrantByContent`). Otherwise dying between the Aborted line and the
  error line loses the error (`Reentrancy.ClashWindow`).
- The answer to a command that yielded no outcome survives a restart exactly when its error carried no hashes
  (`Replies.ExecReplySurvives`); the errors of exec carry none.
- The comment on `recover` (store.rs:238-240) says conflicts are marked Done with an error; the code marks them Error, and
  so does the model.

## Model

| member | source | states |
|---|---|---|
| Replies.ExecReplySurvives | crates/agent-remote-server/src/store.rs:706-748 | rebuilding an exec answer from its record gives the message that was sent if and only if an error in place of an outcome carried no hashes |
| Replies.ExecRebuilt | crates/agent-remote-server/src/store.rs:706-748 | any exec record rebuilds to its result if and only if it is not rejected and has a termination; a rejected one to its error, with ExecFailed for want of a code, one without termination to IoError |
| Tables.FoldUpsert | crates/agent-remote-server/src/store.rs:601-607 | replacing the record with the same id in place, or pushing it, is exactly what one more log line does to the folded table |
| Tables.FoldWithoutMarker | crates/agent-remote-server/src/store.rs:369-375 | dropping a marker removes that id from the table and nothing else |
| Tables.FoldSuffix | crates/agent-remote-server/src/store.rs:819-820 | dropping the oldest records leaves exactly the table entries of the others |
| Tables.FindByRequestFacts | crates/agent-remote-server/src/store.rs:644-660 | the search returns a committed record of the request, and None only if there is none |
| Tables.FindRecordFacts | crates/agent-remote-server/src/store.rs:632-638 | the search returns a committed record with the id, and None only if there is none |
| Utf8.ValidSplit | crates/agent-remote-server/src/fs_ops.rs:161-161 | cutting valid UTF-8 at a character boundary leaves two valid texts |
| Utf8.ValidInfix | crates/agent-remote-server/src/fs_ops.rs:391-391 | valid text occurs in valid text only between two character boundaries |
| Utf8.ValidIff | crates/agent-remote-server/src/fs_ops.rs:111-116 | text is valid if and only if it is what RFC 3629 section 3 encodes some sequence of Unicode scalar values to |
| Utf8.BoundaryIff | crates/agent-remote-server/src/fs_ops.rs:139-144 | a position of valid text is a character boundary if and only if cutting there leaves text on both sides |
| Pagination.NearestCharBoundaryAtOrAfter | crates/agent-remote-server/src/fs_ops.rs:545-552 | the loop returns the smallest character boundary at or after the target, clipped to the length |
| Pagination.NextBoundary | crates/agent-remote-server/src/fs_ops.rs:545-552 | that boundary is one, lies in range, and no earlier position is one |
| Pagination.Read | crates/agent-remote-server/src/fs_ops.rs:111-167 | without an offset a page starts at the beginning, without a limit it is cut at the first boundary 65536 bytes on; each refusal is given if and only if its check is the first to fail; otherwise the page is the text up to the first boundary at or past the limit, with where to go on |
| Pagination.PageFacts | crates/agent-remote-server/src/fs_ops.rs:122-167 | a page asked for at a boundary is never refused, is valid text, nonempty while data remains, at most limit+3 bytes, and its next offset is a boundary again |
| Pagination.WalkReadsFile | crates/agent-remote-server/src/fs_ops.rs:122-167 | following next_offset with any legal limits terminates and the pages concatenate to the file |
| TextEdit.ReplaceExact | crates/agent-remote-server/src/fs_ops.rs:391-413 | replacement keeps every byte outside the k leftmost non-overlapping occurrences, puts the new text in place of each, and changes the length by k times the difference |
| TextEdit.CountZero | crates/agent-remote-server/src/fs_ops.rs:391-399 | the count is zero exactly when the text occurs nowhere, overlapping or not |
| TextEdit.SplitUnique | crates/agent-remote-server/src/fs_ops.rs:391-399 | the text around all leftmost non-overlapping occurrences is determined by the file and the old text |
| TextEdit.CountsFully | crates/agent-remote-server/src/fs_ops.rs:391-413 | the count is the number of those occurrences, and replacing all of them, or the only one, is joining that text by the new text |
| TextEdit.ReplaceKeepsUtf8 | crates/agent-remote-server/src/fs_ops.rs:409-413 | replacing text by text in a UTF-8 file gives a UTF-8 file |
| TextEdit.AcceptedEdit | crates/agent-remote-server/src/fs_ops.rs:351-420 | an accepted edit replaces every occurrence there is, one unless replace_all, and always changes the file |
| Plans.DecisionSound | crates/agent-remote-server/src/fs_ops.rs:282-499 | an accepted mutation describes the file as it is, saves what it overwrites, changes the file, and an undo restores what its target's record says |
| Plans.UndoPlanSound | crates/agent-remote-server/src/undo.rs:38-85 | the same for every accepted line of undo's decision table |
| Handlers.CreateDecided | crates/agent-remote-server/src/fs_ops.rs:284-320 | a create is accepted if and only if its content has at most 4 MiB and the path resolves to nothing; it installs that content; each error is given exactly for its reason |
| Handlers.EditDecided | crates/agent-remote-server/src/fs_ops.rs:340-443 | an edit is accepted if and only if its texts are short, differ and the old one is not empty, the file is short text with the base hash, and the old text occurs, once unless replace_all; it installs the text around all occurrences joined by the new text |
| Handlers.EditRefused | crates/agent-remote-server/src/fs_ops.rs:347-408 | NoMatch if and only if the old text occurs nowhere, AmbiguousMatch if and only if it occurs more than once and replace_all is off, StaleFile with both hashes if and only if the base hash is another, and so for every code, in the order of the checks |
| Handlers.DeleteDecided | crates/agent-remote-server/src/fs_ops.rs:447-499 | a delete is accepted if and only if the file is there, saves its content and removes it |
| Handlers.UndoTargetRefused | crates/agent-remote-server/src/server.rs:380-412 | undo of an unknown operation, of a command or transfer, of an undo, or of an unresolvable path is refused with the code for that |
| Handlers.UndoConflicts | crates/agent-remote-server/src/undo.rs:38-85 | otherwise an undo is only refused with UndoConflict, with the expected and the actual hash if the file is there, and is refused when the saved content is missing |
| Outcomes.PlanAccomplishes | crates/agent-remote-server/src/fs_ops.rs:282-499 | in every reachable state an accepted mutation turns its file, and no other, from what the request demands into what it promises; an undo from what its target left into what its target found |
| ServingProofs.CommitReply | crates/agent-remote-server/src/undo.rs:154-158 | the answer a mutation sends is what its record rebuilds to, an undo's restored hash included |
| Invariant.InitialInv | crates/agent-remote-server/src/store.rs:106-216 | an unused state directory satisfies the invariant |
| Runs.StepKeeps | crates/agent-remote-server/src/store.rs:243-875 | every step of serving, recovery, prune and crash keeps the whole invariant of log, tables, blobs, guard, counter and history |
| Runs.ReachableInv | crates/agent-remote-server/src/store.rs:106-875 | so it holds in every reachable state |
| Runs.AtMostOnce | crates/agent-remote-server/src/store.rs:317-364 | at most one retained committed record carries a request id, and while it is retained no arrival of that id can pass the first check |
| Answers.RestartForgets | crates/agent-remote-server/src/store.rs:312-364 | a restart from any crash state without a marker that contradicts its file forgets a request if and only if it has no line, or its last line is a claim of anything but a command and the log holds neither its record nor a marker whose install took place |
| Answers.AnswerSurvives | crates/agent-remote-server/src/store.rs:317-364 | an answer is given again after a death and any restart if and only if its last line in the request log is not a claim, or the log has its record, or it is itself the answer of a lost command |
| Answers.AnswerGivenAgain | crates/agent-remote-server/src/store.rs:665-765 | once the answer is stored, over any run whose crashes all find it safe on disk and whose prunes all retain the entry, nothing else is decided for the request, and the table holds the answer whenever the server is up |
| Answers.RepliesAgree | crates/agent-remote-server/src/server.rs:187-222 | over any run from an unused directory whose crashes all find the answer safe and whose prunes all retain the entry, every message sent for a request is the refusal of a duplicate or the request's one answer |
| Runs.ReplayIsReconstruction | crates/agent-remote-server/src/server.rs:187-204 | a replay of a request with a record sends what the record rebuilds to, duplicates or not |
| Runs.IdsNeverReused | crates/agent-remote-server/src/store.rs:116-157 | over any run with crashes, restarts and prunes, the next id exceeds every id that ever reached the log |
| Runs.ExecAtMostOnce | crates/agent-remote-server/src/server.rs:502-649 | a command is started at most once, plus once for each time prune forgot its request, and cannot be started while it is ahead of that count |
| Runs.InstallAtMostOnce | crates/agent-remote-server/src/fs_ops.rs:282-499 | a mutation is installed at most once, plus once for each time its record was pruned and each time recovery rolled it back on a tampered file; a mutation about to be installed has not used up its count |
| Runs.PruneForgets | crates/agent-remote-server/src/store.rs:821-826 | a request is forgotten by a prune if and only if nobody is executing it and no retained record mentions it |
| Runs.NothingStuck | crates/agent-remote-server/src/store.rs:312-364 | while serving, the requests in progress are exactly those being executed; duplicates of these are refused, and all other known requests are replayed |
| Runs.LogRefinesMemory | crates/agent-remote-server/src/store.rs:139-197 | with no mutation under way, committed records in memory are the fold of the operation log; an entry differs from its last line only if it is an answer and the line a claim, and a line without an entry is a claim being made or a cleared one that is no command's |
| Runs.UndoInverts | crates/agent-remote-server/src/undo.rs:14-159 | undo of a retained operation is accepted if and only if it is no undo and the file is in the state the operation left, and its plan is then exactly the operation's, reversed |
| Runs.HistoryGrows | crates/agent-remote-server/src/store.rs:816-826 | no step loses sight of a logged id or a mutation; only the first step of a prune counts an entry as forgotten, and only prune takes records out of the log |
| Claims.SingleWinner | crates/agent-remote-server/src/store.rs:447-481 | once a caller has won an id nobody wins it again before a crash or a prune of this run drops it, however checks and claim lines interleave |
| Claims.LoserIsTold | crates/agent-remote-server/src/server.rs:187-222 | a caller that does not win is refused if and only if the id is being executed for somebody else, and otherwise given the stored answer; it has changed no log, table or owner |
| Restart.GoalEntryUnique | crates/agent-remote-server/src/store.rs:317-364 | the entry a restart must arrive at is unique |
| Restart.StepOnTrack | crates/agent-remote-server/src/store.rs:259-364 | no step of recovery, and no crash during it, moves the records and answers the restart is bound to reach |
| Restart.RestartReaches | crates/agent-remote-server/src/store.rs:243-367 | every finished restart ends with exactly those records and answers, no marker, and the files untouched |
| Restart.RecoveryReentrant | crates/agent-remote-server/src/store.rs:243-415 | any two restarts from the same crash state, with any further crashes on the way, end with the same files, records up to timestamps, and request table |
| Restart.UntamperedNoClash | crates/agent-remote-server/src/store.rs:273-288 | if nobody wrote the file while the server was down, its marker is classified as committed exactly when the install happened, and as dropped otherwise |
| Restart.CrashAtomic | crates/agent-remote-server/src/store.rs:243-367 | after a crash inside a mutation the file is its before or after content, the operation is in history if and only if the install happened, and its request is answered as the handler would have, or claimable again |
| Restart.InstalledIffCommitted | crates/agent-remote-server/src/store.rs:259-310 | over whole runs, exactly the installed mutations are committed, leaving aside those whose file was tampered with and the one under the guard |
| Restart.CrashReaches | crates/agent-remote-server/src/store.rs:243-367 | every restart after a death while serving ends at the records and answers the logs stood for at that moment, the files untouched |
| Reentrancy.RestartExists | crates/agent-remote-server/src/store.rs:243-367 | every dead server can be restarted, whatever its logs and files |
| Reentrancy.ReentrantIff | crates/agent-remote-server/src/store.rs:243-439 | all restarts from a crash state have the same outcome if and only if no marker contradicts its file |
| Verdicts.MarkerVerdict | crates/agent-remote-server/src/store.rs:259-310 | each marker is settled by the content of its file: what the mutation was to leave gives its record and its answer, what it found gives neither, anything else gives no record and an UndoConflict error; no file changes |
| Verdicts.ClashIsContradiction | crates/agent-remote-server/src/store.rs:273-288 | a dead server's marker contradicts its file if and only if the file holds neither what the mutation found nor what it was to leave |
| Verdicts.ReentrantByContent | crates/agent-remote-server/src/store.rs:243-439 | all restarts from a crash state have the same outcome if and only if no unresolved mutation's file holds anything else |
| Verdicts.FateReached | crates/agent-remote-server/src/store.rs:312-367 | a marker settled so is still settled so when recovery ends: a record and the done answer, or neither, or no record and the conflict |
| Reentrancy.ClashWindow | crates/agent-remote-server/src/store.rs:424-439 | the error for a marker that contradicts its file is kept by every later restart once written; a death before that makes every restart forget the request |
| CrashPoints.CrashAfterAnyStep | crates/agent-remote-server/src/store.rs:543-609 | dying after id, blob or marker leaves nothing, after install or commit everything including the answer, for every way the restart goes |
| CrashPoints.CrashAfterCommit | crates/agent-remote-server/src/store.rs:329-339 | a committed mutation whose answer was lost is answered after the restart as the handler would have |
| CrashPoints.TornAppendIsAtomic | crates/agent-remote-server/src/store.rs:900-917 | an append to the operation log cut at any byte loads as the log of the state before or after that step |
| CrashPoints.TornRequestLineIsAtomic | crates/agent-remote-server/src/store.rs:877-898 | the same for the request log |
| Pruning.PruneCrashSafe | crates/agent-remote-server/src/store.rs:816-875 | after any prefix of prune's durable steps the log is the old one or exactly the newest Min(keep, all) records, every blob a record needs exists, and every record's request has an entry |
| Pruning.PruneCompletes | crates/agent-remote-server/src/store.rs:816-875 | every prune that begins can run to its end |
| Pruning.ExecOnceWithoutPrune | crates/agent-remote-server/src/store.rs:329-347 | without prune no request's command is started twice, however often the server dies |
| Commands.StartableIff | crates/agent-remote-server/src/store.rs:341-347 | while up, a command can be started, over any deaths and restarts but no prune, if and only if its request has no entry or its entry has not started it |
| Commands.ClaimAndStart | crates/agent-remote-server/src/server.rs:502-530 | whatever request has no entry can be claimed and its command started |
| Commands.PruneReenables | crates/agent-remote-server/src/store.rs:821-826 | a completed prune lets a started command be started again if and only if its request was not being executed and no retained record mentions it |
| Commands.ExecRunsTwice | crates/agent-remote-server/src/server.rs:65-68 | for every workspace, files and limit, an explicit run from an unused directory, whose only prunes are the startup ones, starts one request's command twice |
| Mutations.InstallOnceWithoutPrune | crates/agent-remote-server/src/fs_ops.rs:282-499 | without prune and without writes to the file of an unresolved mutation while down, each request's mutation is installed at most once, however often the server dies |
| Mutations.CrashForgets | crates/agent-remote-server/src/store.rs:317-364 | a death while serving opens a request again if and only if its last line is a claim of anything but a command and it has neither a committed record in the log nor an install under the guard |
| Mutations.PrunedInFlight | crates/agent-remote-server/src/server.rs:467-470 | from every state in which a mutation is about to be answered, a gc that keeps nothing and a death open its request again, with no entry forgotten by prune |
| Mutations.ClaimAndInstall | crates/agent-remote-server/src/store.rs:447-574 | a request without an entry whose mutation is accepted is claimed and installed by the very run of its seven steps |
| Planning.ReachablePlanned | crates/agent-remote-server/src/fs_ops.rs:282-499 | in every reachable state each mutation under the guard or ever logged is what its request is decided to be, an undo the exact reversal of its target |
| Repeats.FileRepeated | crates/agent-remote-server/src/fs_ops.rs:282-499 | a create, edit or delete carried out again is accepted if and only if the path is absent, the file has the content it edited, or the file exists, respectively; never while the file is as the mutation left it |
| Repeats.UndoRepeated | crates/agent-remote-server/src/undo.rs:14-159 | an undo carried out again is accepted if and only if its target's record is retained and the file is back in the state the target left |
| Repeats.RepeatIff | crates/agent-remote-server/src/fs_ops.rs:282-499 | for every mutation ever logged, in every later state: its request is accepted again if and only if the file admits it, and refused while the file is as the mutation left it |
| Repeats.InstallsAgainIff | crates/agent-remote-server/src/store.rs:447-574 | a request whose mutation was logged before and that has no entry is claimed and installed once more if and only if the file admits it |
| Repeats.CreatedTwice | crates/agent-remote-server/src/server.rs:467-470 | from any unused directory an explicit run installs one create request twice, with no entry forgotten by prune and nothing rolled back |
| Duplicates.LateClaim | crates/agent-remote-server/src/store.rs:458-481 | a claim line written after the answer is harmless to every restart if and only if the log has the request's record, or the answer is that of a lost command |
| Duplicates.DuplicateLosesAnswer | crates/agent-remote-server/src/store.rs:458-481 | for every workspace and files, an explicit run from an unused directory answers one request with any two messages |
| Loading.LoadRecords | crates/agent-remote-server/src/store.rs:136-171 | the load leaves the last record of every id once, oldest first, and the highest id of any line |
| Loading.LoadRequests | crates/agent-remote-server/src/store.rs:173-197 | the load leaves the last line of every request |
| Loading.RetainRequests | crates/agent-remote-server/src/store.rs:824-826 | the loop keeps the entries in flight and those of retained records, and no other |
| Loading.LinesOf | crates/agent-remote-server/src/store.rs:835-851 | one line an entry, folding back to the table |
| Loading.FindCommittedByRequestId | crates/agent-remote-server/src/store.rs:644-660 | the loop finds the first committed record of the request |
| Loading.FindCommitted | crates/agent-remote-server/src/store.rs:632-638 | the loop finds the first committed record with the id |
| Loading.History | crates/agent-remote-server/src/store.rs:767-788 | every committed record but older ones beyond the limit, in order and unchanged, except that of a command's output only the total counts are left, all of it counted as omitted |
| StateStore.OperationStore.constructor | crates/agent-remote-server/src/store.rs:106-216 | opening a crashed store is the machine's load, and is on track to the goal its disk commits it to; the next id is the highest of the counter and every logged id |
| StateStore.OperationStore.ClaimRequest | crates/agent-remote-server/src/store.rs:447-481 | returns the entry there was; otherwise the durable in-progress line with the operation precedes the same table entry and the caller owns the request |
| StateStore.OperationStore.SettleClaim | crates/agent-remote-server/src/store.rs:467-481 | the second check, whatever happened since the first |
| StateStore.OperationStore.Remember | crates/agent-remote-server/src/store.rs:483-529 | the terminal line is durable before the table changes: Done with the message, or Failed with the error |
| StateStore.OperationStore.PrepareFsRecord | crates/agent-remote-server/src/store.rs:543-573 | a new id, then the blob, then the marker |
| StateStore.OperationStore.CommitFsRecord | crates/agent-remote-server/src/store.rs:582-609 | the record in the log and over its marker in the table |
| StateStore.OperationStore.Mutate | crates/agent-remote-server/src/fs_ops.rs:282-499 | a refused mutation answers its error and writes nothing; an accepted one passes through blob, marker, install and commit in that order, turns the file into what the request promises, an edit's all occurrences replaced, logs marker and record with the hashes of what was found and left, and answers with them |
| StateStore.OperationStore.HandleExec | crates/agent-remote-server/src/server.rs:502-649 | id first, then the command, then its record, then the answer, for commands that ran, that never started, and that failed after they started; the record says killed, with its own error, exactly for a timeout, and rejected with the error answered exactly if nothing came of it |
| StateStore.OperationStore.RecordTransfer | crates/agent-remote-server/src/store.rs:617-626 | a new id and its record, in log and table, then the answer with the same data |
| StateStore.OperationStore.DropPrepared | crates/agent-remote-server/src/store.rs:369-384 | the marker leaves the table and an Aborted line keeps it from coming back |
| StateStore.OperationStore.SynthesizeCommit | crates/agent-remote-server/src/store.rs:388-415 | the record, then the rebuilt answer |
| StateStore.OperationStore.ResolveAsConflict | crates/agent-remote-server/src/store.rs:424-439 | the marker is dropped, then the request is answered with the conflict |
| StateStore.OperationStore.ResolvePrepared | crates/agent-remote-server/src/store.rs:259-310 | each marker is settled as the content of its file says, its request told where the source tells it |
| StateStore.OperationStore.ResolveStuck | crates/agent-remote-server/src/store.rs:329-364 | a stuck request is answered Done from its record; without one a command is marked failed with ExecFailed, a request of unknown kind with InvalidRequest, and any other is forgotten |
| StateStore.OperationStore.Recover | crates/agent-remote-server/src/store.rs:243-367 | ends serving with no marker and no stuck request, at the goal if no marker contradicted its file; an interrupted mutation whose file is as it was to leave it has its record and answer, one whose file is as it found it has neither, any other has no record and an UndoConflict answer; files and blobs untouched |
| StateStore.OperationStore.Prune | crates/agent-remote-server/src/store.rs:816-875 | keeps exactly the newest Min(keep, all) records, the requests they need or in flight, and the other blobs, with counter, operation log, request log and blobs written in that order |
| Server.Open | crates/agent-remote-server/src/server.rs:48-92 | load, recover, then prune to the limit: the store serves the goal of the crash state, every interrupted mutation settled by its file, cut to the newest Min(keep, all) records |
| Server.Execute | crates/agent-remote-server/src/server.rs:238-500 | what one execution of each kind of request does to files, log, blobs and table, and its answer |
| Server.Finish | crates/agent-remote-server/src/server.rs:656-686 | the answer is durable before it is sent |
| Server.Handle | crates/agent-remote-server/src/server.rs:143-500 | a known id is answered with its stored message or error, or refused as in progress, and nothing moves; a new one is claimed, executed once, and its stored answer is the message sent |
| LogBytes.ReadLines | crates/agent-remote-server/src/store.rs:1023-1061 | the loop yields the lines with their offsets, lengths and newline flags |
| LogBytes.FileShape | crates/agent-remote-server/src/store.rs:1072-1079 | any file is terminated lines and at most one that is not, and the truncation offset separates the two |
| LogBytes.ParseLines | crates/agent-remote-server/src/store.rs:141-161 | the loop parses strictly in order and stops at the first damaged line |
| LogBytes.LoadLog | crates/agent-remote-server/src/store.rs:139-169 | records and repaired file, against the load specification |
| LogBytes.TruncateTrailingGarbage | crates/agent-remote-server/src/store.rs:1181-1205 | cuts the file at the end of its newline-terminated part, the maximum over the terminated lines |
| LogBytes.AppendMissingNewline | crates/agent-remote-server/src/store.rs:1207-1236 | terminates a last line that holds text and leaves every other file alone |
| LogBytes.NothingSkipped | crates/agent-remote-server/src/store.rs:1109-1174 | of any file that loads, every newline-terminated line is a record, in order |
| LogLines.LoadMeans | crates/agent-remote-server/src/store.rs:136-169 | a file loads if and only if every terminated line is a record; otherwise the first that is not is named as not UTF-8, blank or no record; an unterminated end is read and terminated if it is a record, kept if blank, cut off otherwise |
| LogBytes.RepairIdempotent | crates/agent-remote-server/src/store.rs:1181-1236 | for any file that loads, the repaired file loads as the same records and is left alone |
| LogBytes.TornTail | crates/agent-remote-server/src/store.rs:1023-1236 | a well-formed log plus any prefix of one append loads as exactly its complete records, is repaired to their log, and takes one more append |
| LogBytes.TearsNeverPoison | crates/agent-remote-server/src/store.rs:1181-1236 | so after any number of torn appends and restarts the file is the log of what survived |
| Capture.OutputCapture.Push | crates/agent-remote-server/src/exec.rs:227-240 | whatever the chunking, prefix and suffix are the head and tail of all bytes pushed |
| Capture.OutputCapture.Finish | crates/agent-remote-server/src/exec.rs:242-250 | kept plus omitted equals total, below 2^64 bytes |
| Capture.HeadTail | crates/agent-remote-server/src/exec.rs:226-250 | the first 4096 bytes and the last 12288 of the rest; together the whole output exactly when it has at most 16384 bytes |
| Capture.CaptureAll | crates/agent-remote-server/src/exec.rs:212-217 | the outcome depends on the concatenation of the chunks only, with the limits 4096 and 12288, and short UTF-8 output comes back whole |
| Capture.BoundedLossyLoop | crates/agent-remote-server/src/exec.rs:253-263 | the loop cuts at the last character boundary within the limit |
| Capture.BoundedLossyFacts | crates/agent-remote-server/src/exec.rs:253-263 | the text is valid, within the limit, the longest such beginning of the decoded bytes, and valid short bytes come back unchanged |
| Capture.LossyValid | crates/agent-remote-server/src/exec.rs:254-254 | lossy decoding yields valid UTF-8 and leaves valid UTF-8 alone |
| Capture.LossyPieces | crates/agent-remote-server/src/exec.rs:254-254 | decoding takes the bytes apart into characters, each kept, in order, and ill-formed pieces, the longest beginning of a character or a single byte, each shown as one U+FFFD |
| Capture.TakingsUnique | crates/agent-remote-server/src/exec.rs:254-254 | there is only one way to take bytes apart like that |
| ShellQuote.LexQuoted | crates/agent-remote-client/src/lib.rs:578-583 | the shell reads a quoted argument as one word, the argument |
| ShellQuote.LexCommand | crates/agent-remote-client/src/transfer.rs:132-138 | splitting the joined command line gives exactly the argument vector, for every list of strings |
| ShellQuote.SshRoundTrip | crates/agent-remote-client/src/transfer.rs:132-149 | ssh's last argument splits into the remote argv, the one before it is the host, and two invocations agree if and only if host and remote argv do |
| Framing.TransferSend | crates/agent-remote-server/src/transfer.rs:423-447 | for every chunking the output is the frame of the file, or header and short body if the file shrank |
| Framing.ReceiveStream | crates/agent-remote-client/src/transfer.rs:418-472 | for every chunking the result is that of the receive specification |
| Framing.ReceiveMeans | crates/agent-remote-client/src/transfer.rs:418-472 | a stream is received if and only if its first line reads as a size, that many bytes follow, and the next line reads as their hash; each error is given for the first of these that fails |
| Framing.RoundTrip | crates/agent-remote-client/src/transfer.rs:418-472 | receiving what was sent writes exactly the file and returns its size and hash |
| Framing.PrefixAccepted | crates/agent-remote-client/src/transfer.rs:418-472 | a prefix of the stream is accepted if and only if at most the final newline is missing |
| Framing.TamperDetected | crates/agent-remote-client/src/transfer.rs:463-470 | other bytes of the same length in the same frame are refused |
| Framing.ShrunkRejected | crates/agent-remote-server/src/transfer.rs:432-436 | what a sender leaves when its file shrank is refused |
| CloseProtocol.RunKeeps | crates/agent-remote-client/src/lib.rs:112-213 | the protocol's invariant over every interleaving of requests and reader |
| CloseProtocol.NoStrandedWaiter | crates/agent-remote-client/src/lib.rs:112-213 | a sleeping request finds its wake-up delivered, the flag set and its sender gone once the reader finished, and before the drain its sender or reply is there |
| CloseProtocol.FinishedAs | crates/agent-remote-client/src/lib.rs:172-213 | over every run a request returns a reply if and only if its reply was delivered and is no longer in the inbox, times out or fails to write if and only if that happened in the run, and is told the connection closed only after the flag was set |
| CloseProtocol.DeliveredCanBeTaken | crates/agent-remote-client/src/lib.rs:194-208 | a sleeping request whose reply was delivered can return it and is not told its sender is gone |
| CloseProtocol.NothingSentOnceClosed | crates/agent-remote-client/src/lib.rs:172-193 | a request that has not passed the flag test when the flag is set is never put in the map or written, and can only be told the connection closed |
| CloseProtocol.FinishedForGood | crates/agent-remote-client/src/lib.rs:194-213 | a request that finished takes no further step and keeps its outcome |
| CloseProtocol.EveryRequestFinishes | crates/agent-remote-client/src/lib.rs:141-213 | after the close every request has a next step of its own and finishes within four, however the tasks interleave |

## Left out

- Plans.Decide: directories and file modes are not modelled, so IsADirectory refusals, created parents and preserved modes are not.
- StateStore.OperationStore.Mutate: create, edit, delete and undo share one method whose decision is the function Decide; errors of the install or the commit, after the marker is logged, are not modelled; the temp file, rename, hard link and fsync of the install are one atomic step.
- StateStore.OperationStore.HandleExec: profiles, working directory, process groups, kill and drain timers are not modelled; whether a command starts and what comes of it are inputs.
- Runs.StepKeeps: covers no append that falls into a prune's rewrites, which the source's locks allow; see the assumptions.
- Server.Handle: one call runs without interruption and its durable writes succeed; interleavings are covered in Machine, I/O errors of the logs are not.
- Restart.RecoveryReentrant: records are compared up to timestamps, and not their order, because a reload sorts by timestamp.
- LogBytes.TornTail: trimming and JSON are abstract, under the stated laws; a file with several damaged places is refused by the load and not repaired, as in the source.
- CloseProtocol.EveryRequestFinishes: needs that each task is eventually scheduled; writing the request to the pipe is one step that succeeds or fails.
- The error message texts, and the argv, cwd, profile and timeout fields of records, which no modelled function reads.
- The 50 and 100 limits of the history request, request status, operation get, list and stat, which only filter what is modelled.
- Upload prepare, commit and abort, and the sweep of stale staging files: only the transfer record is modelled.
- The directory lock, its grace period and the pid file: one server per state directory is assumed.
- SHA-256 and JSON themselves, the MCP server, the command-line tools, fleet and server configuration, and the interaction log.
