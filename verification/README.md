# wamux: verified models

A Dafny project that models the hard parts of wamux (a WhatsApp multi-account daemon, its tools and
its release scripts) and proves what they promise. `dafny verify dfyconfig.toml` checks all of it.

| files | subject |
|---|---|
| `GroupCommit`, `GroupCommitSafety`, `GroupCommitDenied`, `GroupCommitSteady`, `GroupCommitLimits`, `GroupCommitOwed` | one connection, many writers, one COMMIT: what each caller is told against what is durable, over every schedule, every caller dropped mid-statement, and an engine that may refuse any statement or end a transaction on its own |
| `CommitWait` | how a job waits for a COMMIT that somebody else runs: nobody is stranded |
| `EventReplay` | an account's event stream: ring replay followed by the live broadcast |
| `EventTap`, `Delivery` | waiting for a receipt, and what a green run report proves |
| `Text`, `DocLexer`, `DocLexerPartition`, `DocLexerRoundTrip`, `DocLexerProto` | the comment lexer of the documentation check |
| `StaticBinary`, `StaticBinaryLayout`, `StaticBinaryReport` | the release gate that reads ELF64 files |
| `TraitParser`, `TraitParserRoundTrip`, `TraitParserShapes`, `StoreDefaults` | the reader of trait defaults and their classification |
| `Dependencies`, `Licenses`, `LicenseOrder` | the shipped dependency graph and its license file |
| `Qr` | the two renderings of a pairing QR |
| `Quotes` | a quoted message, in and out of the daemon |
| `Fences`, `ReleaseScripts`, `ReleaseScriptsRoundTrip`, `Percentile`, `Reconnect` | Markdown fences, shell continuations, a percentile, the wait after pairing |

Protocols are state machines: a run is any sequence of steps, and a theorem about `Run` is about
every interleaving. Code that works step by step is a method with its loops, proved equal to a
function of its inputs or against the property itself; the theorems are then about that function.

## Where the code and its documentation part

The model follows the code. Some promises do not hold on all inputs; each has a concrete run that
breaks it and the exact condition under which it holds. For group commit the condition is what the
engine is capable of: ending a transaction on its own (`aborts`), refusing a ROLLBACK TO or RELEASE
sent to undo a savepoint after a dropped caller while the savepoint lives (`refusesUndo`), refusing a
ROLLBACK (`refusesRollback`). Any other statement may be refused in every world.

- `finish` answers once the COMMIT that carries the job ran (`group_commit.rs:420-421`). It may answer
  `Ok` for a job no COMMIT carried. `undo_savepoint` (`group_commit_reconcile.rs:84-92`) takes every
  error for a savepoint already gone; if the ROLLBACK TO was refused, the savepoint stays, the next
  job runs above it, and undoing a later dropped SAVEPOINT rolls back to it, the waiting job's writes
  included (`CommittedButLost`). True of every run exactly when undoing is never refused
  (`CommittedExactly`). What `group_commit_reconcile.rs:14-15` says, "Nobody is ever told a COMMIT
  succeeded unless a COMMIT really ran and returned Ok", is kept: one ran, without the job.
- A failed COMMIT fails every job (`group_commit.rs:237-239`). A job told so may be durable: when the
  transaction ended under an earlier job whose `fail` was dropped, the batch outlives it, and the next
  job's own savepoint commits on RELEASE (`DeniedButDurable`); or when the job wrote on after the
  engine ended the transaction under it (`DeniedAfterWritingOn`). Never durable in any run exactly
  when the engine never aborts (`DeniedExactly`); not pending either exactly when it also never
  refuses a ROLLBACK (`CleanExactly`). Without an orphaned batch, exactly the writes made after such
  an abort are durable (`DeniedDurableExactly`).
- A job that failed or was dropped half way is rolled back (`group_commit.rs:156-158`). True of every
  run exactly when the engine neither aborts nor refuses an undo (`FinishedExactly`).
- A job that ran is committed even if its caller is dropped (`group_commit.rs:421-425`). That may be
  left to a user who never comes: at rest the open batch holds exactly the jobs whose callers were
  dropped and whose batch nobody ended (`LeftOpenExactly`); the next user ends it (`NextUserEndsIt`).
- *"upgrades that overlap to exactly-once"* (`event_service.rs:117-121`). An event published between
  subscribing and reading the ring is lost when it is not in the replayed part but a later one is:
  because it was kept out of the ring (a history sync), or because the replay asked for, or the ring,
  is shorter than the overlap (`ReplayLosesAnEvent`). `ExactlyOnceExactly` gives the condition. That
  no event comes twice holds always.

## Model

| member | source | states |
|---|---|---|
| `GroupCommitSafety.RunKeeps` | crates/wamux/src/storage/group_commit.rs:165-461 | in every run where undoing a savepoint is never refused (any schedule, any other refusal, any abort, dropped callers): every job is in one place, waiters' writes are held by the batch's transaction, `Committed` answers are durable, only finished jobs' transactions commit |
| `GroupCommitSafety.StepKeeps` | crates/wamux/src/storage/group_commit.rs:300-461 | each lock-held section, each job statement, each drop and each abort keeps that invariant |
| `GroupCommitSafety.CommittedIsDurable` | crates/wamux/src/storage/group_commit.rs:420-444 | then a job whose caller was told `Ok` has all its writes in the database |
| `GroupCommitSafety.UnfinishedDurableExactly` | crates/wamux/src/storage/group_commit.rs:193-222 | then a write of a job that failed or was dropped half way is durable if and only if it was made after the engine had ended the transaction under the job |
| `GroupCommitSafety.RollbackJobKeeps` | crates/wamux/src/storage/group_commit.rs:216-222 | undoing a job's savepoint commits nothing and keeps the invariant, whatever the engine answers |
| `GroupCommitSafety.DiscardBatchKeeps` | crates/wamux/src/storage/group_commit_reconcile.rs:74-82 | a discarded batch answers exactly its waiters and leaves no batch, even if the ROLLBACK was refused |
| `GroupCommitSafety.RollbackJobOrDiscardKeeps` | crates/wamux/src/storage/group_commit.rs:207-214 | the savepoint is undone, or the batch is discarded |
| `GroupCommitSafety.SettleAbandonedKeeps` | crates/wamux/src/storage/group_commit.rs:194-201 | the next user rolls an abandoned job back and finds the connection at rest |
| `GroupCommitSafety.UndoSavepointKeeps` | crates/wamux/src/storage/group_commit_reconcile.rs:84-92 | undoing a savepoint statement whose caller was dropped leaves no savepoint, if it is not refused |
| `GroupCommitSafety.SettleUnknownCommitKeeps` | crates/wamux/src/storage/group_commit_reconcile.rs:40-57 | the probe after a COMMIT nobody saw answers `Ok` only for what is durable |
| `GroupCommitSafety.ReconcileKeeps` | crates/wamux/src/storage/group_commit_reconcile.rs:19-38 | reconciliation, itself interruptible, keeps the invariant and leaves the connection ready |
| `GroupCommitSafety.CommitBatchKeeps` | crates/wamux/src/storage/group_commit.rs:237-258 | a COMMIT makes every waiter durable, or they are all told it failed |
| `GroupCommitSafety.BeginJobKeeps` | crates/wamux/src/storage/group_commit.rs:301-313 | reconcile, settle, join or begin the batch, open the savepoint |
| `GroupCommitSafety.EndJobKeeps` | crates/wamux/src/storage/group_commit.rs:225-235 | the job's writes move into the batch, or the refused RELEASE is undone |
| `GroupCommitSafety.FinishKeeps` | crates/wamux/src/storage/group_commit.rs:426-444 | `finish` up to its answer or its place among the waiters |
| `GroupCommitSafety.FailKeeps` | crates/wamux/src/storage/group_commit.rs:447-461 | `fail` keeps the invariant; what becomes of the rest of the batch is `GroupCommitOwed.BatchEndsExactly` |
| `GroupCommitSafety.SettleAndCommitKeeps` | crates/wamux/src/storage/group_commit.rs:318-341 | a reader, an autocommit user or a drained waiter settles and commits |
| `GroupCommitDenied.RunKeeps` | crates/wamux/src/storage/group_commit.rs:165-461 | in every run of every engine that started no job in a batch without its transaction: a denied job's transaction is not committed and not pending in one that can be; a running job's writes are above its savepoint only; no waiter is durable before its COMMIT is sent |
| `GroupCommitDenied.DeniedDurableExactly` | crates/wamux/src/storage/group_commit.rs:237-258 | then a write of a job told its batch failed is durable if and only if it was made after the engine had ended the transaction under the job |
| `GroupCommitDenied.DeniedNowhereExactly` | crates/wamux/src/storage/group_commit_reconcile.rs:74-82 | and, where a ROLLBACK is never refused, is otherwise neither committed nor pending |
| `GroupCommitDenied.EndJobKeeps` | crates/wamux/src/storage/group_commit.rs:225-235 | a job whose RELEASE failed leaves nothing in a transaction that can be committed, however many savepoints were left behind |
| `GroupCommitSteady.RunStays` | crates/wamux/src/storage/group_commit.rs:165-461 | if the engine never ends a transaction on its own, whatever it refuses, an open batch has its transaction in every run until its COMMIT or ROLLBACK is sent, and no write is made outside one |
| `GroupCommitSteady.StartJobStays` | crates/wamux/src/storage/group_commit.rs:166-174 | then a job is only ever started in the batch's own live transaction |
| `GroupCommitLimits.CommittedExactly` | crates/wamux/src/storage/group_commit.rs:420-444 | `Ok` means durable in every run if and only if undoing a savepoint is never refused |
| `GroupCommitLimits.DeniedExactly` | crates/wamux/src/storage/group_commit.rs:237-258 | a job told its batch failed is not durable in every run if and only if the engine never aborts |
| `GroupCommitLimits.CleanExactly` | crates/wamux/src/storage/group_commit_reconcile.rs:74-82 | nor pending, if and only if it also never refuses a ROLLBACK |
| `GroupCommitLimits.FinishedExactly` | crates/wamux/src/storage/group_commit.rs:193-222 | only finished jobs commit in every run if and only if the engine neither aborts nor refuses an undo |
| `GroupCommitLimits.CommittedButLost` | crates/wamux/src/storage/group_commit_reconcile.rs:84-92 | with one refused undo and two dropped callers, a job that wrote is told `Ok` and its write is nowhere |
| `GroupCommitLimits.FailedJobCommits` | crates/wamux/src/storage/group_commit_reconcile.rs:84-92 | with one refused undo, a failed job's write is committed |
| `GroupCommitLimits.DeniedButDurable` | crates/wamux/src/storage/group_commit.rs:166-174 | after a statement that ended the transaction and a dropped `fail`, the next job is told its COMMIT failed and is durable |
| `GroupCommitLimits.DeniedAfterWritingOn` | crates/wamux/src/storage/group_commit.rs:225-235 | a job that writes on after its transaction ended is told its RELEASE failed and is durable, with no batch orphaned |
| `GroupCommitLimits.DeniedButPending` | crates/wamux/src/storage/group_commit.rs:240-257 | with COMMIT and ROLLBACK refused, a job told so is still pending in an open transaction |
| `GroupCommitOwed.RunServes` | crates/wamux/src/storage/group_commit.rs:165-461 | on an engine that refuses nothing, group commit is the simple batch step for step: finished jobs wait, and the job that finds no other writer pending, or fills the batch, makes them all durable and answers them |
| `GroupCommitOwed.BatchEndsExactly` | crates/wamux/src/storage/group_commit.rs:426-461 | exactly a last or filling `finish`, a last `fail`, and a lone user of the connection end the batch: everyone waiting and the finisher are answered `Committed` with all their writes durable; any other step leaves them waiting |
| `GroupCommitOwed.NobodyFails` | crates/wamux/src/storage/group_commit.rs:420-444 | in every such run nobody is told anything but `Committed`, and each is durable |
| `GroupCommitOwed.NobodyDenied` | crates/wamux/src/storage/group_commit_reconcile.rs:40-57 | with callers dropped anywhere, nobody is told a failure: only `Committed`, or that the outcome is unknown |
| `GroupCommitOwed.UnrunCommitIsCarried` | crates/wamux/src/storage/group_commit_reconcile.rs:40-57 | a COMMIT dropped before it ran is carried by the next user of the lock, and its waiters told so |
| `GroupCommitOwed.DroppedSavepointKeepsBatch` | crates/wamux/src/storage/group_commit_reconcile.rs:84-92 | a dropped savepoint statement leaves the batch open, its waiters waiting and nobody told anything |
| `CommitWait.RunKeeps` | crates/wamux/src/storage/group_commit.rs:112-140 | in every interleaving, a job asleep and un-signalled was answered, or a writer is queued, or the drain signal is owed |
| `CommitWait.StepsBringNearer` | crates/wamux/src/storage/group_commit.rs:373-418 | without new writers every step but a read or a discard lowers a well-founded measure, so every schedule comes to rest |
| `CommitWait.SomeThreadMoves` | crates/wamux/src/storage/group_commit.rs:373-418 | while a job waits unanswered, some thread can take a step forward |
| `CommitWait.WaitingIsAnswered` | crates/wamux/src/storage/group_commit.rs:373-444 | from every reachable state the threads present can go on to answer any waiting job |
| `CommitWait.LeftOpenExactly` | crates/wamux/src/storage/group_commit.rs:421-425 | when nobody is left, the open batch holds exactly the jobs whose callers were dropped while they waited and whose batch nobody ended since |
| `CommitWait.NextUserEndsIt` | crates/wamux/src/storage/group_commit.rs:318-341 | the next reader ends that batch at once, the next writer when it finishes or fails |
| `CommitWait.LeftOpen` | crates/wamux/src/storage/group_commit.rs:426-444 | a run that leaves a batch open with nobody there |
| `CommitWait.FinishEndsExactly` | crates/wamux/src/storage/group_commit.rs:426-444 | a job that finds no other writer, or fills the batch, ends it for everyone in it; any other joins it and waits |
| `CommitWait.NobodyStrandedExactly` | crates/wamux/src/storage/group_commit.rs:134-140 | no schedule strands a job if and only if a drained queue is signalled and jobs register before they check |
| `EventReplay.EventRing.Push` | crates/wamux/src/state/event_ring.rs:23-33 | the ring becomes the last `capacity` of what was pushed |
| `EventReplay.EventRing.Snapshot` | crates/wamux/src/state/event_ring.rs:35-40 | the last `n` buffered events, oldest first |
| `EventReplay.RunKeeps` | crates/wamux/src/services/event_service.rs:113-160 | in every run the ring is the end of the replayable events, the replay is its end, live items are in order above the replay, and every broadcast is accounted for |
| `EventReplay.NoDuplicates` | crates/wamux-proto/proto/events.proto:27-33 | no event comes twice in one stream, and they come in order |
| `EventReplay.NothingUnaccounted` | crates/wamux/src/services/event_service.rs:141-157 | each event broadcast since joining was forwarded, skipped as replayed, or counted by a gap marker |
| `EventReplay.ExactlyOnceExactly` | crates/wamux/src/services/event_service.rs:117-130 | a subscriber that did not lag and has passed the replay got every event since joining if and only if those up to the newest replayed were all replayable and fit the ring and the replay asked for |
| `EventReplay.ReplayLosesAnEvent` | crates/wamux/src/services/event_service.rs:143-145 | runs in which an event is in neither the replay nor the live part |
| `EventReplay.TailCoversExactly` | crates/wamux/src/state/event_ring.rs:35-40 | the last `k` of an increasing list hold a stretch up to its end exactly when the list does and the stretch is no longer than `k` |
| `EventTap.RunKeeps` | crates/wamux-tools/src/delivery.rs:83-123 | every interleaving of one drainer and any waiters: asleep and un-notified with the event collected means the notify is owed; an answer is the first match in arrival order; no answer means a look after the deadline found none |
| `EventTap.NeverStuck` | crates/wamux-tools/src/delivery.rs:105-123 | a waiter whose event is collected can move, or the notify that wakes it is the next step |
| `EventTap.StepsBringNearer` | crates/wamux-tools/src/delivery.rs:105-123 | each of its own steps brings it nearer its answer and no other step takes it back |
| `EventTap.CollectedIsAnswered` | crates/wamux-tools/src/delivery.rs:83-123 | within six steps it can have its answer, the first match |
| `EventTap.LateWaiterEnds` | crates/wamux-tools/src/delivery.rs:119-121 | a waiter whose event never comes can always end with no answer once its deadline passes |
| `EventTap.NoLostWakeupExactly` | crates/wamux-tools/src/delivery.rs:112-118 | no interleaving loses a wakeup if and only if waiters register before they look |
| `Delivery.Report.Count` | crates/wamux-tools/src/report.rs:92-102 | the three counts are the numbers of checks with each outcome and add up to all of them |
| `Delivery.Report.IsGreen` | crates/wamux-tools/src/report.rs:104-107 | green exactly when no check failed and one passed |
| `Delivery.FailIsNeverUndone` | crates/wamux-tools/src/report.rs:77-107 | whatever is recorded after a fail, the report is not green |
| `Delivery.JudgeSendKeepingId` | crates/wamux-tools/src/delivery.rs:153-183 | one check is appended, with the verdict of that send; the id comes back whenever the result carried one |
| `Delivery.JudgeSend` | crates/wamux-tools/src/delivery.rs:138-147 | the same check; the id only on a pass |
| `Delivery.RefusedExactly` | crates/wamux-tools/src/delivery.rs:21-41 | the id, or the first reason why the send did not reach the phone |
| `Delivery.JudgeRun` | crates/wamux-tools/src/delivery.rs:138-183 | after any sequence of judged sends the colour is that of their verdicts |
| `Delivery.GreenExactlyWhenDelivered` | crates/wamux-tools/src/delivery.rs:21-59 | whatever the interleaving, a run is green if and only if it sent something and each send had an id, reached the phone and had a delivered, read or played receipt for its id among the events its wait saw |
| `DocLexer.SkipBlockComment` | scripts/check-doc-language.py:92-105 | computes the end that the nesting of markers gives |
| `DocLexer.ReadQuoted` | scripts/check-doc-language.py:108-118 | computes the end of the literal, escapes skipped |
| `DocLexer.RawStringEnd` | scripts/check-doc-language.py:121-130 | computes the end of the raw string, or -1 |
| `DocLexer.NextToken` | scripts/check-doc-language.py:163-182 | consumes the token at `i` in either mode, appending exactly its comment's lines |
| `DocLexer.AddComment` | scripts/check-doc-language.py:185-189 | appends the comment's physical lines with their numbers |
| `DocLexer.SourceComments` | scripts/check-doc-language.py:154-160 | the whole scan reports the comments found by following the token ends |
| `DocLexer.TokenEnd` | scripts/check-doc-language.py:163-182 | every token ends after it starts and within the text |
| `DocLexerPartition.TokensPartitionTheText` | scripts/check-doc-language.py:154-189 | any text, both modes: the tokens tile the text and the comments reported are the comment tokens, in order |
| `DocLexerPartition.EntriesAreTheComment` | scripts/check-doc-language.py:185-189 | a comment's entries re-joined are its span, numbered consecutively from one plus the newlines before it |
| `DocLexerPartition.TilesCover` | scripts/check-doc-language.py:154-160 | so every position is in a token |
| `DocLexerRoundTrip.ScanPassesBlock` | scripts/check-doc-language.py:92-105 | the nested scan leaves a well-nested comment exactly at its own closing marker |
| `DocLexerRoundTrip.RawEndIs` | scripts/check-doc-language.py:121-130 | a raw string whose body lacks its closer is read to its own closer |
| `DocLexerRoundTrip.QuotedCloses` | scripts/check-doc-language.py:108-118 | an escaped literal is read to its own quote |
| `DocLexerRoundTrip.ReadsItem` | scripts/check-doc-language.py:163-182 | each kind of item, printed where it fits, is read as itself |
| `DocLexerRoundTrip.RoundTrip` | scripts/check-doc-language.py:92-189 | reading back any printed list of items, the last of which may be unclosed, gives exactly its comments, in order, with their line numbers |
| `DocLexerRoundTrip.ReadsBack` | scripts/check-doc-language.py:154-160 | so does the loop itself |
| `DocLexerRoundTrip.RawPrefixExactly` | scripts/check-doc-language.py:133-142 | what the lexer looks back at is the word before: none, or one of the two prefix letters alone |
| `DocLexerProto.ProtoRoundTrip` | scripts/check-doc-language.py:92-189 | the same for a proto source: block comments end at the first closing marker, literals of both quotes hide what is in them, an `r` is a letter |
| `DocLexerProto.FlatBlockEnds` | scripts/check-doc-language.py:92-105 | a comment that does not nest ends at its first closing marker |
| `DocLexerProto.ReadsProtoBack` | scripts/check-doc-language.py:154-160 | so does the loop itself |
| `StaticBinary.ExitCode` | scripts/check-static-binary.py:95-110 | 0 if and only if there is one argument, the file was read and is static; 2 if and only if the argument count is wrong |
| `StaticBinary.GateIsExact` | scripts/check-static-binary.py:88-92 | for every byte string nothing is found exactly when it is a readable little-endian ELF64 with no PT_INTERP and no DT_NEEDED before DT_NULL in any PT_DYNAMIC |
| `StaticBinary.RefusedOnlyOverALibrary` | scripts/check-static-binary.py:74-85 | the errors of the library step arise only when a DT_NEEDED exists |
| `StaticBinary.NamesExactly` | scripts/check-static-binary.py:74-85 | no names exactly when no section asks; an error exactly when a section that asks has no mapped string table |
| `StaticBinary.ReadableExactly` | scripts/check-static-binary.py:35-46 | segments are read exactly when the header is one and the table is in the file |
| `StaticBinary.VaddrToOffset` | scripts/check-static-binary.py:49-54 | resolves through the loaded segments, an error exactly when none maps the address |
| `StaticBinary.DynamicEntries` | scripts/check-static-binary.py:57-66 | the loop gives the entries up to the terminator or the last whole one |
| `StaticBinary.TableStops` | scripts/check-static-binary.py:61-66 | the entries stop only at a terminator or where no further one fits |
| `StaticBinary.TableListed` | scripts/check-static-binary.py:61-66 | each is the entry at its place, inside segment and file, and no terminator |
| `StaticBinary.NeededLibraries` | scripts/check-static-binary.py:74-85 | the loop merges the sections' names, stopping at the first that cannot be resolved |
| `StaticBinary.FindingsFor` | scripts/check-static-binary.py:88-92 | interpreters, then libraries, or the error |
| `StaticBinaryLayout.SegmentsReadBack` | scripts/check-static-binary.py:35-46 | any program headers laid out little-endian are the segments read |
| `StaticBinaryLayout.EntriesReadBack` | scripts/check-static-binary.py:57-66 | any terminated dynamic table laid out in its segment is the table read |
| `StaticBinaryLayout.VerdictOnLayout` | scripts/check-static-binary.py:88-92 | such a file passes exactly when no header is an interpreter's and no table asks for a library |
| `StaticBinaryLayout.OffsetThroughFirst` | scripts/check-static-binary.py:49-54 | an address resolves through the first loaded segment that maps it |
| `StaticBinaryLayout.NamesReadBack` | scripts/check-static-binary.py:69-85 | the names where the string table puts them are reported, in order |
| `StaticBinaryReport.ReportOnLayout` | scripts/check-static-binary.py:74-92 | the whole report on a laid-out file: one finding per interpreter header, then one per entry asking for a library, in section and table order, each naming what stands at its own value above its section's first string table |
| `StaticBinaryReport.ValuesAreAt` | scripts/check-static-binary.py:79-80 | the values of a tag are those at exactly its positions, in order |
| `StaticBinaryReport.NameRunsToEnd` | scripts/check-static-binary.py:69-71 | an unterminated name runs to the end of the file; past it there is none |
| `StaticBinaryReport.NotReadExactly` | scripts/check-static-binary.py:35-46 | which of the three refusals a file that is not read gets |
| `StaticBinaryReport.FirstUnresolvedRefuses` | scripts/check-static-binary.py:78-85 | the first section that cannot be resolved says how the file is refused |
| `TraitParser.SkipBalanced` | scripts/check-store-defaults.py:50-57 | the first end at which the brackets cancel out, or the text's end |
| `TraitParser.HeaderEnd` | scripts/check-store-defaults.py:60-68 | the first `{` or `;` outside the brackets opened since the start |
| `TraitParser.TraitDefaults` | scripts/check-store-defaults.py:71-83 | ends on every text, with the names the walk lists |
| `TraitParserRoundTrip.RoundTrip` | scripts/check-store-defaults.py:71-83 | reading a printed trait body lists exactly the members with bodies, in order, whatever the bodies hold |
| `TraitParserRoundTrip.PlainRoundTrip` | scripts/check-store-defaults.py:71-83 | the same, from conditions on the members alone |
| `TraitParserRoundTrip.BodySkipped` | scripts/check-store-defaults.py:50-57 | a brace-balanced body is passed to its own closing brace |
| `TraitParserRoundTrip.HeaderPasses` | scripts/check-store-defaults.py:60-68 | a bracket-balanced header is passed to its own end |
| `TraitParserRoundTrip.SignatureMatches` | scripts/check-store-defaults.py:34-34 | the printed signature is what the pattern matches, with its name |
| `TraitParserShapes.ShapesRoundTrip` | scripts/check-store-defaults.py:71-83 | the same for headers and bodies spelled out as brackets within brackets, with no condition stated by the reader's own counting |
| `TraitParserShapes.MatchExactly` | scripts/check-store-defaults.py:34-34 | the pattern matches exactly where no word runs in and the keywords, spaces and a name follow; the name is the whole word |
| `TraitParserShapes.CancelEndExactly` | scripts/check-store-defaults.py:50-57 | a balanced stretch ends where the brackets first cancel out, else with the text |
| `TraitParserShapes.HeaderStopExactly` | scripts/check-store-defaults.py:60-68 | a header ends at the first `{` or `;` outside brackets, else with the text and no body |
| `StoreDefaults.RowProblems` | scripts/check-store-defaults.py:160-175 | reports exactly what is wrong with a row |
| `StoreDefaults.ClassificationProblems` | scripts/check-store-defaults.py:178-192 | reports exactly what is wrong; nothing if and only if the survey is fully classified |
| `StoreDefaults.NothingWrongExactly` | scripts/check-store-defaults.py:178-192 | no problem exists if and only if there are 36 defaults, the names agree, traits agree, overrides are implemented by every family, kept defaults by none and for a reason |
| `Dependencies.ReachableIds` | scripts/gen-third-party.py:65-80 | ends on every graph with exactly the ids that have a path of shipping edges from the root, ids without a node included |
| `Dependencies.DevOnlyExactly` | scripts/gen-third-party.py:75-78 | what is skipped is exactly an edge whose kinds are not empty and none of them normal or build |
| `Dependencies.DevEdgesNeverShip` | scripts/gen-third-party.py:75-78 | graphs with the same shipping edges reach the same ids |
| `Dependencies.DevEdgeAdded` | scripts/gen-third-party.py:75-78 | adding a dev-only edge anywhere leaves the shipping edges as they were |
| `Dependencies.ShippedPairs` | scripts/gen-third-party.py:83-102 | the crates of the reachable packages outside the workspace; an error exactly when the root or a package is missing |
| `Dependencies.CheckCovers` | scripts/gen-third-party.py:105-122 | exit code 0 if and only if every crate any target links is linked by the listed one |
| `Licenses.CollectTexts` | scripts/gen-third-party.py:221-233 | the loops give the gathered texts and the crates without files; the crate counts add up to the crates' license files |
| `Licenses.EntriesExactly` | scripts/gen-third-party.py:229-232 | with an injective digest, each text that occurs has one entry: the text, the first file's name, every crate that carries it |
| `Licenses.NothingLostOrDoubled` | scripts/gen-third-party.py:221-233 | gathering adds one crate to one entry for each use |
| `Licenses.CountsAddUp` | scripts/gen-third-party.py:221-233 | the entries' crate counts add up to the number of license files of all the crates |
| `Licenses.EntryOfText` | scripts/gen-third-party.py:224-232 | the entry of a text lists the crate of each place where the text is, each place once and in package and file order, under the name of the first; no place, no entry |
| `Licenses.MissingAre` | scripts/gen-third-party.py:224-228 | exactly the crates without license files are missing, in order, each once |
| `Licenses.EveryCrateAccounted` | scripts/gen-third-party.py:224-232 | each crate is reported missing exactly when it has no file, else listed under each of its texts |
| `LicenseOrder.OrderIgnoresInsertion` | scripts/gen-third-party.py:203-206 | any two insertion orders of one dictionary come out in the same order, sorted and complete |
| `LicenseOrder.NotAfterBothWays` | scripts/gen-third-party.py:205-205 | the sort key tells any two entries apart |
| `LicenseOrder.FileIsInOrder` | scripts/gen-third-party.py:203-206 | crate counts never increase along the file; equal counts go by file name, equal names by digest |
| `LicenseOrder.LeqExactly` | scripts/gen-third-party.py:205-205 | strings compare at the first difference, a prefix first |
| `Qr.AsciiQr` | crates/wamux-tools/src/qr.rs:24-42 | the loops draw the rows, cell by cell |
| `Qr.PaintModule` | crates/wamux-tools/src/qr.rs:64-74 | blackens the module's 64 pixels, in bounds, and no other |
| `Qr.DrawQr` | crates/wamux-tools/src/qr.rs:45-57 | every pixel is black exactly where its module is dark |
| `Qr.RenderingsAgree` | crates/wamux-tools/src/qr.rs:24-74 | for every matrix and cell: block black, cell filled and module dark are the same thing; else white and blank |
| `Qr.CodeIsDrawn` | crates/wamux-tools/src/qr.rs:45-57 | row r, column c of the code is the block four down and four right, black for dark, on a picture eight modules wider |
| `Qr.CodeIsWritten` | crates/wamux-tools/src/qr.rs:24-42 | and so in the text |
| `Qr.QuietZoneIsWhite` | crates/wamux-tools/src/qr.rs:16-17 | four modules on every side stay white |
| `Quotes.RelayCancels` | crates/wamux/src/domain/event_mapping.rs:472-485 | quoting back what an event quoted succeeds exactly when the id is set and the jids parse, with the same id and participant, and a chat exactly when it is another than the reply's |
| `Quotes.NoStanzaNoQuote` | crates/wamux-types/src/messaging/key.rs:104-112 | no stanza id is no quote, or a refusal when payload bytes come with it |
| `Quotes.SentAndQuotedAgain` | crates/wamux/src/domain/outgoing_context.rs:46-54 | sent, received and quoted again, a reference is itself if and only if it does not name the reply's chat as its own |
| `Quotes.AcceptedSurvives` | crates/wamux-types/src/messaging/key.rs:76-127 | every reference the daemon accepts survives that circle |
| `Quotes.CheckedExactly` | crates/wamux-types/src/messaging/key.rs:76-127 | for every quote, payload and destination: the refusal, or the reference with the context's own participant when set, else the key's, and the chat when it is another than the destination |
| `Quotes.EventQuotes` | crates/wamux/src/domain/event_mapping.rs:472-485 | what an event says of a quote, field by field |
| `Fences.MarkdownProse` | scripts/check-doc-language.py:77-89 | the lines outside fences, numbered, blanked |
| `Fences.ProseLines` | scripts/check-doc-links.py:78-93 | the same lines, blanked if asked |
| `Fences.ScansAgree` | scripts/check-doc-links.py:78-93 | the two scans agree on every text, and every column of a line they return is that column of the raw line, a space where a code span was |
| `Fences.FoundOnRawLine` | scripts/check-doc-links.py:168-175 | a stretch found on a returned line lies on the raw line, and without spaces is the raw stretch |
| `Fences.TracksOn` | scripts/check-doc-language.py:80-88 | the tracked marker is that of the one fence open at the line |
| `Fences.FenceExactly` | scripts/check-doc-links.py:35-35 | a fence line is at most three spaces, one of the two markers, and anything |
| `Fences.BlankingKeepsColumns` | scripts/check-doc-links.py:91-91 | blanking keeps the length and every character outside a span |
| `ReleaseScripts.JoinedCommands` | scripts/check-release-pins.py:160-173 | the loop gives the commands of the file's parts, numbered by first line |
| `ReleaseScripts.NoLineLost` | scripts/check-release-pins.py:160-173 | every line is in exactly one part: a dropped comment, a command, or a continuation open at the end |
| `ReleaseScripts.CommandsAreParts` | scripts/check-release-pins.py:160-173 | those are the commands among the parts |
| `ReleaseScriptsRoundTrip.ScriptRoundTrip` | scripts/check-release-pins.py:160-173 | reading back a printed script gives its commands, each the bodies of its lines after single spaces, numbered by first line; comments and what is open at the end give none |
| `ReleaseScripts.NumbersIncrease` | scripts/check-release-pins.py:160-173 | commands are numbered in increasing order |
| `ReleaseScripts.CheckRustflagsCleared` | scripts/check-release-pins.py:185-195 | reports the first lines of exactly the file's commands whose first cargo call is a build, with RUSTFLAGS neither set empty in the text before the call nor exported empty by an earlier command without a cargo call |
| `Percentile.NearestRank` | crates/wamux-tools/src/commit_bench.rs:56-63 | the smallest sample such that at least `p` percent of the samples are at most it |
| `Percentile.OutOfRange` | crates/wamux-tools/src/commit_bench.rs:56-63 | 0 without samples; the least sample below 0 percent, the greatest above 100 |
| `Percentile.Monotone` | crates/wamux-tools/src/commit_bench.rs:56-63 | a higher percentile is never smaller |
| `Reconnect.PairedReconnect.Observe` | crates/wamux-tools/src/post_pairing.rs:38-51 | remembers `Paired`; true exactly for a CONNECTED after it |
| `Reconnect.WaitReconnected` | crates/wamux-tools/src/post_pairing.rs:75-95 | ends at the earliest CONNECTED after a `Paired`, errors skipped, or with the stream if there is none |

## Left out

- Account registry, storage schemas, spool, transport and the gRPC services but one stream: field copies and plumbing around what is modelled.
- Enum tables and field-by-field projections: finite matches that would only add easy members.
- Group commit: an engine that answers an error for a statement that did take effect, and statements a reader runs of its own besides those that end the transaction.
- Group commit: the order of writes inside one COMMIT, the statistics counters, and what the pending count is at each moment (the schedule decides it; `CommitWait` models the count).
- Group commit and the waits are machines over values, one step per lock-held section or atomic operation, rather than classes: a caller can be dropped at each await, which a method cannot express. Memory orderings and the engines' own locking are not modelled.
- CommitWait: COMMIT, rollback and discard are one step there, since each answers every waiter.
- EventReplay: one account and one publisher, as the publisher task guarantees; a client that hangs up, shutdown, and accounts created after an all-accounts subscribe are not modelled.
- EventTap and Reconnect: clocks. A deadline is a step that may come at any time; the reconnect wait is modelled without its timeout.
- Delivery: the wording of check details; `judge_reached` and `accepted_rpc`, which only add easy members.
- Unicode tables: which characters are letters, digits, word characters or white space is a parameter; file decoding is left out.
- Regular expressions: the fence, signature and comment patterns are written out; code spans, cargo calls and RUSTFLAGS patterns are parameters.
- StaticBinary: names are byte strings, not decoded text; messages are values of a datatype.
- TraitParser: the search for `pub trait` and the removal of comments and strings before it.
- StoreDefaults: the order of the report; the Markdown table reader and the directory walk.
- Licenses: finding license files on disk; the digest is a parameter assumed injective where it matters. `LicenseOrder.Ordered` stands for the built-in sort.
- Dependencies: the sort of the shipped packages by name and version.
- Qr: encoding the code and the image file; pixel coordinates are unbounded integers (a QR has at most 177 modules a side).
- Quotes: decoding the quoted payload; jid parsing and printing are a pair of which only `parse(print(j)) = j` and a non-empty print are assumed.
- Percentile: exact reals; rounding of floating point is not modelled.
