# Celesto and OpenMuse: verified models

This project models six parts of the repository in Dafny and proves what they promise.

1. **The crash-safe approval protocol of OpenMuse.** An approved website action goes through
   `approved -> dispatched -> completed | outcome_unknown`; each move is journaled and checkpointed
   before the browser is told to act. `OperationLifecycle` holds the journal functions,
   `ApprovalProtocol` the server as a state machine whose steps are the stretches of code between
   two awaits, `ApprovalInvariant` the invariant every step keeps, and `ApprovalSafety` the theorems
   over whole runs with failing saves, saves that land and then fail, concurrent checkpoints,
   takeovers and crashes anywhere. `ApprovalConsent` ties every execution to the user's first
   decision; `ApprovalRecovery`, `ApprovalContinue` and `RecoveryBanner` say when a banner comes back
   after Continue or a second restart, `ApprovalForgets` shows runs in which it does, and
   `ApprovalBanner` proves that what it says is true. `ApprovalCourse` shows an approval that goes well. `OperationRecords` fixes the fields of a record.
   `ConfirmationGate` and `AtomicReplace` hold the confirmation lease and the replaced state file in
   the form the code gives them, and `ApprovalDisk` ties that file to the writer of the protocol.
2. **The ustar archiver of the guest agent.** `Utf8`, `UstarFields`, `UstarPath`, `UstarHeader` and
   `UstarArchive` model printer and parser down to the byte (the "ustar Interchange Format" of the
   pax utility in IEEE Std 1003.1); `UstarRoundTrip` proves that extraction rebuilds the archived
   tree, `UstarContainment` what extraction does with arbitrary bytes, and `UstarEntry` what each
   entry does.
3. **Trace replication.** `TraceModel` is the client's replica, `TraceServer` the canonical turns and
   steps with eviction and disabling, `TraceReplica` proves that the replica converges, and
   `TraceBuffer` is the bounded, subscribable event log, whose subscribers converge. `TraceSteps`
   fixes what every operation records.
4. **The managed environment store.** `EnvScript` models quoting, parsing and the script, `EnvStore`
   the locked read-modify-write, which refines a plain map, and `EnvSyntax` says what any environment
   file means.
5. **Terminal sessions.** `TerminalFrames` holds the frame codec and the two worker loops,
   `TerminalSession` the interleaving of handler, shell, workers, supervisor and permits.
6. **Sparse images and HTTP responses.** `SparseImage` proves the hole-seeking copy equal to a plain
   one, `AtomicReplace` the staged replacement, `HttpResponse` that the split into reads does not
   show, and `HttpHead` what a response head denotes.

`Common` and `Text` hold shared types and string functions. `dafny verify dfyconfig.toml` checks
everything.

Six properties hold only under a condition, which is proved to be the exact one:

- A banner that Continue was chosen for may come back after a restart, because the code acknowledges
  first and saves then (`ContinueForgotten`); that a checkpoint was queued after the Continue is not
  enough to prevent it (`SavedTooLate`). A content of the state file remembers the Continue when it
  was queued by the run that continued, or by one restarted from a content that remembers; it forgets
  it when it was queued while the banner was shown, or by a run restarted from a content that forgets
  in which nobody has continued or approved since. Of a conversation that had not ended, the banner comes back from every content that forgets, from none
  that remembers, and from a content that does neither exactly when the operation is the newest in
  it that needs recovery (`RestartAfterContinue`), as when the banner itself was never saved
  (`UnsavedBanner`).
- A second restart shows the banner of the first one exactly when that banner is not lost in settling
  the unfinished record (`BannerIdempotent`).
- An octal field reads back exactly when the value is below 8^width (`OctalRoundTrip`).
- A text field reads back exactly when it is valid UTF-8 (`StringFieldRoundTrip`).
- An environment map survives its script exactly when no value has a newline
  (`RoundTripIffNewlineFree`).
- HTTP headers are accepted for every split into reads exactly when they end within the header limit
  less one read buffer plus one byte, or the whole stream is within the limit (`SplitDoesNotMatter`).

## Model

| member | source | states |
|---|---|---|
| `ApprovalSafety.EveryRunIsSafe` | open-muse/server/broker.ts:420-557 | In every run a record that says "failed before execution" stands for zero browser executions, a succeeded one for exactly one, every other dispatched one ends unknown, and nothing is executed twice: live, and after a restart from any content the disk may show |
| `ApprovalSafety.FailedNeverRuns` | open-muse/server/broker.ts:435-557 | Once the journal says an approved action did not run, no continuation of the run executes it |
| `ApprovalSafety.NoUnfinishedRecordLost` | open-muse/server/operation-lifecycle.ts:86-91 | In every reachable state, keeping only the last unfinished record never drops one: after any step but a crash its operation still has a record |
| `ApprovalSafety.QuietBetweenApprovals` | open-muse/server/broker.ts:435-557 | In every reachable state in which no approval is being carried out, in particular before a new one, the journal has no unfinished record |
| `ApprovalSafety.LifecycleNeverThrows` | open-muse/server/operation-lifecycle.ts:40-84 | The transition functions refuse illegal moves, and the driver never asks for one |
| `ApprovalSafety.BeginIsControlled` | open-muse/server/broker.ts:209-232 | The browser is told to act only while the agent owns control in the epoch of the dispatch, never after a takeover that followed the request, after the dispatched record was saved, and for the first time |
| `ApprovalSafety.HumanControlIsQuiet` | open-muse/server/manager.ts:431-513 | While a human holds control no approved action is between dispatch and completion, and a request that the takeover overtook is undecided and no longer the pending one, so it cannot be approved |
| `ApprovalSafety.OneFlowAtATime` | open-muse/server/conversation-runtime.ts:48-92 | In every reachable state at most one approval is in flight |
| `ApprovalSafety.LeaseEnds` | open-muse/server/conversation-runtime.ts:48-92 | Short of a crash a lease ends undecided by an interruption or decided when its own flow is done, and never both |
| `ApprovalConsent.FirstDecisionWins` | open-muse/server/broker.ts:186-196 | In every run each executed operation belongs to a request whose first decision was to approve it, and no other operation belongs to that request |
| `ApprovalConsent.BeginIsApproved` | open-muse/server/broker.ts:420-437 | The browser is told to act only for a request whose first decision was to approve it |
| `ApprovalConsent.RefusedNeverRuns` | open-muse/server/broker.ts:428-433 | A request whose first decision was a refusal never becomes an operation, whatever happens later |
| `ApprovalSafety.RestoreShowsRecovery` | open-muse/server/manager.ts:1179-1227 | A restart of a conversation that had not ended is interrupted, with a banner, exactly when a record needs recovery, control was away, or work was in progress; the banner is about the newest record that needs recovery and says whether it did not run or may have completed |
| `ApprovalBanner.BannerIsTrue` | open-muse/server/operation-lifecycle.ts:100-122 | In every reachable state, and after a restart from every content the disk may show, a banner about a record of the journal says "did not run" exactly when the record failed before execution, and then nothing was executed, and "may have completed" exactly when the outcome is unknown |
| `ApprovalBanner.SettlementTells` | open-muse/server/broker.ts:533-557 | However an approval fails in a run, its record has the code and time given: not executed when it fails before the dispatch was saved, unknown afterwards; unless the conversation is stopping, the run is interrupted and the banner says the same |
| `ApprovalBanner.ApprovalIsRecorded` | open-muse/server/broker.ts:435-438 | A new approval takes down the old banner and writes an approved record of its kind and time |
| `ApprovalBanner.SuccessIsRecorded` | open-muse/server/broker.ts:503-509 | A completed action is recorded as succeeded, with no change of banner or run state |
| `ApprovalBanner.RefusalLeavesNothing` | open-muse/server/broker.ts:428-433 | A refusal writes no record, touches no banner, and leaves the run idle with nothing pending |
| `ApprovalBanner.RequestIsOver` | open-muse/server/broker.ts:186-196 | When a request is over its lease is free, and the agent goes on unless the run is interrupted or stopping |
| `ApprovalBanner.ControlTransfers` | open-muse/server/manager.ts:478-530 | Takeover, resume, continue and restart give control to the named owner under a fresh epoch |
| `ApprovalSafety.ContinueAcknowledges` | open-muse/server/manager.ts:287-311 | Right after Continue the live record the banner was about needs no recovery |
| `ApprovalContinue.RestartAfterContinue` | open-muse/server/manager.ts:308-311 | For every continuation of a Continue, with restarts from any content, and every content the disk may then show: a restart from it raises the banner for that operation if and only if the conversation had not ended and the content forgets the Continue, or neither remembers nor forgets it and that operation is the newest in it that needs recovery |
| `ApprovalContinue.RestartUnforgotten` | open-muse/server/manager.ts:308-311 | As long as no restart loads a content queued before the Continue, a content queued since the banner was shown raises it if and only if it was queued before the Continue |
| `ApprovalContinue.ForgottenShows` | open-muse/server/manager.ts:1179-1204 | After every continuation, a restart from a content that forgets the Continue shows the banner as it was shown before, so that the next Continue is subject to the same theorem |
| `ApprovalContinue.SavedContinueIsFinal` | open-muse/server/manager.ts:308-311 | Once a checkpoint that remembers the Continue has been saved, no run whatsoever shows the banner for that operation again, live or after a restart from any content the disk may show |
| `ApprovalRecovery.SettledShows` | open-muse/server/broker.ts:533-557 | An approval that ends failed or unknown shows its banner, and its own checkpoint is the first copy from which a restart shows it |
| `ApprovalForgets.ContinueForgotten` | open-muse/server/manager.ts:308-311 | There is a run, through one execution, in which a crash right after the Continue makes the restart show the banner again |
| `ApprovalForgets.SavedTooLate` | open-muse/server/manager.ts:308-311 | In that run a checkpoint queued and saved after the Continue, but by the restarted server, shows the banner live and after every further restart |
| `ApprovalForgets.UnsavedBanner` | open-muse/server/broker.ts:533-557 | There is a run in which the checkpoint of the banner fails, the user chooses Continue, and a restart from the older content, which neither remembers nor forgets the Continue, raises the banner because there the operation is still unfinished |
| `ApprovalCourse.ApprovalRunsItsCourse` | open-muse/server/broker.ts:420-531 | An approval can run its course: the browser acts once, the record says that it succeeded, live and on disk, no banner is shown, and the agent goes on |
| `ApprovalCourse.ControlRunsItsCourse` | open-muse/server/manager.ts:478-530 | Control can be taken over by the human and resumed by the agent |
| `ApprovalDisk.PerformSave` | open-muse/server/state-store.ts:269-275 | Performing the oldest queued write amounts to a failure, a landing and a failure, or a landing and a success of the protocol, reported as such; cut off at any point, the file shows after a crash, and on POSIX after a loss of power, only contents the protocol allows |
| `ApprovalSafety.RunKeeps` | open-muse/server/state-store.ts:269-275 | The protocol invariant holds after every run, whatever the queued writer does |
| `ApprovalInvariant.StepKeeps` | open-muse/server/broker.ts:420-557 | Every enabled step of driver, gate, writer, control transfer, crash and restore keeps the invariant that ties the live, queued and durable copies of the journal to the executions begun |
| `ApprovalInvariant.RestoredJournal` | open-muse/server/operation-lifecycle.ts:100-122 | Recovery of a sound saved journal is sound: it never calls a durably dispatched operation "not executed" |
| `ApprovalInvariant.BeginCopies` | open-muse/server/broker.ts:320-324 | Beginning the browser call makes no copy of the journal, live, queued or on disk, untrue |
| `OperationLifecycle.UpsertIsCanonical` | open-muse/server/operation-lifecycle.ts:86-91 | One upsert into any journal with unique ids gives unique ids, sorted creation times, at most one unfinished and 100 finished records, the unfinished one last of its instant |
| `OperationLifecycle.UpsertMembers` | open-muse/server/operation-lifecycle.ts:86-91 | The upserted record is in the journal, and everything else was there before under another id |
| `OperationLifecycle.UpsertDiscardsActive` | open-muse/server/operation-lifecycle.ts:86-91 | An unfinished record is pushed out by the upsert of another operation if and only if that one is unfinished |
| `OperationLifecycle.ReplayIsCanonical` | open-muse/server/operation-lifecycle.ts:86-91 | Every journal reachable by upserts is canonical |
| `OperationLifecycle.SerializeIsRedaction` | open-muse/server/state-store.ts:172-192 | Serialising a canonical journal by folding upserts loses nothing but the free-form summaries |
| `OperationLifecycle.Rebuild` | open-muse/server/operation-lifecycle.ts:86-91 | Splitting a canonical journal into finished and unfinished records and sorting them again gives it back |
| `OperationLifecycle.RecoverOperations` | open-muse/server/operation-lifecycle.ts:100-122 | The recovery loop computes the specified journal and banner, leaves nothing unfinished, and raises a banner exactly when some record needs recovery: about the last such record, saying "did not run" for an approved or failed one and "may have completed" for a dispatched or unknown one |
| `OperationLifecycle.RecoverLeavesNoActive` | open-muse/server/operation-lifecycle.ts:100-122 | Recovery settles every unfinished record of any journal, even a malformed one |
| `OperationLifecycle.RecoverCanonical` | open-muse/server/operation-lifecycle.ts:100-122 | Recovery of a canonical journal settles its one unfinished record, touches nothing else and stays canonical |
| `OperationLifecycle.RecoveryIsShown` | open-muse/server/operation-lifecycle.ts:100-122 | After any number of records the banner is raised exactly when one of them needs recovery |
| `OperationLifecycle.RecoverIdempotent` | open-muse/server/operation-lifecycle.ts:100-122 | A second restart leaves every journal as the first one left it |
| `RecoveryBanner.BannerIdempotent` | open-muse/server/operation-lifecycle.ts:100-122 | For every canonical journal, a second restart leaves journal and banner as the first one left them if and only if it has no unfinished record, or a newer record needs recovery and is not the one that the bound of 100 drops, or none does and the unfinished record had not been acknowledged |
| `RecoveryBanner.NewestKeepsBanner` | open-muse/server/operation-lifecycle.ts:100-122 | With non-decreasing creation times the banner always stays |
| `RecoveryBanner.SettledShape` | open-muse/server/operation-lifecycle.ts:86-91 | Settling an unfinished record keeps its place in the journal, and a full journal loses exactly its oldest finished record |
| `OperationLifecycle.AcknowledgeFacts` | open-muse/server/operation-lifecycle.ts:93-98 | Acknowledging stamps the named record and changes no other |
| `OperationLifecycle.AcknowledgeCanonical` | open-muse/server/operation-lifecycle.ts:93-98 | A canonical journal stays canonical when a record is acknowledged |
| `OperationRecords.TransitionTable` | open-muse/server/operation-lifecycle.ts:40-84 | Each transition is legal exactly from its states, sets state, outcome, time and code, and keeps every other field |
| `OperationRecords.SettledFields` | open-muse/server/operation-lifecycle.ts:100-122 | A restart settles an approved record as not executed and a dispatched one as unknown, with the restart code and time |
| `OperationRecords.SavedFields` | open-muse/server/state-store.ts:172-192 | A saved journal has the same records in the same order, each with every field but its summary, which is fixed by the kind |
| `OperationRecords.UpsertBounds` | open-muse/server/operation-lifecycle.ts:86-91 | After an upsert there are at most one unfinished and a hundred finished records |
| `OperationRecords.UpsertKeepsFinished` | open-muse/server/operation-lifecycle.ts:86-91 | As long as there is room a finished record stays when another operation is written |
| `ConfirmationGates.ConfirmationGate.Wait` | open-muse/server/conversation-runtime.ts:53-65 | A request opens a fresh undecided lease, or is refused while another is open |
| `ConfirmationGates.ConfirmationGate.Resolve` | open-muse/server/conversation-runtime.ts:67-75 | A stale decision is refused and changes nothing; otherwise the first decision counts and the caller waits for that lease |
| `ConfirmationGates.ConfirmationGate.Finish` | open-muse/server/conversation-runtime.ts:77-82 | Exactly the named lease ends, keeps its decision and releases its waiters |
| `ConfirmationGates.ConfirmationGate.Interrupt` | open-muse/server/conversation-runtime.ts:84-92 | An undecided lease ends with a refused decision and releases its waiters; a decided one cannot be interrupted |
| `AtomicReplace.WritePrivateFileAtomically` | open-muse/server/private-file.ts:5-22 | Whatever step fails, every intermediate state has the old or the complete new file, a failure up to the rename leaves the old one throughout, no temporary file survives a working clean-up, and a success on POSIX survives a loss of power |
| `AtomicReplace.ReplaceStaged` | celesto-core/src/disk.rs:107-217 | Whatever step fails, every intermediate state has the old or the complete new image, a failure up to the rename leaves the old one throughout, and no stage entry survives a working clean-up |
| `UstarRoundTrip.ArchiveRoundTrip` | guest-agent/src/files.rs:177-414 | Whenever archiving a tree succeeds, extracting into an empty destination succeeds and leaves at every path exactly the archived file contents, directories and low nine mode bits, and nothing else, for every listing order |
| `UstarRoundTrip.HeaderReads` | guest-agent/src/files.rs:256-414 | Parsing a written header gives back path, mode bits, size and type, and a header never looks like the end marker |
| `UstarRoundTrip.ExtractNode` | guest-agent/src/files.rs:219-365 | Extracting the bytes of one node adds exactly that node and goes on with the bytes behind it |
| `UstarRoundTrip.ExtractEntries` | guest-agent/src/files.rs:211-365 | The same for the entries of a directory, at any depth |
| `UstarRoundTrip.AddedIsLookup` | guest-agent/src/files.rs:318-365 | What has been added below a directory is what walking the tree finds there |
| `UstarContainment.ExtractIsContained` | guest-agent/src/files.rs:318-414 | For every sequence of bytes, whether extraction succeeds or stops half-way, it adds only paths below the destination made of ordinary names, removes nothing, and leaves a tree |
| `UstarContainment.ParsedPathIsSafe` | guest-agent/src/files.rs:367-414 | An accepted header names a path without empty, dot or parent components and without NUL bytes |
| `UstarArchive.ExtractTarInto` | guest-agent/src/files.rs:318-365 | The extraction loop ends for every input, reads in range with every header on a 512-byte boundary, and computes the specified destination, or the specified error with what it leaves behind |
| `UstarArchive.ModeBits` | guest-agent/src/files.rs:235-245 | The result is below 512 and differs from the mode by a multiple of 512 |
| `UstarEntry.EntryApplied` | guest-agent/src/files.rs:337-358 | Type '5' makes a directory and '0' or NUL a file with the nine mode bits and the data, the missing directories on the way getting mode 0755; it fails exactly where a file is in the way, a directory is in the place of the file, or the type is another |
| `UstarEntry.DirsMade` | guest-agent/src/files.rs:488-508 | Directories are made exactly where there are none, unless a file is in the way, and whatever there was stays |
| `UstarEntry.HeaderMeans` | guest-agent/src/files.rs:320-336 | A header is accepted exactly when its path is relative, goes nowhere up and has a component, and its size is a number; then these, the type and the mode, 0644 if it is no number, are what it means |
| `UstarEntry.TruncatedEntry` | guest-agent/src/files.rs:333-336 | An entry whose data are not all there is refused and leaves the destination alone |
| `UstarEntry.ExtractionEnds` | guest-agent/src/files.rs:318-326 | A zero block ends extraction whatever follows, and bytes that end before one are refused |
| `UstarEntry.ArchiveShape` | guest-agent/src/files.rs:177-191 | An archive is a whole number of 512-byte blocks ending in 1024 zeros |
| `UstarArchive.AppendDirectoryEntries` | guest-agent/src/files.rs:211-254 | The loop over a directory appends exactly the specified bytes, and fails exactly when the specification does |
| `UstarArchive.AppendEntry` | guest-agent/src/files.rs:219-252 | The same for one entry: header, contents and padding of a file, header and inside of a directory, nothing for other kinds |
| `UstarArchive.PadTarEntry` | guest-agent/src/files.rs:311-316 | Zeros up to the next 512-byte boundary are appended |
| `UstarHeader.AppendTarHeader` | guest-agent/src/files.rs:256-283 | A header block is appended, unless the path does not fit the name and prefix fields |
| `UstarHeader.FillHeader` | guest-agent/src/files.rs:256-283 | Filling the zeroed block field by field and adding the checksum last gives the specified header |
| `UstarHeader.WriteBytes` | guest-agent/src/files.rs:301-304 | The in-place field write copies at most the field's width and touches no other byte |
| `UstarHeader.HeaderLayout` | guest-agent/src/files.rs:256-283 | Every byte of the header is accounted for: name, mode, zero owner, group and time, size, checksum, type, magic, version and prefix stand at their ustar positions, and the unused fields are zeros |
| `UstarHeader.ChecksumStored` | guest-agent/src/files.rs:271-283 | The checksum of every header fits six octal digits, and the stored text reads back as the sum of the block with a blank checksum field |
| `UstarPath.SplitSucceeds` | guest-agent/src/files.rs:285-299 | Splitting succeeds exactly when the path, without leading `./`, has at most 100 bytes or some slash leaves a prefix of at most 155 and a name of 1 to 100 bytes |
| `UstarPath.SplitAtLast` | guest-agent/src/files.rs:285-299 | Of the slashes that would do, the last one divides a long path |
| `UstarPath.TrimmedPath` | guest-agent/src/files.rs:285-287 | Trimming takes off every leading `./` and nothing else |
| `UstarPath.BackslashesReplaced` | guest-agent/src/files.rs:225-229 | Backslashes, and only they, become slashes |
| `UstarPath.ComponentsOf` | guest-agent/src/files.rs:399-414 | A path without slashes is one component, or none if empty or a dot, and a slash joins the components of both sides |
| `UstarPath.SplitThenJoin` | guest-agent/src/files.rs:285-299 | Splitting and joining again is the identity, both parts fit their fields, and the parts of a text are texts |
| `UstarPath.JoinThenComponents` | guest-agent/src/files.rs:399-414 | The components of a joined path, with or without a trailing slash, are the path |
| `UstarPath.PathRoundTrip` | guest-agent/src/files.rs:367-414 | The path parsed from the written name and prefix is the archived path |
| `UstarFields.OctalRoundTrip` | guest-agent/src/files.rs:306-397 | An octal field of two or more bytes reads back as the 64-bit value written if and only if the value is below 8^width |
| `UstarFields.StringFieldRoundTrip` | guest-agent/src/files.rs:301-388 | A value that fits its field and has no NUL reads back if and only if it is valid UTF-8 |
| `UstarFields.BlankPaddedOctal` | guest-agent/src/files.rs:390-397 | Octal numbers with blanks around them and anything behind a NUL are read too |
| `Utf8.LossyIsIdentityIffValid` | guest-agent/src/files.rs:226-229 | The lossy conversion of names to text changes exactly the byte strings that are not valid UTF-8 |
| `Utf8.ValidIffEncodesText` | guest-agent/src/files.rs:382-388 | A byte string counts as valid exactly when it is the UTF-8 encoding of some sequence of Unicode characters |
| `TraceReplica.ReplicaConverges` | open-muse/client/trace.ts:20-42 | A client that starts from any server snapshot and is delivered the later events in order, with any repetitions, holds exactly the server's value of every live turn that is not disabled |
| `TraceReplica.DoLinked` | open-muse/server/trace.ts:165-302 | Every server operation, with the client applying its events, keeps server and replica linked |
| `TraceReplica.DeliverySettles` | open-muse/client/trace.ts:20-42 | Redelivered events change nothing: the replica is where in-order delivery up to its cursor would put it |
| `TraceReplica.EvictionSpares` | open-muse/server/trace.ts:290-302 | Eviction never touches a turn that has not finished |
| `TraceReplica.ElapsedIsRunningTime` | open-muse/client/trace.ts:44-46 | For every run with non-decreasing times the elapsed time shown for a recorded turn is the total time it spent running, whatever happens to its steps and to other turns |
| `TraceReplica.OpTimes` | open-muse/server/trace.ts:165-190 | An operation books time on a turn exactly when it changes that turn's state |
| `TraceSteps.StepUpdated` | open-muse/server/trace.ts:211-278 | Completing a step makes it completed at that time with the output, failing it failed with the error, cancelling it cancelled, and new input changes only the input; every other step, field and turn stays; it is published and booked, and the turn is disabled exactly when the budget is exceeded |
| `TraceSteps.StepStarted` | open-muse/server/trace.ts:192-209 | A started step is recorded as one more running step with the given kind, text and input under a new number, and published |
| `TraceSteps.StepFits` | open-muse/server/trace.ts:280-288 | As long as there is room a step is recorded and booked, and nothing is evicted for it |
| `TraceSteps.StepRefused` | open-muse/server/trace.ts:192-209 | A step goes unrecorded only at the limit of steps, or when its bytes do not fit although no finished turn is left |
| `TraceSteps.TurnStarted` | open-muse/server/trace.ts:165-173 | A new turn is recorded as running since now and published, unless its bytes do not fit although no finished turn is left; as long as they fit nothing is evicted |
| `TraceSteps.TurnStateSet` | open-muse/server/trace.ts:175-190 | A change of state is recorded with its time, which is the completion time exactly if the turn is over; its steps and all other turns stay |
| `TraceSteps.RunningCancelled` | open-muse/server/trace.ts:231-239 | Within budget no step is left running: those that ran are cancelled at the given time and all others are as they were |
| `TraceSteps.DisabledTurn` | open-muse/server/trace.ts:304-313 | A disabled turn gets one last completed step that says why, and nothing else changes |
| `TraceSteps.DisabledIsFrozen` | open-muse/server/trace.ts:315-319 | Operations on a disabled turn do nothing |
| `TraceSteps.EvictedTurn` | open-muse/server/trace.ts:290-302 | An evicted turn is left as an expired turn without steps, on the server, which keeps the last hundred, and in every client that shows it |
| `TraceSteps.EvictionStops` | open-muse/server/trace.ts:290-302 | Eviction goes on until the bytes fit or no finished turn is left |
| `TraceSteps.FirstIsOldest` | open-muse/server/trace.ts:290-293 | The turn evicted first is the first of the finished ones |
| `TraceSteps.RunNumbered` | open-muse/server/trace.ts:192-209 | In every run the numbers of a turn's steps grow |
| `TraceModel.ApplyFrame` | open-muse/client/trace.ts:20-42 | An event changes no turn but its own in the replica |
| `TraceBuffers.TraceBuffer.Publish` | open-muse/server/trace.ts:321-333 | A published event gets the next id; the window stays the contiguous tail of the history, with exact byte count, within both limits; every subscriber has received it once and in order |
| `TraceBuffers.TraceBuffer.Trim` | open-muse/server/trace.ts:321-333 | Dropping the oldest events ends within both limits and keeps the window contiguous and its byte count exact |
| `TraceBuffers.TraceBuffer.Subscribe` | open-muse/server/trace.ts:247-254 | A subscriber is told to resync exactly when its cursor is of another stream, ahead, or before the window, and otherwise has received every later event once and in order, except that events published up to the last close are gone |
| `TraceBuffers.TraceBuffer.Attach` | open-muse/server/trace.ts:243-254 | A client that takes a snapshot and subscribes at its cursor is never told to resync, and starts from the snapshot of the operations performed |
| `TraceBuffers.TraceBuffer.SubscriberMirrors` | open-muse/server/trace.ts:243-254 | A client that attached after any of the operations and applies what its subscription has received shows every live turn that is not disabled exactly as the buffer holds it |
| `TraceBuffers.TraceBuffer.Later` | open-muse/server/trace.ts:247-254 | Filtering the window by event id gives the whole history behind the cursor, from the last close on |
| `TraceBuffers.TraceBuffer.Perform` | open-muse/server/trace.ts:165-302 | An operation changes the canonical state as specified and publishes exactly its events in order, so state and events stay those of the operations performed |
| `TraceBuffers.TraceBuffer.Close` | open-muse/server/trace.ts:256-265 | Closing publishes a resync notice, drops every turn, listener and event of the window, and leaves a buffer whose window starts over from there |
| `EnvStore.StoreRefinesMap` | guest-agent/src/env.rs:58-116 | For every interleaving of locked puts and deletes with newline-free values the parsed file equals the plain map after the requests of exactly the threads that wrote, each once, in write order |
| `EnvStore.MergeNotLost` | guest-agent/src/env.rs:58-85 | A variable set by one put is there, with its value, after any later merges that do not mention it |
| `EnvStore.EnvFile.PutManaged` | guest-agent/src/env.rs:58-85 | A put succeeds exactly when keys, lock, read and write allow it; a refused one leaves the file alone; one that reached the file makes it hold the updated map exactly when no new value has a newline |
| `EnvStore.EnvFile.DeleteManaged` | guest-agent/src/env.rs:91-116 | A delete succeeds exactly when keys, lock, read and write allow it, and then the named keys are gone and all other variables stay |
| `EnvStore.EnvFile.WriteVars` | guest-agent/src/env.rs:198-221 | The write leaves the old file or a script that holds the map exactly when no value has a newline |
| `EnvScript.RoundTripIffNewlineFree` | guest-agent/src/env.rs:138-251 | Reading the script of a map with valid keys, in any order of its lines, gives the map back if and only if no value has a newline |
| `EnvScript.ScriptReadsBack` | guest-agent/src/env.rs:223-251 | The script of any list of newline-free assignments reads as their successive effect |
| `EnvScript.QuoteThenParse` | guest-agent/src/env.rs:159-251 | Quoting then parsing is the identity on every value |
| `EnvScript.ParseShellValue` | guest-agent/src/env.rs:159-196 | The character loop with its quote states computes the specified value, unterminated quotes and trailing backslashes included |
| `EnvScript.ReadEnvFile` | guest-agent/src/env.rs:138-157 | The line loop computes the specified map from any content |
| `EnvScript.ReadShape` | guest-agent/src/env.rs:138-157 | Whatever the file contains, the keys read are valid and the values read have no newline |
| `EnvSyntax.WordDenotes` | guest-agent/src/env.rs:159-196 | Bare text, single-quoted text, double-quoted text with guarded quotes and backslashes, and escaped characters, in any succession, denote their texts one after the other, up to white space |
| `EnvSyntax.Unclosed` | guest-agent/src/env.rs:159-196 | A quote that is not closed reaches to the end, and a final backslash is dropped |
| `EnvSyntax.ExportDenotes` | guest-agent/src/env.rs:144-155 | `export`, a valid key and a word, with white space around, set the variable to what the word denotes |
| `EnvSyntax.OtherLines` | guest-agent/src/env.rs:144-155 | Comments, lines without `export` or `=`, and lines with an invalid key change nothing |
| `EnvSyntax.FileDenotes` | guest-agent/src/env.rs:138-157 | A file means its lines one after the other, with either line end, and a last line without an end counts |
| `EnvSyntax.KeyGrammar` | guest-agent/src/env.rs:126-136 | A key is an ASCII letter or underscore followed by letters, underscores and digits |
| `EnvSyntax.WrittenLiterally` | guest-agent/src/env.rs:240-251 | Every value is written as a word a shell takes literally: characters without a meaning of their own, or all in single quotes |
| `TerminalSession.EverySessionIsOrderly` | guest-agent/src/terminal.rs:219-377 | In every interleaving no output follows the final frame, the supervisor sends one final frame, a started session gives its permit back only after the shell was reaped, both workers joined and the final frame sent, and at most eight permits are held |
| `TerminalSession.FinalFrameTells` | guest-agent/src/terminal.rs:354-373 | In every run a session sends EXIT exactly when the wait for its shell succeeded and the frame was encoded, and the supervisor's ERROR exactly when it reported after a failed wait or encoding |
| `TerminalSession.SessionRunsItsCourse` | guest-agent/src/terminal.rs:309-377 | A session can run its course, from admission through output and exit to EXIT as the last frame and a free permit |
| `TerminalSession.StepKeeps` | guest-agent/src/terminal.rs:309-377 | Every step of handler, shell, workers and supervisor keeps the session invariant and the permit count |
| `TerminalFrames.EncodeFrame` | guest-agent/src/terminal.rs:73-94 | The filled vector is type, big-endian length and payload, refused above 1 MiB |
| `TerminalFrames.FrameLayout` | guest-agent/src/terminal.rs:73-94 | A frame is its type, its length in four bytes with the most significant first, and its payload of at most 1 MiB |
| `TerminalFrames.EncodeThenRead` | guest-agent/src/terminal.rs:73-94 | An encoded frame reads back with whatever follows it untouched |
| `TerminalFrames.ReadThenEncode` | guest-agent/src/terminal.rs:151-169 | Whatever was read as a frame is exactly the encoding of that frame |
| `TerminalFrames.DecodeConcatenation` | guest-agent/src/terminal.rs:151-169 | Decoding the concatenation of encoded frames returns those frames and the end of the stream |
| `TerminalFrames.WritePtyInput` | guest-agent/src/terminal.rs:551-575 | Despite partial and refused writes the terminal has received a prefix of the concatenated payloads, all of them within one check per payload and byte when nothing is refused, never more than it was ready to take, and nothing after cancellation |
| `TerminalFrames.WritePayload` | guest-agent/src/terminal.rs:562-573 | The inner loop gives up a payload half-way only when the worker returns or the flag is set, and then the outer loop sees the flag too |
| `TerminalFrames.ReadPtyOutput` | guest-agent/src/terminal.rs:503-549 | What is forwarded is a prefix of what the terminal offered, all of it when nothing goes wrong, nothing from behind its end or a failure, and after cancellation at most one maximum frame and two read buffers |
| `SparseImage.CloneOrSparseCopy` | celesto-core/src/disk.rs:15-45 | With a reflink the target is the source; without one, for every split into reads and whatever the failed clone left, it holds the bytes read up to the first empty read, cut or zero-extended to the source's length; either way it is byte-equal to an unchanged source |
| `SparseImage.DecompressBounded` | celesto-core/src/disk.rs:58-94 | Decoding succeeds exactly when the decoded length fits the counter and the limit, then byte-equal to the decoded stream, and never writes beyond the limit |
| `SparseImage.WriteSparseChunk` | celesto-core/src/disk.rs:263-270 | Seeking over a chunk of zeros or writing it keeps the file equal to the image as far as it goes, with only zeros missing |
| `SparseImage.DeliveredIsAll` | celesto-core/src/disk.rs:30-38 | Reads up to the first empty one deliver their concatenation |
| `SparseImage.Resize` | celesto-core/src/disk.rs:39-41 | Setting the length keeps what is within it and fills with zeros |
| `HttpResponse.ReadResponse` | celesto-core/src/firecracker.rs:59-117 | Whenever the headers are accepted, status, payload and errors are those of a reader that sees the whole stream at once; without Content-Length the payload is what the reads up to the blank line brought behind it |
| `HttpHead.ResponseDenotes` | celesto-core/src/firecracker.rs:84-131 | A stream whose head has a status in decimal, other fields, and a Content-Length in any letter case that announces the body behind the blank line yields that status and exactly that body |
| `HttpHead.HeadDenotes` | celesto-core/src/firecracker.rs:84-102 | Such a head denotes its status and its length, refused above 1048576 |
| `HttpHead.HeadWithoutLength` | celesto-core/src/firecracker.rs:119-131 | A head without Content-Length denotes its status and no length |
| `HttpHead.DecimalReadsBack` | celesto-core/src/firecracker.rs:90-93 | A number printed in decimal is read back exactly if it is within the range of its type |
| `HttpHead.FirstBlankLine` | celesto-core/src/firecracker.rs:63-69 | The head ends at the first CR LF CR LF |
| `HttpResponse.ReadUntilMarker` | celesto-core/src/firecracker.rs:63-82 | The header loop stops where the specification does, with the blank line among the bytes read |
| `HttpResponse.ReadBody` | celesto-core/src/firecracker.rs:103-116 | The payload is exactly the announced number of bytes behind the blank line, whether too few or too many had been read, or an end-of-stream error |
| `HttpResponse.SplitDoesNotMatter` | celesto-core/src/firecracker.rs:63-82 | The headers are accepted for every split into reads exactly when they end within 61441 bytes or the whole stream has at most 65536 |

## Left out

- Broker and manager are modelled as steps on a value, not as classes with asynchronous methods, so that their awaits can interleave; an effect is a browser execution begun.
- Expiry, tab, page and browser checks of the broker, and `isCurrentExecution`, are failures that may happen at any time.
- A takeover waits until no approval is being carried out (`activeAction`, and the agent's own idleness for overlapping takeovers); the browser session counts as ready while a request is open.
- One conversation is modelled: switching, history, starting over, stopping, closing and `pauseTask` (which may return to idle without a banner) are reduced to arbitrary changes of the run state; event emission is total.
- ApprovalDisk.PerformSave: on Windows the directory is not synced, so there only crashes of the process are covered.
- Crashes are modelled by the set of contents the state file may show: the last synced one and those renamed into place since.
- ApprovalContinue.RestartAfterContinue: takes the banner to be the one a restart would show when it appears, and not replaced by another before the Continue.
- ApprovalContinue.RestartUnforgotten: excludes restarts from contents queued before the Continue; `RestartAfterContinue` covers them.
- ApprovalSafety.LeaseEnds: says that a lease that ends does so in one of the two ways, not that a browser call eventually returns.
- Clocks are integers, ids are fresh naturals, ISO timestamps compare as integers, and free-form redaction of summaries is one function.
- ConfirmationGates.ConfirmationGate.Wait: the promises are fields that settle once; scheduling of their continuations is not modelled.
- Message bounds, event ring, schema migration and available commands of the state store and runtime.
- UstarRoundTrip.ArchiveRoundTrip: file sizes below 8^12 and names without backslash, since the archiver rewrites backslashes; names are valid UTF-8, since other names are rewritten by the lossy conversion; and every archived directory can be written to while it is extracted, which for one without write permission holds only for root.
- Sorting of directory listings (the round trip holds for every order), umask, ownership, staging directories, descriptor and symbolic-link checks of the file operations.
- UstarContainment.ExtractIsContained: a failing file-system call is not modelled, so neither are the temporary entries it may leave.
- Numeric tar fields trim ASCII whitespace only.
- TraceReplica.ReplicaConverges: disabled turns are excluded, since an over-budget update of theirs is applied without an event, and so is starting a turn id again after its eviction.
- Turns and steps of the trace are updated on values; payload normalisation, exceptions caught by the guard and throwing listeners are left out, and `canonicalBytes` and `stepCount` are the estimates the code keeps.
- EnvScript.ScriptReadsBack: values with a newline are excluded, since the reader works line by line; `RoundTripIffNewlineFree` gives the exact condition.
- Poisoned locks, unreadable files and failing writes of the environment store are parameters of each call.
- TerminalSession.EverySessionIsOrderly: safety only; "reaped" means that the wait for the shell has returned, and panicking workers, resizing and process groups are left out.
- The terminal's handshake, authentication and vsock transport.
- SparseImage.CloneOrSparseCopy: whether the file system supports reflinks, and what a failed one leaves, are parameters; a source that changes while it is copied is cut or zero-extended.
- SparseImage.DecompressBounded: the zstd decoder is a sequence of decoded chunks; I/O errors inside it are not modelled.
- HttpResponse.ReadResponse: lossy UTF-8 decoding is a parameter and timeouts are left out.
- Networking helpers, QMP, the Docker supervisor, Python bindings, the user interface, model agents, viewers, benchmarks and examples.
