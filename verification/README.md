# Verified model of the Lethetic core

This project models six parts of Lethetic that keep state, and proves what they keep.

1. **Session lifecycle** (`SessionMachine`, `SessionInvariant`, `SessionSafety`, `SessionLife`, `SessionDeletion`,
   `StaleRecoveryRun`, `DeletionRuns`, `SessionStore`).
   Processes share durable lifecycle records, write-once identity bindings, one lock per path and one per identity, and session
   directories. Every read, lock and durable write is a step of its own; any process may stop between two steps. What a process
   has established by the stage it is in is one global invariant; each step is shown to stay within what its own locks allow.
2. **Streaming markers and tool calls** (`StreamParser`, `StreamChunking`, `CleanStreams`, `UncleanStreams`, `StreamOutput`,
   `StreamSections`, `MarkerTable`; `ToolCallGrammar`, `GrammarLaws`, `ToolCallSearch`, `ToolCallParser`). The incremental lexer with its hold-back of unfinished
   markers, the printer of tool calls and the forgiving parser that should undo it.
3. **Durable transcript projection** (`TranscriptProjection`, `ProjectionInvariant`, `ProjectionLaws`, `StreamedProjection`,
   `ShownBlocks`, `DurableSession`). Checkpoints are applied to a capped list of blocks through a cursor of positions and queues.
4. **Context, agent loop and request task** (`ContextTrim`, `FileCache`, `ContextManager`, `ToolResults`, `InterruptedCalls`,
   `UniqueIds`, `Transcripts`, `AgentLoop`, `AgentTurns`, `AnsweredCalls`, `HeadlessAgent`,
   `RequestTask`, `RequestHistory`).
5. **Accounting** (`Amounts`, `AccountingTotals`, `AccountingFigures`, `AccountingLedger`, `SessionAccounting`, `Pricing`).
6. **Background output** (`Utf8Stream`, `BackgroundOutput`, `BackgroundLines`).

`Text`, `Trimming`, `Utf8`, `Decimals` and `Messages` hold what these share: string search and trimming as the Rust standard
library does them, byte lengths, decimal numerals and the messages of a conversation.

Objects that the source updates in place are classes here, and its loops are loops; each such method is proved equal to a function
of the old state, and the laws are proved about those functions. Methods of a class whose contract names such a function are tied
to it for every input. What each function gives is also told a second time, without it: by what is on file (`SessionLife`), by
history alone (`RequestHistory`), block by block (`ShownBlocks`), message by message (`AgentTurns`), as plain sums
(`AccountingFigures`), line by line (`BackgroundLines`) or by what was written (`StreamSections`).

## What the proofs found

Where a property one would expect does not hold of the code as it stands, the exact condition is proved instead:

- Feeding a stream in chunks gives the same result as feeding it whole if and only if no opener stands inside a thought or tool
  segment, except copies of one tool opener at the very start of a tool segment (`MarkerTable.CutAnywhereIffClean`).
- Recovery writes a record that it read before it held a lock. A run in which this takes a tombstone back is exhibited
  (`StaleRecoveryRun.TombstoneTakenBack`), and nothing else ever does (`SessionSafety.TombstoneLostIffStale`).
- A removal that stops after the directory is gone and before that is recorded leaves the record marked for ever; in every other case
  it can be completed (`SessionDeletion.DeletionCompletesIff`). State kept in the content database is cleared first, not last
  (`SessionDeletion.StateOutlivesEntries`). Runs that reach both are exhibited for every identity and name
  (`DeletionRuns.StuckReached`, `DeletionRuns.OnlyCopyClearedFirst`).
- A tool result is read back if and only if the name holds no result prefix and the identifier holds no delimiter and is not the
  label itself (`ToolResults.RoundTripsIff`); interrupted-call repair answers every call, and a second repair inserts nothing,
  exactly under the same condition on identifiers.
- A string argument with a character outside ASCII is never read back: the scan adds bytes to characters and slices past the end
  (`GrammarLaws.SingleArgIff`).
- The cached totals of the latest turn go wrong exactly when a new entry goes back to an old turn
  (`AccountingLedger.LatestTurnIffNoReentry`); session totals are independent of order exactly when all priced entries share a
  currency (`AccountingTotals.OrderIndependentIffOneCurrency`).
- A thought that opens after visible text is never closed (`RequestTask.ThoughtClosedIff`).
- Showing a message in any number of forms while it streams and finishing it comes to the same as showing it once if and only if
  no form had visible text, or the final form has, or the final form is refused either way (`StreamedProjection.StreamedIsBatchIff`).
- The text of background output does not depend on how reads divide the stream if and only if every unit after the first ill-formed
  one is a single byte, so for every valid stream (`Utf8Stream.ReadIndependentIffPlain`; `BackgroundOutput.StrayByteOutput` shows the
  difference in the output of one stream).
- A transcript that waits for tool results survives trimming, whatever the estimate and the budget, if and only if it has a user
  message (`Transcripts.TrimKeepsAwaitingIff`).
- Every call of a request has exactly one result with its identifier right after it if and only if the identifiers of its batch are
  distinct, hold no delimiter and are not the label itself. Calls found in text are renamed apart; calls of a provider are taken as they come
  (`AnsweredCalls.EveryCallAnsweredOnceIff`).

## Model

| member | source | states |
|---|---|---|
| SessionSafety.LeasesExclusive | src/session_store.rs:721-804 | In every reachable world, two processes that hold a lease hold it on different identities and on different directories. |
| SessionSafety.ResumedIsLive | src/session_store.rs:721-780 | A resumed session is not tombstoned, is bound to the directory that is there, and no other identity is bound to or recorded for its path, although its record was read before the identity lock was taken. |
| SessionSafety.CreatedIsLive | src/session_store.rs:236-287 | The same for the process that created the session: not tombstoned, bound, and the bound directory is still the one that was made. |
| SessionSafety.ResumedUntilHolderEnds | src/session_store.rs:721-804 | Along every run, from resuming until the holder deletes, marks or lets go, whatever the other processes do, the lease stays and its session is not tombstoned. |
| SessionSafety.HolderOnly | src/session_store.rs:816-841 | No step of another process changes the stage of a lease holder, or the record or directory its lease is for. |
| SessionSafety.RecordWritesLocked | src/session_store.rs:909-922 | A step that changes a lifecycle record changes that one only, and the process that takes it owns the lock of that identity. |
| SessionSafety.BindingsWriteOnce | src/session_store.rs:994-1017 | An identity binding that is on file never changes; a new one is put there only under the identity lock and the lock of the path it names. |
| SessionSafety.DeletedIsGone | src/session_store.rs:694-701 | A record that says Deleted has no directory under its name, and its binding names that directory. |
| SessionSafety.TombstoneLostIffStale | src/session_store.rs:568-626 | A step takes a tombstone back if and only if it is a recovery that writes the record it had read before it held the locks, while that record had no binding. |
| SessionSafety.TombstonesStay | src/session_store.rs:437-497 | Along every run without such a stale recovery of the identity, a tombstone stays a tombstone. |
| StaleRecoveryRun.TombstoneTakenBack | src/session_store.rs:580-626 | For every identity and name there is a reachable world, and a recovery step in it, after which a session marked Deleting is Creating again. |
| SessionInvariant.WithinKeeps | src/session_store.rs:236-804 | A step that stays within what its own locks allow keeps the whole invariant, whichever process takes it: what every other process had established stays true. |
| SessionSafety.ApplyProper | src/session_store.rs:236-804 | Each of the twenty-nine steps stays within what its locks allow and establishes what its next stage claims. |
| SessionSafety.ReachableHolds | src/session_store.rs:236-804 | The invariant holds in every world that any interleaving of processes and crashes can reach. |
| SessionLife.CommitIff | src/session_store.rs:518-566 | A creation is committed if and only if the bound directory is still there and holds the state of this very session, in the content database or else in its file, and the record is neither tombstoned nor for another directory; the record is active then and nothing else has changed. |
| SessionLife.CreationActivates | src/session_store.rs:518-566 | From every reachable world with a created session, saving a first state and committing makes it active if and only if the state names this session and its binding. |
| SessionLife.CreateIff | src/session_store.rs:236-287 | An undisturbed process creates a session if and only if nothing is on file for identity or name and both locks are free; record and binding then name the new, empty directory. |
| SessionLife.ResumeIff | src/session_store.rs:289-358 | An undisturbed process resumes a registered session if and only if nothing else names its directory, both locks are free, binding and record on file are live and name the directory as it is, and it holds the state of the session; the session is then active and bound. |
| SessionLife.ResumeByPathIff | src/session_store.rs:721-780 | The same for a session resumed by its path, which needs neither record nor state. |
| SessionLife.DeletionTakenIff | src/session_store.rs:399-435 | When an undisturbed process takes a session for deletion: the record is for the directory and neither binding on file names another one. |
| SessionLife.RecoveryTakenIff | src/session_store.rs:568-626 | When it takes one for recovery: the one record of the directory that is not active; the record is written, now bound. |
| SessionLife.MarkIff | src/session_store.rs:437-497 | A session is marked for deletion if and only if its bound directory is there and its record, if any, is for it. |
| SessionDeletion.StuckForever | src/session_store.rs:694-717 | A record marked Deleting whose directory is gone, with nobody about to record that, stays so along every run. |
| SessionDeletion.RemovalCompletes | src/session_store.rs:628-717 | From the moment the record is marked, the holder alone can take the removal to the end: directory gone and record Deleted. |
| SessionDeletion.DeletableCompletes | src/session_store.rs:568-717 | From every reachable world with a marked record and its directory still there, wherever an earlier removal stopped, some continuation takes the locks again and completes the deletion. |
| SessionDeletion.DeletionCompletesIff | src/session_store.rs:628-717 | A marked deletion can still be completed if and only if its directory is there or some process has just removed it and is about to record that. |
| SessionDeletion.StateOutlivesEntries | src/session_store.rs:659-697 | While other entries are left, state that could be read is lost by exactly one step: clearing the content database of a directory without a state file. A state file outlives every other entry. |
| DeletionRuns.StuckReached | src/session_store.rs:694-717 | For every identity and name there is a reachable world in which the session stays marked for deletion for ever. |
| DeletionRuns.OnlyCopyClearedFirst | src/session_store.rs:659-697 | For every identity and name there is a reachable world, and a removal step in it, after which the only copy of the session state is lost while another entry is left. |
| SessionStore.SessionStore.BindIdentityWithLock | src/session_store.rs:782-804 | Binds exactly as the machine step does: the binding on file or the candidate, refused when they differ or the directory is no longer the one captured; nothing else changes. |
| SessionStore.SessionStore.CommitLockedSessionCreation | src/session_store.rs:518-566 | True if and only if the bound directory is there and holds the state of this very session and the record is live; Creating becomes Active with the binding of the lease, Active stays, anything else stays untouched. |
| SessionStore.SessionStore.BeginLockedSessionDeletion | src/session_store.rs:437-497 | True if and only if the bound directory is there and the record is for it; the record is then marked Deleting with the binding of the lease. |
| SessionStore.SessionStore.RemoveLockedSession | src/session_store.rs:628-717 | Whichever operations on the file system fail: refused exactly when the machine step is, with nothing changed; stopped with the session marked, only entries gone and a state file left as long as any other entry is; or the directory gone, with the record Deleted or still marked. Without a failure it ends as the machine steps end. |
| StreamParser.StreamParser.constructor | src/parser.rs:55-66 | A new parser begins inside a thought or in text, as its mode says, with nothing buffered and the marker table of the source. |
| StreamParser.StreamParser.Reset | src/parser.rs:72-75 | Back to where a new parser of its mode begins, with nothing buffered. |
| StreamParser.StreamParser.NextDecision | src/parser.rs:86-318 | The earliest marker that changes anything in this state, with the interruption rules of thoughts and tool calls, or the tail to hold back. |
| StreamParser.StreamParser.ParseChunk | src/parser.rs:77-321 | One call emits the pieces, ends in the state and keeps the tail that the recursive scan of buffer and chunk gives. |
| StreamParser.EarliestIn | src/parser.rs:91-99 | The loop over markers finds the earliest occurrence at or after a position, the first listed winning a tie. |
| StreamParser.FindPartialMarkerStart | src/parser.rs:323-336 | The two nested loops find the longest tail of the input that is the beginning of a marker, and nothing when there is none. |
| MarkerTable.MarkersWellFormed | src/parser.rs:92-95 | The three marker tables meet what the laws rely on: no competing marker begins another, ends are not openers, unfinished tool openers are held back inside a tool call and every other opener can slip through. |
| MarkerTable.CutAnywhereIffClean | src/parser.rs:77-336 | From every state, every way of cutting a stream, or any beginning of it, into chunks gives the same state, tail and shown output if and only if the stream is clean. |
| UncleanStreams.ChunkIndependentIffClean | src/parser.rs:77-336 | The same for every well-formed marker table. |
| UncleanStreams.UncleanDiffers | src/parser.rs:112-140 | For every unclean stream, chunks of a beginning of it after which the output is not that of one call. |
| CleanStreams.ScanIsLex | src/parser.rs:77-321 | On clean streams the full parser, interruptions and all, is the parser that looks for segment ends only. |
| CleanStreams.CleanRunIsOneCall | src/parser.rs:77-336 | From every state with any kept tail, feeding the chunks of a clean stream comes to one call on the whole. |
| StreamChunking.LexSplit | src/parser.rs:77-336 | The parser of segment ends gives the same result however one cut is made, for every input. |
| StreamOutput.NothingLost | src/parser.rs:77-321 | From every state and for all chunks, emitted pieces interleaved with consumed markers, followed by the kept tail, are the input. |
| StreamOutput.LittleKept | src/parser.rs:323-336 | After every chunk what is kept is the beginning of a single marker and no more. |
| StreamOutput.RunFree | src/parser.rs:77-336 | From every state and for all chunks, what one segment has shown never contains a marker that should have ended or split it, across chunk borders too. |
| StreamOutput.FreshParserFree | src/parser.rs:77-336 | The same for a new parser, whatever it is fed. |
| StreamSections.SectionsShow | src/parser.rs:77-336 | Whatever chunks it arrives in, a stream of text, thoughts and calls between their markers is shown as just these texts in just these blocks; only a tail of the last text that begins a marker is held back. |
| StreamSections.ThoughtThenSectionsShow | src/parser.rs:77-336 | The same for a stream that begins inside a thought. |
| StreamSections.FramedThoughtShows | src/client.rs:862-907 | What the request task frames as a thought is shown as a thought, and what follows as text. |
| StreamSections.SameTokens | src/parser.rs:855-927 | The tokens calls are searched by are those that open and close calls in the stream. |
| GrammarLaws.StrRoundTripsIff | src/parser.rs:342-409 | A printed string value is read back if and only if nothing would be trimmed or stripped from it and it does not read as a literal or a number. |
| GrammarLaws.IntRoundTripsIff | src/parser.rs:397-406 | A printed integer is read back if and only if it fits 64 bits. |
| GrammarLaws.FloatRoundTrips | src/parser.rs:397-403 | A printed number with a point is read back as that number. |
| GrammarLaws.BoolRoundTrips | src/parser.rs:386-391 | Both truth values are read back. |
| GrammarLaws.NullRoundTrips | src/context.rs:62-63 | The null value, which is printed as a string, is read back as null. |
| GrammarLaws.ArgsRoundTrip | src/parser.rs:411-611 | Any number of flat arguments in normal form, printed and parsed, give the map that inserting them in order gives. |
| GrammarLaws.InsertMeans | src/context.rs:54-72 | With distinct keys that map holds every key with its value. |
| GrammarLaws.SingleArgIff | src/parser.rs:567-607 | One string argument without the delimiter is read back if and only if it is bare and ASCII, and the parser runs past the end of the text if and only if it is not ASCII. |
| GrammarLaws.CallRoundTrips | src/parser.rs:829-853 | A printed call is read back with its name, its arguments and the identifier they name. |
| GrammarLaws.CallsRoundTrip | src/parser.rs:911-927 | A list of printed calls between tokens is found with the same names and arguments, in order, up to the end of the text. |
| ToolCallSearch.CallIdIs | src/parser.rs:840-853 | A call is known by its string argument tool_call_id, and as unknown without one. |
| ToolCallSearch.SearchFinds | src/parser.rs:876-909 | With text around it and any of the tokens, the first call is what stands between the first opening token and the first closing token after it. |
| ToolCallSearch.SearchWaits | src/parser.rs:876-909 | A call that is not closed is read to the end of a final text, and not before. |
| ToolCallSearch.CallsThenText | src/parser.rs:911-927 | Text after the calls is left alone: the search answers where the last call ends. |
| ToolCallSearch.MalformedIff | src/parser.rs:829-853 | A block that is no object is malformed if and only if no opening brace follows the word that begins a call. |
| ToolCallSearch.WrapsComeOff | src/parser.rs:348-384 | Each of the nine wrappings comes off text without delimiters. |
| ToolCallSearch.QuotesComeOff | src/parser.rs:348-384 | So do quotes of either kind. |
| ToolCallSearch.EmptyQuotes | src/parser.rs:342-384 | Empty quotes are an empty text. |
| ToolCallSearch.QuotedKey | src/parser.rs:425-470 | A quoted key is the text between its quotes. |
| ToolCallSearch.DelimitedEnds | src/parser.rs:560-606 | A scalar in ASCII between two of the same delimiter, any of the six, ends where the second ends. |
| ToolCallSearch.QuotedScalarEnds | src/parser.rs:560-606 | Between quotes a scalar may hold separators, and ends with its quote. |
| ToolCallSearch.KeyWithoutValue | src/parser.rs:446-455 | A key without a value is an empty text once the text is complete, and not there before. |
| ToolCallSearch.NestedIsLeft | src/parser.rs:457-559 | A value that opens an object or a list is left to other code. |
| ToolCallSearch.NothingReads | src/parser.rs:386-396 | Null, none and nil are read as null, quoted or not. |
| ToolCallSearch.LowerMeans | src/parser.rs:386-396 | They are in any case of letters. |
| ToolCallParser.StripMarkers | src/parser.rs:348-384 | The loop takes quotes and wrappings off until nothing changes, and ends. |
| ToolCallParser.ParseGemma4Value | src/parser.rs:342-409 | Trims, strips and classifies as the specification does. |
| ToolCallParser.ScanScalar | src/parser.rs:560-606 | The index walk ends where the specification of a scalar ends it, also beyond the end of the text. |
| ToolCallParser.ReadArgument | src/parser.rs:411-611 | One turn of the loop over arguments reads the next key and scalar and stops where they end. |
| ToolCallParser.ParseGemma4Args | src/parser.rs:411-611 | The loop builds the map of the specification, ends, and reports a scan beyond the end. |
| ToolCallParser.FirstTokenIn | src/parser.rs:861-874 | The loop finds the earliest of the tokens, the first listed winning a tie. |
| ToolCallParser.FindAllToolCalls | src/parser.rs:911-927 | The loop collects the calls in order and stops at the first that cannot be read. |
| ProjectionLaws.ReachableInvariant | src/headless_session.rs:727-987 | After any checkpoints, failed ones included, every unclaimed result points at the very block pushed for it, the streaming position at a text block, pending calls are distinct by identifier and name, and the cursor is within the transcript. |
| ProjectionLaws.FreshIsGood | src/headless_session.rs:60-67 | Where runs start: a new cursor over any messages and blocks, with a ledger that loading could rebuild, is in the invariant. |
| ProjectionInvariant.PushKeeps | src/headless_session.rs:969-987 | A capped push that drops blocks at the front keeps all of this, and the new block is last. |
| ProjectionInvariant.TranscriptKeeps | src/headless_session.rs:599-657 | Applying any transcript keeps it. |
| ProjectionLaws.EventsKeep | src/headless_session.rs:878-967 | Applying any execution events keeps it. |
| ProjectionLaws.RebaseIsLongest | src/headless_session.rs:702-725 | A front trim moves the cursor to the longest proper suffix of the committed messages that the new transcript begins with, and without one the cursor does not move. |
| ProjectionLaws.OtherRewriteIgnored | src/headless_session.rs:599-657 | A transcript that begins with no suffix at all of the committed messages, and does not enrich them, leaves messages, blocks and cursor unchanged. |
| ProjectionLaws.FinalReplayIgnored | src/headless_session.rs:599-657 | Replaying a final transcript is a no-op, also when it was a trim or was ignored. |
| ProjectionLaws.ToolReplayIgnored | src/headless_session.rs:555-581 | Replaying a checkpoint with execution events is a no-op. |
| ProjectionLaws.RequestReplayIgnored | src/headless_session.rs:517-553 | Replaying the checkpoint of a finalized request after any further checkpoints is a no-op. |
| ProjectionLaws.RunKeeps | src/headless_session.rs:496-581 | Over every run of checkpoints the ledger stays sound, settled entries stay and finalized requests stay finalized. |
| ProjectionLaws.TurnIsShown | src/headless_session.rs:989-997 | After a request has changed the ledger, the first user block of its turn shows the usage and cost of that turn, the cost marked incomplete when an entry lacks price or breakdown, and no other block has changed. |
| ShownBlocks.TranscriptShows | src/headless_session.rs:599-657 | A session at rest that takes over answered messages shows of them exactly this: of each assistant message its visible text and one block per call, of each result its payload under the title of its call with its success; the last two hundred blocks of everything. |
| ShownBlocks.AssistantShows | src/headless_session.rs:758-829 | A finished assistant message shows its visible text, then each call with its arguments and title, in order, which then wait for results; repeated identifiers are refused, and nothing else is. |
| ShownBlocks.ResultShows | src/headless_session.rs:831-876 | A result is shown between newlines under the title of the one waiting call with its identifier and name, marked successful unless it is an error; the call waits no longer and the result is unclaimed, last of all blocks. |
| ShownBlocks.ResultShownIff | src/headless_session.rs:831-876 | A result is taken if and only if exactly one waiting call has its identifier and name. |
| ShownBlocks.ClaimShows | src/headless_session.rs:885-964 | The event of an executed call replaces the one result projected for it by its own text and success, in its place and under its title; if that block has fallen out it is refused. |
| ShownBlocks.EventShows | src/headless_session.rs:885-964 | Without a projected result the event shows its result under the title of the waiting call, or, when none waits, the call and its result. |
| ShownBlocks.StreamedShows | src/headless_session.rs:727-756 | While a message streams one block shows the visible text of its last form, from the first form on that had any. |
| ShownBlocks.EnrichedShows | src/headless_session.rs:659-700 | Calls that arrive after their message was committed as text are shown then, and the message is kept with them. |
| ShownBlocks.EnrichedIff | src/headless_session.rs:659-700 | That happens if and only if the message is the last one committed, had no calls, and comes again with the same text behind the same messages. |
| ShownBlocks.PushFollows | src/headless_session.rs:969-987 | When blocks fall out, the streaming block is followed to its new place, or forgotten with it. |
| ShownBlocks.RebaseFollows | src/headless_session.rs:702-725 | After a front trim the cursor names the same messages by their new positions. |
| ShownBlocks.ToolCheckpointIs | src/headless_session.rs:555-597 | A checkpoint with events takes over the transcript unless its request is finalized, applies the events and leaves the given transcript committed as a whole. |
| ShownBlocks.RequestCheckpointIs | src/headless_session.rs:517-553 | The checkpoint that ends a request records it, demands a transcript that ends with the assistant, and takes that over once. |
| StreamedProjection.StreamedIsBatchIff | src/headless_session.rs:727-797 | Showing a message in any number of forms while it streams and then finishing it gives the state of one final checkpoint if and only if no form had visible text, or the final form has, or the calls of the final form are refused either way. |
| DurableSession.ShiftResults | src/headless_session.rs:978-985 | The loop drops the results whose blocks fell out and moves the others. |
| DurableSession.Candidate.PushProjectedBlock | src/headless_session.rs:969-987 | Appends under the cap and moves every position by what fell out; answers the position of the new block. |
| DurableSession.Candidate.UpsertStreamingAssistant | src/headless_session.rs:727-756 | The new state is that of the specification, and the answer says whether it changed. |
| DurableSession.Candidate.ProjectTerminalAssistant | src/headless_session.rs:758-797 | The same for the final form of an assistant message. |
| DurableSession.Candidate.ProjectToolCalls | src/headless_session.rs:799-829 | Pushes one block per call and remembers the calls, or refuses a repeated one. |
| DurableSession.Candidate.ProjectToolResult | src/headless_session.rs:831-876 | The new state is that of the specification, whose content ShownBlocks.ResultShows tells: pairs a result with its one waiting call, shows it and remembers it as unclaimed. |
| DurableSession.Candidate.EnrichFinalizedAssistant | src/headless_session.rs:659-700 | Adds the calls of a message that was committed as text. |
| DurableSession.Candidate.RebaseAfterTrim | src/headless_session.rs:702-725 | The loop finds the least number of dropped messages and moves the cursor. |
| DurableSession.Candidate.ApplyTranscriptCheckpoint | src/headless_session.rs:599-657 | The new state, and whether it changed, are those of the specification. |
| DurableSession.Candidate.ApplyExplicitToolEvents | src/headless_session.rs:878-967 | The loop over events gives the state of the specification. |
| DurableSession.Candidate.ApplyToolEvent | src/headless_session.rs:885-964 | One event claims the result projected for it, or shows what is missing. |
| DurableSession.Candidate.ApplyTranscriptAndToolCheckpoint | src/headless_session.rs:555-597 | The checkpoint of the agent loop, with updates of finalized requests left out. |
| DurableSession.Candidate.ApplyRequestCheckpoint | src/headless_session.rs:517-553 | The terminal checkpoint of a request: its accounting and the totals of its turn always, its transcript once. |
| DurableSession.Candidate.RecordRequest | src/headless_session.rs:517-531 | Ledger and blocks afterwards are those of the specification: recorded once, and shown on the turn of the user if anything changed. |
| DurableSession.Candidate.ApplyTurnToUserBlock | src/headless_session.rs:989-997 | The search finds the first user block of the turn and puts the totals there, if there are any requests. |
| DurableSession.DurableSession.CommitCheckpoint | src/headless_session.rs:496-515 | Memory equals the last state persisted, before and after, whether applying or persisting fails or not. |
| ContextTrim.TrimIsLeast | src/context.rs:875-926 | Trimming stops at a unit, where the rest fits or only system messages precede the last user message; at no earlier unit would the rest have fitted. |
| ContextTrim.TrimKeeps | src/context.rs:886-893 | The result ends with everything from the last user message on and keeps every system message, in order. |
| ContextTrim.TrimKeepsUnits | src/context.rs:897-921 | A call message and the results that follow it are dropped together or not at all. |
| ContextTrim.TrimIdempotent | src/context.rs:875-926 | Trimming a trimmed conversation changes nothing. |
| ContextManager.TrimmedMessages | src/context.rs:875-926 | The loops that mark and retain compute exactly that trim. |
| ContextManager.MarkDropped | src/context.rs:894-919 | The array marks the non-system messages before the stop and nothing else. |
| ContextManager.ContextManager.constructor | src/context.rs:313-327 | A new context is valid: empty tiers, no messages. |
| ContextManager.EstimateIsLeast | src/context.rs:13-19 | The estimate of a content is the least number of tokens of four bytes that hold it in UTF-8. |
| ContextManager.ContextManager.EvictFilesOverBudget | src/context.rs:412-445 | Cached tokens are at most 35 per cent of the budget, tiers stay disjoint with ages right, and what was removed is what eviction must remove. |
| ContextManager.ContextManager.UpdateLatestFile | src/context.rs:368-386 | The file enters the active tier with the newest revision, leaves the other, and eviction follows; messages stay. |
| ContextManager.ContextManager.RemoveLatestFile | src/context.rs:388-391 | The file leaves both tiers and nothing else does. |
| ContextManager.ContextManager.PromoteStaleActiveFiles | src/context.rs:448-460 | Exactly the active files unused for more than three turns move to the latest tier; cached tokens stay the same. |
| ContextManager.ContextManager.TrimContext | src/context.rs:875-926 | The messages are trimmed to what the cached files leave of the budget: both fit together, or only system messages precede the active request. |
| ContextManager.ContextManager.AddMessageRaw | src/context.rs:477-484 | A user message begins a turn, which demotes stale files; the messages are the trim of the old ones and the new one. |
| ContextManager.ContextManager.SetMessages | src/context.rs:486-489 | The messages are the trim of those given. |
| ContextManager.ContextManager.UpsertAssistantMessage | src/context.rs:506-581 | A checkpoint replaces the visible text it extends, repeating it changes nothing, and anything else is appended and trimmed. |
| ContextManager.ContextManager.SetCwd | src/context.rs:343-351 | A new directory is announced by a system message, an unchanged one by nothing. |
| ContextManager.ContextManager.SetInputTokenBudget | src/context.rs:333-341 | Zero is refused without effect; otherwise files are evicted and messages trimmed to the new budget at once. |
| ContextManager.ContextManager.Clear | src/context.rs:608-613 | Everything is forgotten except the budget. |
| FileCache.EvictionDetermined | src/context.rs:410-445 | Oldest first, the latest tier before the active one, nothing that could have stayed: this leaves only one possible outcome. |
| FileCache.EvictTier | src/context.rs:419-430 | The loop removes oldest files first, only while the rest does not fit. |
| FileCache.PromoteStale | src/context.rs:448-460 | The loop over stale files moves exactly them, with no change of the token sum. |
| FileCache.TiersPromote | src/context.rs:448-484 | When a turn begins, demotion keeps the tiers disjoint and a file active exactly while its age is at most three turns. |
| ToolResults.RoundTripsIff | src/context.rs:587-606 | A stored tool result is read back, payload and identifier, if and only if the name has no result prefix and the identifier is clean, for every payload. |
| ToolResults.IdRoundTripsIff | src/context.rs:833-848 | The identifier alone is read back if and only if it holds no delimiter and is not the label, whatever name and payload. |
| ToolResults.OnlyCleanIdsAreRead | src/context.rs:833-848 | No content whatever is read as having an identifier that is not clean. |
| InterruptedCalls.RepairInterruptedToolCalls | src/context.rs:211-267 | The loop computes the repair and reports each inserted result with the name, arguments and identifier of its call, in order. |
| InterruptedCalls.InsertionsAreReported | src/context.rs:244-263 | What the repaired conversation holds beyond the original is, for exactly the calls that are reported and in order, an error result under the name and identifier of the call that says it was interrupted. |
| InterruptedCalls.MissingAre | src/context.rs:240-256 | Of the calls of a message those whose identifier no result names are reported, as often as they occur. |
| InterruptedCalls.OriginalsPreserved | src/context.rs:211-263 | Without what was added the repaired conversation is the original, in order. |
| InterruptedCalls.RepairedIsAnsweredIff | src/context.rs:211-263 | After the repair every call is answered if and only if every call has a clean identifier. |
| InterruptedCalls.SecondRepairIff | src/context.rs:211-263 | A second repair inserts nothing if and only if every call has a clean identifier. |
| InterruptedCalls.AnsweredMeans | src/context.rs:230-242 | In an answered conversation the result of a call stands in the run of tool messages right after it. |
| UniqueIds.WithUniqueIds | src/tool_call_mode.rs:49-61 | The loop computes the specified renaming: identifiers come out distinct, nothing else changes, and each is the own one if free or else the one with the least free suffix. |
| UniqueIds.RenamedMeans | src/tool_call_mode.rs:49-61 | In the renamed batch every identifier is used once, nothing but identifiers changes, and a call keeps its own if and only if no call before it has come to use it. |
| UniqueIds.UnchangedIffDistinct | src/tool_call_mode.rs:49-61 | A batch stays as it is if and only if its identifiers are distinct already. |
| UniqueIds.FreeSuffix | src/tool_call_mode.rs:54-57 | The suffix search ends, at the first suffix that is free. |
| UniqueIds.AssignedOnce | src/tool_call_mode.rs:49-61 | The identifier a call gets is determined by its own, its position and those given before. |
| AgentLoop.EveryRequestAnswered | src/headless.rs:655-942 | Every request of a run that starts from an answered transcript with a user message is made from an answered transcript, the results of each batch in call order right after it, whatever provider and tools do and however much is trimmed. |
| AnsweredCalls.EachAnsweredOnceIff | src/headless.rs:145-401 | In an answered transcript every call of a message has exactly one result with its identifier in the run of results after it if and only if the identifiers of that message are distinct, hold no delimiter and are not the label itself. |
| AnsweredCalls.EveryCallAnsweredOnceIff | src/headless.rs:655-942 | The same for every message with calls in every request of a run. |
| AnsweredCalls.EveryCallAnsweredOnce | src/headless.rs:655-942 | When the provider gives the calls of each of its batches distinct clean identifiers, every call of every request has exactly one result with its identifier; calls found in text are kept apart by the renaming. |
| AnsweredCalls.RenamedIsClear | src/tool_call_mode.rs:49-61 | Renaming clean identifiers makes them distinct and leaves them clean. |
| AgentLoop.ExecuteAnswers | src/headless.rs:145-401 | A batch, refused, rejected or run, leaves the transcript answered: one result per call, in call order, made with its identifier. |
| AgentLoop.RetriesRepeat | src/headless.rs:942-1020 | Without a finished reply the transcript stays as it is, every further request repeats it, and there are at most as many as retries are left. |
| AgentTurns.BatchIs | src/headless.rs:145-401 | After a batch the active request ends with the call message and then, in the place of each call, its own result: what running it gave, why policy refused it, or that the batch was rejected; the directory is that of the last call that was run, and a change of it is announced last. |
| AgentTurns.TurnIs | src/headless.rs:702-942 | A finished reply, from its first chunk: all its text with its calls and their results joins the active request and the next request is made; calls that cannot be read are sent back as a correction; otherwise the text is the answer and the run ends. |
| AgentTurns.UnfinishedTurnIs | src/headless.rs:702-942 | A reply that does not finish leaves the transcript alone: it is asked for again only after a failure that may be retried while no call waits and retries are left, and otherwise ends the run with its reason. |
| AgentTurns.StartIs | src/headless.rs:655-701 | The first request ends with the prompt, or with the request that is resumed and where it now runs. |
| AgentTurns.RequestsFit | src/headless.rs:655-942 | Every request of every run is within the budget, or has nothing left before the active request but system messages. |
| Transcripts.TrimKeepsAnswered | src/context.rs:875-926 | Trimming keeps an answered transcript answered, keeps what a transcript with a user message waits for, and keeps that there is one. |
| Transcripts.TrimKeepsAwaitingIff | src/context.rs:875-926 | Trimming keeps what a transcript waits for, whatever the estimate and the budget, if and only if it waits for nothing or has a user message. |
| Transcripts.WithoutUserResultIsOrphaned | src/context.rs:886-893 | From every transcript that waits without a user message: under some estimate and budget the awaited call is dropped and its result, when it comes, is left alone. |
| HeadlessAgent.HeadlessAgent.ExecuteToolCalls | src/headless.rs:145-401 | The loops over a batch leave the transcript and directory of the specification, whose content AgentTurns.BatchIs tells call by call. |
| HeadlessAgent.FindLegacyTextToolCall | src/headless.rs:61-76 | Calls in the text of a reply: none with native tools, a batch with identifiers renamed apart where batches are allowed, one call otherwise. |
| HeadlessAgent.HeadlessAgent.FinishTurn | src/headless.rs:797-926 | A finished reply runs structured calls, or calls in the text, or asks for a correction, or ends the run. |
| HeadlessAgent.HeadlessAgent.Handle | src/headless.rs:702-942 | Each event changes the state of the run as the specification does. |
| HeadlessAgent.HeadlessAgent.RunAgent | src/headless.rs:702-942 | The loop over events ends in the state of the specified run. |
| RequestTask.RequestSettlesOnce | src/client.rs:678-1074 | Over every run exactly one of finished and settlement-failed is sent if the request task ends, none before; calls, end, error and cancellation follow only a saved checkpoint; the checkpointed text is that of all chunks sent. |
| RequestTask.CallsAnnounced | src/client.rs:931-1036 | All calls the provider made are announced together, in order, right before the end, and are those of the checkpointed message. |
| RequestTask.ThoughtClosedIff | src/client.rs:862-907 | In a finished request the thought is closed as often as opened if and only if it is not the case that text came first and reasoning later. |
| RequestHistory.SaidIsHeard | src/client.rs:856-912 | Over every run, what is sent apart from the framing is exactly what the provider said before the first terminal poll: the same texts, in order, reasoning as reasoning and text as text. |
| RequestHistory.RunningRequest | src/client.rs:856-975 | Everything sent by a running request, from history alone: what was said, calls being prepared and usage as they come, the opening tag before the first reasoning, a blank line where the numbered segment changes, and the closing tag as soon as text or calls follow reasoning. |
| RequestHistory.EndedRequest | src/client.rs:931-1074 | Everything sent by an ended request: its checkpoint carries the reported usage, all text, all calls under their identifiers and the last payload, and what follows is what its terminal poll leads to; later polls change nothing. |
| RequestHistory.UnstartedRequest | src/client.rs:690-770 | A request that does not start is settled without usage, text or calls, and tells why. |
| RequestTask.RequestTask.Open | src/client.rs:690-770 | How the stream was opened decides whether anything is polled, or the request is settled at once. |
| RequestTask.RequestTask.FinishRequest | src/client.rs:375-389 | A checkpoint, then either the finished request and what follows it or a failed settlement. |
| RequestTask.RequestTask.ReceiveReasoning | src/client.rs:857-889 | Opens the thought once, separates segments by a blank line, and sends the text. |
| RequestTask.RequestTask.ReceiveDone | src/client.rs:976-1046 | Closes the thought, settles with the assembled message, then announces calls and the end. |
| RequestTask.RequestTask.Receive | src/client.rs:856-1072 | Each provider event changes the task as the specification does; RequestHistory tells what that sends over every run. |
| RequestTask.RequestTask.Drive | src/client.rs:472-483 | The loop over what is polled ends in the state of the specified run and stops at the first terminal event. |
| Amounts.UsageAssociates | src/accounting.rs:320-341 | Saturating addition of usage is associative, total and reported cost included. |
| Amounts.UsageCommutes | src/accounting.rs:320-341 | It is commutative. |
| Amounts.CostAssociates | src/accounting.rs:371-402 | In one currency, addition of costs is associative, the mixed-pricing mark and the pricing dates included. |
| Amounts.CostCommutes | src/accounting.rs:371-402 | It is commutative, refusals included. |
| AccountingTotals.CountsAddUp | src/accounting.rs:488-519 | Over any entries in any currencies, the request count is the priced ones plus the unpriced, the total is the sum of those in the first currency, and each is capped at 64 bits. |
| AccountingFigures.FiguresAddUp | src/accounting.rs:320-341 | Over any entries each token count of the totals is the plain sum of that count, capped once; so are total input and reported cost and the numbers of long and of incomplete requests; the breakdown is complete if and only if that of every entry is. |
| AccountingFigures.PriceDescribes | src/accounting.rs:371-402 | The price of the totals carries every mark that some price in its currency has, the least dates, the common provenance or mixed, and is marked mixed if and only if some price is or two are made up differently. |
| Amounts.AtMostIs | src/accounting.rs:385-394 | Dates are compared as texts, by the first character in which they differ. |
| AccountingTotals.OrderDoesNotMatter | src/accounting.rs:488-519 | In one currency, from any totals in it, any reordering of the entries gives the same totals. |
| AccountingTotals.OrderIndependentIffOneCurrency | src/accounting.rs:488-519 | The totals are the same for every order of the entries if and only if all priced entries share a currency. |
| Trimming.BlankIffTrimmedAway | src/accounting.rs:539-544 | An identifier is blank, and refused, if and only if trimming leaves nothing of it. |
| AccountingLedger.RecordSound | src/accounting.rs:538-628 | Recording keeps identifiers unique and session totals equal to the fold over the entries; a refusal or a replay changes nothing; otherwise one entry is appended or one in flight is settled in place. |
| AccountingFigures.RecordDecides | src/accounting.rs:538-628 | Exactly when a request is refused, told to be there already, settled in place or added, and what the entries and the latest turn are then. |
| AccountingFigures.TurnEntries | src/accounting.rs:630-641 | The entries of a turn are all of that turn, as often as they are there, and no others. |
| AccountingLedger.EntriesStay | src/accounting.rs:538-628 | No entry is lost or moved, and a settled one never changes. |
| AccountingLedger.ReachableSound | src/accounting.rs:535-665 | The same after any sequence of recordings. |
| AccountingLedger.ReplayIsNoOp | src/accounting.rs:550-558 | A request that was recorded is recognised when it comes again. |
| AccountingLedger.LatestTurnIffNoReentry | src/accounting.rs:575-583 | The cached totals of the latest turn stay right if and only if the request is not a new entry that goes back to an old turn. |
| AccountingLedger.LatestTurnOverRuns | src/accounting.rs:538-628 | Over every run in which that never happens, they equal the totals of that turn at the end. |
| AccountingLedger.PreservingKeepsLatest | src/accounting.rs:585-628 | Recording that preserves the latest turn keeps its totals right, whatever the request. |
| AccountingLedger.RebuildSucceeds | src/accounting.rs:643-665 | Rebuilding succeeds on distinct acceptable entries whose latest turn has one, keeps them and brings every total up to date. |
| AccountingLedger.RebuildSound | src/accounting.rs:643-665 | On arbitrary persisted entries the mutual recursion ends; success is a sound ledger, and failure changes nothing. |
| AccountingLedger.SessionIsSumOverTurns | src/accounting.rs:630-641 | Session usage is the saturating sum over the turns. |
| SessionAccounting.SessionAccounting.RecordRequest | src/accounting.rs:538-628 | The fields afterwards, and the answer, are those of the specified ledger; AccountingFigures tells which entry that is and what every field of the totals adds up to. |
| SessionAccounting.SessionAccounting.RebuildTotals | src/accounting.rs:643-665 | The same for rebuilding, which calls recording again. |
| SessionAccounting.SessionAccounting.TotalsForLogicalTurn | src/accounting.rs:630-641 | The loop gives the fold over the entries of the turn. |
| Pricing.EstimateCost | src/accounting.rs:158-245 | Validation comes first; then the loop over components computes the specified estimate, with each overflow that ends it. |
| Pricing.Validate | src/accounting.rs:65-141 | A price list is accepted if and only if models are named, not blank and distinct, the currency is in capitals, the unit is positive, the dates read and do not cross, provenance has a kind and a web address, and rates and multipliers fit. |
| Pricing.EstimateIsNear | src/accounting.rs:158-245 | The estimate is within two billionths of the exact cost, each count at its own rate, input and output at the multipliers of the tier that applies; the other fields of the estimate are those of the price list. |
| Pricing.EstimateGivenIff | src/accounting.rs:158-245 | A valid price list gives an estimate if and only if the model is one of its own, every product fits 128 bits and the sum 64; it gives none for other models. |
| Pricing.EstimateMonotone | src/accounting.rs:158-245 | Within one tier it does not fall when token counts rise. |
| Utf8Stream.ValidIffEncoded | src/background.rs:515-520 | Byte streams that decode as a whole are exactly the encodings of texts. |
| Utf8Stream.DecodeEncoded | src/background.rs:515-520 | An encoded text decodes to itself with nothing left. |
| Utf8Stream.DecodeMore | src/background.rs:513-523 | Decoding what has arrived and then the rest comes to decoding all of it, unless it had failed. |
| Utf8Stream.FirstMeans | src/background.rs:513-523 | Decoding waits for more input if and only if there is an unfinished character, and what is ill-formed is the longest beginning of a character, or else a single byte. |
| Utf8Stream.ReadIndependentIffPlain | src/background.rs:489-527 | The text that reads hand on is the same for every division of a stream if and only if every unit after its first ill-formed one is a single byte. |
| BackgroundOutput.PlainStreamOutput | src/background.rs:489-560 | For every such stream, however reads divide it, lines, partial line and count are those of its lossy decoding. |
| BackgroundOutput.ValidStreamOutput | src/background.rs:489-560 | For every valid stream, however reads divide it, lines, partial line and count are those of its text. |
| BackgroundOutput.OutputTidy | src/background.rs:529-560 | For every stream, valid or not, lines stay within 2000 characters and no two adjacent lines are blank. |
| BackgroundLines.LinesAre | src/background.rs:529-560 | Lines and partial line of any text: the pieces between line feeds, each from its last carriage return on and up to 2000 characters, of several blank lines the first. |
| BackgroundLines.OutputLinesAre | src/background.rs:489-560 | The same for what is read, however reads divide it, if only single bytes follow the first ill-formed unit. |
| BackgroundOutput.BackgroundTask.FlushPartial | src/background.rs:549-560 | The line joins the history unless it and the one before are blank; the tail is the last 400 lines of it and the count its length. |
| BackgroundOutput.BackgroundTask.AbsorbText | src/background.rs:529-547 | The loop over characters gives the specified history, with the tail and the count still those of it. |
| BackgroundOutput.BackgroundTask.PumpReads | src/background.rs:489-527 | The loop over reads, with its buffer of pending bytes, gives the specified output. |

## Left out

- Files, flock, fsync, processes: locks are owner maps, a durable write is one atomic update, a crash releases the locks of a process at any point.
- One project root: a path is a directory name under it, and a directory binding is that name with an inode, kept per identity.
- Directory names at creation are fresh, and the check for an existing directory and the first save of the record are one step.
- Python runtimes and workspaces named in a deletion record, and `classify_session_path`. Setting the permissions of a directory that is removed counts as part of clearing its scope.
- Migration of a state file into the content database when state is read.
- SessionDeletion.StateOutlivesEntries: says of state in the content database only which step clears it, since the source clears it first.
- StreamParser: a parser keeps the mode it was made with; `set_mode` alone is not modelled.
- GrammarLaws.ArgsRoundTrip: strings that hold the quote delimiter or a character outside ASCII are outside the normal form; with several such arguments only the single-argument case is decided.
- GrammarLaws.FloatRoundTrips: a number with a point is its text, and which texts are finite numbers is a parameter.
- Objects and arrays as values, and calls written as a JSON object: a call that meets one is reported as outside the model.
- ProjectionLaws.ReachableInvariant: the position of a result since the start of the session is recorded in the state for the statement only.
- Rendering of blocks and titles: what is visible of a text and the title of a call are parameters. The prompt and completion counts on the block of a user, which follow from its usage, are left out.
- Pushes by other code into the block list, and the parts of a session outside messages, blocks, cursor and ledger.
- ContextManager.ContextManager.UpdateLatestFile: files are ordered by revision, a counter without bound, and not by wall-clock instants, which may tie.
- Token sums without bound instead of machine words; the estimate of a message is a parameter, so what trimming does holds for every estimate.
- System prompt, todo and background summaries, prompt assembly and the context modes.
- HeadlessAgent.HeadlessAgent.RunAgent: what the provider sends and how tools turn out is arbitrary and comes with the events; hooks, notebook audit, printing and progress are left out, and a failure of a hook is a stop.
- AgentLoop.RetriesRepeat: whether an error may be retried, which the source decides from its text and from cancellation, is part of the event.
- RequestTask.RequestSettlesOnce: sending is taken to succeed as long as the task runs, and token counts that older providers report in place of usage are part of the reported usage.
- Provider content is an opaque string.
- Pricing.Validate: how a date or an address is read is a parameter, a rate that scaling refuses is a number beyond 128 bits, and which fault is reported first is left out.
- Pricing.EstimateIsNear: rates and multipliers are the scaled integers the source computes with; scaling itself, in floating point, is left out.
- Pricing.EstimateMonotone: compares usages within one tier; between tiers the estimate may fall, as the multipliers are free.
- BackgroundOutput.ValidStreamOutput: one stream per task; standard output and error interleave by read in the source. The log file and progress detection are left out.
- Streams, sessions and ledgers apart from these: user interface, commands, configuration, tools, browser and release scripts.
