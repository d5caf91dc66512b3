# Verification of the persistence and protocol cores

This project models the parts of the workspace whose guarantees hold over whole runs, crashes, interleavings
and chunkings, and proves those guarantees. `dafny verify dfyconfig.toml` checks everything.

**Durable runs.** `RunRecords` has snapshots, events and what both stores do before a write. `RunStoreSpec` is
one abstract store whose steps take clock readings and fresh tokens as arguments, `RunHistory` proves fencing
and the revision rules over every sequence of calls of any store that conforms to it. `FilesystemStore` (a record
per file) and `PostgresStore` (row columns and an event table) are classes, each proved to perform those steps;
`StoreEquivalence` shows that both conform to the abstract store for all clock readings, restates the theorems
for both, and says where their answers differ: ID syntax, the BIGINT range, the name of the error for a missing
run, the order of two checks in `create`, and the second clock reading of a renewal on disk. A sweep on disk is
one step per tenant.

**Project state.** `EventLog` is the JSONL log byte by byte: torn appends, recovery, corruption. `ProjectState`
is the replayed state and its in-place engine; `MemoryHistory` purge and retention; `ProjectStore` the single
writes of each operation, openings included, and every disk a crash can leave. `ReadyTasks` and `Timestamps`
compare the codec's small replay with the engine.

**Streams.** `SseReader` and `StderrTail` equal functions of the whole byte stream. `StreamJournal`,
`StreamBlocks` and `StreamParts` say what a Chat, Anthropic or Responses stream means, as a list of fragments
tagged with the part of the response they belong to; `StreamNames`, `StreamCalls` and `ToolInputs` which call an
argument delta is announced for, and what the deltas of one call are together. `StreamState` keeps its JSON
fields equal to that, and `HttpStream` yields the deltas and one completion.

**Sessions.** `ServerSessions` interleaves the lock steps of all requests on the MCP server's session table and
assembles batches. `McpClient` is the poisoned request, initialization and paging, where every await may be
dropped. `AuthSession` is the refresh loop against a store that others rotate.

**Codecs.** `ApprovalHistory` merges and splits approval markers.

`Wrappers`, `Text`, `Ordering`, `OrderedMaps` and `Json` hold shared notions.

**Laws.** The modules named `...Laws` say what each operation does in literal terms, apart from the functions the
other proofs go through: which input is accepted, what is stored or announced for it and what stays.
`RunStoreLaws` for either run store, `ProjectLaws`, `DiskLaws` and `LogLaws` for the events, the operations and the
bytes of project state, `ReadyLaws` for ready tasks and the calendar, `SseLaws`, `StderrLaws`, `StreamLaws` and
`ResponseLaws` for the streams, `ServerLaws`, `McpLaws`, `AuthLaws` and `ApprovalLaws` for the rest.

Three statements that one would expect turn out to need a condition, which is proved exact:

- Retention with `purge_history` reports the memories it removes. A doomed memory whose event carries no ID is
  reported but alive after the next replay (`MemoryHistory.PurgeErasesExactly`,
  `MemoryHistory.UnnamedSurvivesPurge`). `purge_memories` drops empty IDs and always erases exactly
  (`MemoryHistory.PurgeMemoriesErasesExactly`).
- In the end every argument delta of a Chat stream was announced under the ID its call ends up with exactly when
  no fragment splits a call (`StreamCalls.ChatEndsNamed`). Only a reset of an ID to the empty string can: after
  one, two calls may merge (`StreamNames.ResetMergesCalls`), or the stream may recover
  (`StreamCalls.RecoveredReset`). At every point of the stream it holds exactly when no chunk resets the ID of an
  entry with arguments (`StreamNames.ChatNames`).
- A batch of one message is refused when its answer would fill the bound exactly (`ServerSessions.Batch`,
  `ServerSessions.RefuseExactFit`).

## Model

| member | source | states |
|---|---|---|
| RunRecords.PrepareAppendShape | crates/adk-durable/src/store.rs:86-131 | A prepared append has exactly the expected revision plus one; its events carry consecutive numbers from the old end on and the run's own key, and whatever the redactor returns it changes payloads only. |
| RunRecords.RunRedactSnapshot | crates/adk-durable/src/store.rs:144-170 | The in-place redaction loop over the payload slots computes the redacted snapshot, or the first slot's error. |
| RunRecords.RunPrepareAppend | crates/adk-durable/src/store.rs:86-131 | The stamping loop over the events computes the prepared append, with the same first error. |
| RunStoreSpec.StepKeepsWellFormed | crates/adk-durable/src/filesystem.rs:121-273 | Every operation keeps every stored run's events consecutively numbered, ending at its event sequence, under its own key. |
| RunStoreSpec.AppendKeepsWellFormed | crates/adk-durable/src/filesystem.rs:147-172 | An accepted append keeps the record well formed. |
| RunStoreSpec.RetainOneMore | crates/adk-durable/src/filesystem.rs:233-273 | Sweeping the tenants one after another deletes exactly the runs expired at the given time, each once. |
| RunHistory.AfterWellFormed | crates/adk-durable/src/filesystem.rs:81-93 | In every store whose steps conform to the abstract ones: after any calls, with any clock readings, every stored run is well formed. |
| RunHistory.StoredLeaseIsLastLease | crates/adk-durable/src/filesystem.rs:173-215 | The lease stored for a run is the one last handed out to a caller and not released since. |
| RunHistory.StoredTokenIsLatestGrant | crates/adk-durable/src/filesystem.rs:173-215 | A stored lease carries the token of a grant on this run after which there was no other. |
| RunHistory.StaleTokenRefused | crates/adk-durable/src/filesystem.rs:275-284 | An operation presenting another token than the stored one fails and changes nothing. |
| RunHistory.Fencing | crates/adk-durable/src/filesystem.rs:147-215 | For every conforming store and every run of calls: once a newer token was granted on a run, nothing presenting an earlier one succeeds or changes anything, through renewals, releases, deletions and re-creations. |
| RunHistory.GrantOnlyAfterExpiry | crates/adk-durable/src/filesystem.rs:173-199 | A grant happens only after the last lease handed out was released, went with its run, or expired at the reading the grant used; it stores the drawn token and the new expiry. |
| RunHistory.OnlyTheHolderWrites | crates/adk-durable/src/filesystem.rs:147-215 | An append, renewal or release succeeds only with the token last handed out, and the first two only before its expiry. |
| RunHistory.RevisionCountsAppends | crates/adk-durable/src/filesystem.rs:147-172 | While a run lives its revision counts its successful appends, and earlier events are never changed. |
| RunHistory.OneAppendPerRevision | crates/adk-durable/src/filesystem.rs:147-172 | Two appends expecting the same revision of a living run never both succeed. |
| FilesystemStores.WellFormedIsReadable | crates/adk-durable/src/filesystem.rs:70-100 | Every well-formed record passes the store's own read validation. |
| FilesystemStores.FilesystemStore.Read | crates/adk-durable/src/filesystem.rs:70-100 | Returns the record exactly when the file's key, contiguous event numbers and end agree; anything else is an error. |
| FilesystemStores.FilesystemStore.Write | crates/adk-durable/src/filesystem.rs:101-119 | Replaces one run's file whole and no other. |
| FilesystemStores.FilesystemStore.Create | crates/adk-durable/src/filesystem.rs:121-141 | Stores the prepared snapshot of a run that does not exist; otherwise an error and no change. |
| FilesystemStores.FilesystemStore.Load | crates/adk-durable/src/filesystem.rs:142-146 | Returns snapshot and events without changing anything. |
| FilesystemStores.FilesystemStore.Append | crates/adk-durable/src/filesystem.rs:147-172 | The abstract append: lease and expiry, revision, preparation and one write. |
| FilesystemStores.FilesystemStore.AcquireLease | crates/adk-durable/src/filesystem.rs:173-199 | The abstract grant: refused while an unexpired lease is stored, else the fresh token. |
| FilesystemStores.FilesystemStore.RenewLease | crates/adk-durable/src/filesystem.rs:200-209 | The abstract renewal, with its two clock readings. |
| FilesystemStores.FilesystemStore.ReleaseLease | crates/adk-durable/src/filesystem.rs:210-215 | The abstract release: the stored token only, expired or not. |
| FilesystemStores.FilesystemStore.DeleteRun | crates/adk-durable/src/filesystem.rs:216-222 | Removes the run; a missing one is not an error. |
| FilesystemStores.FilesystemStore.DeleteTenant | crates/adk-durable/src/filesystem.rs:223-232 | Removes all runs of the tenant and no other. |
| FilesystemStores.FilesystemStore.RetainTenant | crates/adk-durable/src/filesystem.rs:233-273 | One tenant under its lock: removes and counts exactly its expired runs. |
| FilesystemStores.FilesystemStore.ApplyRetention | crates/adk-durable/src/filesystem.rs:233-273 | With no other caller in between, removes and counts exactly the expired runs of all tenants. |
| FilesystemStores.FilesystemStore.Perform | crates/adk-durable/src/filesystem.rs:120-274 | Each operation takes the file store from one abstract state to the next with the abstract answer, up to the ID syntax. |
| PostgresStores.SelectAfterInsert | crates/adk-durable/src/pg.rs:107-146 | Selecting a run's event rows after the inserts of an append gives the old events followed by the new ones. |
| PostgresStores.PostgresStore.ReadRow | crates/adk-durable/src/pg.rs:40-64 | Returns the row's snapshot exactly when it agrees with the key and the numeric columns. |
| PostgresStores.PostgresStore.SelectEvents | crates/adk-durable/src/pg.rs:88-106 | The select loop returns the contiguous events up to the last number, or an error at the first row that does not fit. |
| PostgresStores.PostgresStore.CheckLease | crates/adk-durable/src/pg.rs:68-77 | Held exactly when the token column matches and, where timed, the deadline is ahead. |
| PostgresStores.PostgresStore.InsertEvents | crates/adk-durable/src/pg.rs:130-141 | Inserts every event under its number, or nothing when a number does not fit BIGINT. |
| PostgresStores.PostgresStore.Create | crates/adk-durable/src/pg.rs:79-87 | The abstract creation on row and columns, preparing before looking for the row. |
| PostgresStores.PostgresStore.Load | crates/adk-durable/src/pg.rs:88-106 | Returns snapshot and events without changing anything. |
| PostgresStores.PostgresStore.Append | crates/adk-durable/src/pg.rs:107-146 | The abstract append as one transaction over the row and the event table. |
| PostgresStores.PostgresStore.AcquireLease | crates/adk-durable/src/pg.rs:147-179 | The abstract grant on the lease columns. |
| PostgresStores.PostgresStore.RenewLease | crates/adk-durable/src/pg.rs:180-209 | The abstract renewal, one database clock reading for check and new deadline. |
| PostgresStores.PostgresStore.ReleaseLease | crates/adk-durable/src/pg.rs:210-225 | The abstract release; a missing run is a lost lease. |
| PostgresStores.PostgresStore.DeleteRun | crates/adk-durable/src/pg.rs:226-235 | Removes the run's row and event rows. |
| PostgresStores.PostgresStore.DeleteTenant | crates/adk-durable/src/pg.rs:236-242 | Removes the rows of the tenant and no other. |
| PostgresStores.PostgresStore.ApplyRetention | crates/adk-durable/src/pg.rs:243-249 | Removes and counts exactly the expired runs. |
| PostgresStores.PostgresStore.Perform | crates/adk-durable/src/pg.rs:78-249 | Each operation takes row columns and event table from one abstract state to the next, with the answers of this store. |
| StoreEquivalence.StepsAgree | crates/adk-durable/src/pg.rs:78-249 | For one call both stores reach the same state and give the same answer, up to a missing run being a lost lease here and one case in which both fail with different errors. |
| StoreEquivalence.WideAppendRefused | crates/adk-durable/src/pg.rs:55-57 | Outside BIGINT, PostgreSQL refuses and leaves unchanged what the filesystem accepts. |
| StoreEquivalence.FilesystemConforms | crates/adk-durable/src/filesystem.rs:120-274 | For any clock readings, each call of the file store is an abstract step, or a refusal of an unsafe ID that changes nothing. |
| StoreEquivalence.PostgresConforms | crates/adk-durable/src/pg.rs:78-249 | Each call of the PostgreSQL store is an abstract step, a renewal with one clock reading, or a refusal that changes nothing. |
| StoreEquivalence.StoreFencing | crates/adk-durable/src/filesystem.rs:147-215 | Fencing of either store, over every run of calls, all clock readings, all IDs and numbers. |
| StoreEquivalence.StoreGrantOnlyAfterExpiry | crates/adk-durable/src/filesystem.rs:173-199 | Either store grants only after the lease last handed out was released, went with its run, or expired. |
| StoreEquivalence.StoreOnlyTheHolderWrites | crates/adk-durable/src/pg.rs:68-77 | In either store only the token last handed out appends, renews or releases. |
| StoreEquivalence.StoreOneAppendPerRevision | crates/adk-durable/src/pg.rs:107-146 | In either store two appends expecting the same revision of a living run never both succeed. |
| StoreEquivalence.StoreRevisionCountsAppends | crates/adk-durable/src/pg.rs:107-146 | In either store the revision of a living run counts its successful appends and old events stay. |
| StoreEquivalence.FilesystemIsAbstract | crates/adk-durable/src/filesystem.rs:120-274 | With safe IDs the file store is in the abstract store's state after every run, whatever the clock readings. |
| StoreEquivalence.FilesystemAnswers | crates/adk-durable/src/filesystem.rs:120-274 | And it gives the abstract answers. |
| StoreEquivalence.TenantSweep | crates/adk-durable/src/filesystem.rs:233-273 | Each tenant's step of a sweep, with any other calls before and after it, deletes and counts exactly that tenant's expired runs. |
| StoreEquivalence.UninterruptedSweep | crates/adk-durable/src/filesystem.rs:233-273 | The tenants' steps one after another are the whole sweep. |
| StoreEquivalence.StoresAgree | crates/adk-durable/src/filesystem.rs:120-274 | Every run of comparable calls leaves both stores in the abstract store's state. |
| StoreEquivalence.AnswersAgree | crates/adk-durable/src/pg.rs:78-249 | In every such run both stores answer every call alike. |
| RunStoreLaws.CreateLaw | crates/adk-durable/src/store.rs:75-93 | Either store creates exactly the snapshots with tenant, run and schema version 0 or 2 of runs that do not exist, and stores what the caller gave, unset times filled in and slots as redacted. |
| RunStoreLaws.AppendLaw | crates/adk-durable/src/store.rs:94-131 | An append succeeds exactly for the stored token before its end, at the stored revision, with a snapshot and events of the run. Then each event is stored as given, with unset ID, time and key filled in and its payload as redacted; so is the snapshot; and a load returns the old events followed by these. |
| RunStoreLaws.AppendRefusals | crates/adk-durable/src/filesystem.rs:154-166 | A missing run, a lease not held and another revision are refused in this order. |
| RunStoreLaws.AcquireLaw | crates/adk-durable/src/filesystem.rs:173-199 | A lease is granted exactly to a named owner, for a time to live that fits, where none is in force; it has the drawn token and ends the time to live after the second reading. |
| RunStoreLaws.RenewLaw | crates/adk-durable/src/filesystem.rs:200-209 | A lease is renewed exactly while it is stored and in force. |
| RunStoreLaws.ReleaseLaw | crates/adk-durable/src/filesystem.rs:210-215 | A stored lease is released by its token, in force or not. |
| RunStoreLaws.LoadLaw | crates/adk-durable/src/filesystem.rs:142-146 | A load returns what is stored under the key. |
| RunStoreLaws.DeleteRunLaw | crates/adk-durable/src/filesystem.rs:216-222 | Deleting a run removes that run alone; a missing one is reported. |
| RunStoreLaws.DeleteTenantLaw | crates/adk-durable/src/filesystem.rs:223-232 | Deleting a tenant removes exactly its runs. |
| RunStoreLaws.RetainLaw | crates/adk-durable/src/filesystem.rs:233-273 | A sweep removes and counts exactly the runs whose time to be retained ends at the given time or before. |
| RunStoreLaws.SafeIdLaw | crates/adk-durable/src/filesystem.rs:285-295 | The IDs the file store takes: 1 to 255 ASCII letters, digits, hyphens and underscores. |
| EventLogs.RecoveryRepairs | crates/adk-project-state/src/storage.rs:397-439 | Whatever the bytes were, a successful read leaves a clean file that holds exactly the returned events, so reading again returns the same and changes nothing. |
| EventLogs.RecoverySurvivesCrash | crates/adk-project-state/src/storage.rs:427-437 | A crash between the repair's own two writes leaves a file with the same repair. |
| EventLogs.AppendIsCrashAtomic | crates/adk-project-state/src/storage.rs:397-448 | A crash after any byte prefix of an append is read back as the old events or the old events and the new one, with a clean file after. |
| EventLogs.CorruptExactly | crates/adk-project-state/src/storage.rs:408-426 | A log is refused exactly when a line that does not parse has a later nonblank line. |
| EventLogs.LogSurvivesCrashes | crates/adk-project-state/src/storage.rs:397-448 | Through any sequence of appends, torn appends and readings, the next reading returns exactly the events that survived. |
| EventLogs.ReadAfterClean | crates/adk-project-state/src/storage.rs:404-426 | Bytes appended to a clean file are read as if they started there. |
| EventLogs.CodecExists | crates/adk-project-state/src/storage.rs:440-448 | The assumptions on the record encoding can be met, for numbers. |
| EventLogs.CodecCarriesOver | crates/adk-project-state/src/storage.rs:440-448 | And for any records that numbers can stand for. |
| EventLogs.EventLog.Events | crates/adk-project-state/src/storage.rs:397-439 | The loop with its running offsets, the truncation and the completed newline perform exactly the recovery; a corrupt log is left untouched. |
| EventLogs.EventLog.Append | crates/adk-project-state/src/storage.rs:440-448 | Adds exactly one terminated record to the file. |
| EventLogs.EventLog.Replace | crates/adk-project-state/src/storage.rs:449-456 | Replaces the file by the encoding of the given events. |
| LogLaws.EncodeLaw | crates/adk-project-state/src/storage.rs:449-456 | A log file is each encoded event and the byte 10. |
| LogLaws.LastLineLaw | crates/adk-project-state/src/storage.rs:404-439 | A last line without its newline: whole, it is an event and gets the newline; blank, it stays; torn, it is cut off. |
| LogLaws.SpaceLaw | crates/adk-project-state/src/storage.rs:410-415 | The bytes a blank line may have. |
| ProjectStates.ReplayBlocksInverse | crates/adk-project-state/src/engine.rs:43-152 | In every replayed state `blocks` is free of duplicates and exactly the inverse of `depends_on` over existing tasks. |
| ProjectStates.IncrementalIsReplay | crates/adk-project-state/src/engine.rs:297-320 | The incremental update of a mutation succeeds exactly when replaying the extended log does, and gives the same project, tasks, memories and sessions, before the snapshot stamps the project's update time. |
| ProjectStates.RelinkedInverse | crates/adk-project-state/src/engine.rs:136-152 | Recomputing the links makes them that inverse, whatever they were before. |
| ProjectStates.ApplyIgnoresBlocks | crates/adk-project-state/src/engine.rs:52-130 | What an event does never depends on the links. |
| ProjectStates.ApplyKeyed | crates/adk-project-state/src/engine.rs:52-130 | Tasks, memories and sessions stay stored under their own IDs. |
| ProjectEngine.ProjectState.Apply | crates/adk-project-state/src/engine.rs:52-130 | The in-place update applies one event, with the same error. |
| ProjectEngine.ProjectState.Change | crates/adk-project-state/src/engine.rs:131-135 | Only the named task changes, and a missing one is an error. |
| ProjectEngine.ProjectState.CollectLinks | crates/adk-project-state/src/engine.rs:137-141 | Collects one link for each dependency in task order. |
| ProjectEngine.ProjectState.PushLinks | crates/adk-project-state/src/engine.rs:145-151 | Pushes each link to its target, once. |
| ProjectEngine.ProjectState.RecomputeBlocks | crates/adk-project-state/src/engine.rs:136-152 | The clear, collect and push loops recompute all links. |
| ProjectEngine.ProjectState.Replay | crates/adk-project-state/src/engine.rs:43-51 | The replay loop succeeds and ends as the fold over the log, links recomputed once at its end. |
| ProjectLaws.ClaimLaw | crates/adk-project-state/src/engine.rs:73-79 | A claim sets the assignee, the status and the update time and takes the closing time away; without the task or a time it is refused. |
| ProjectLaws.CloseLaw | crates/adk-project-state/src/engine.rs:80-98 | Closing sets status, update and closing time, and adds the note exactly when there is a reason. |
| ProjectLaws.WholeTaskLaw | crates/adk-project-state/src/engine.rs:63-84 | An event with a whole task stores it under its ID. |
| ProjectLaws.CommentLaw | crates/adk-project-state/src/engine.rs:99-104 | A comment is appended and moves the update time. |
| ProjectLaws.DependencyAddedLaw | crates/adk-project-state/src/engine.rs:105-115 | After an addition the trimmed dependency is there once, the old ones stay in their order, and nothing else of the task or of other tasks changes but the update time. |
| ProjectLaws.DependencyRemovedLaw | crates/adk-project-state/src/engine.rs:105-115 | After a removal the dependency is gone and the others are there in their order; nothing else changes but the update time. |
| ProjectLaws.MemoryLaw | crates/adk-project-state/src/engine.rs:116-122 | Memories are stored under their IDs and deleted by them; without an ID, under the empty one. |
| ProjectLaws.OtherEventsLaw | crates/adk-project-state/src/engine.rs:57-128 | Projects of schema version 1 and summaries are stored, unknown kinds change nothing, and what does not decode is an error. |
| ProjectLaws.ReplayLaw | crates/adk-project-state/src/engine.rs:43-51 | A replay applies the events one after another, keeps the highest number and links at its end. |
| ProjectLaws.TrimLaw | crates/adk-project-state/src/engine.rs:777-785 | Trimming takes white space away at both ends and nothing else. |
| ProjectLaws.AddedLaw | crates/adk-project-state/src/engine.rs:777-785 | unique() leaves the trimmed, nonempty values once each, and a list of such values as it is. |
| MemoryHistory.PurgePreservesMeaning | crates/adk-project-state/src/engine.rs:634-653 | Replaying the purged log succeeds whenever the original replay did and keeps project, tasks with links and sessions; memories it keeps are unchanged and the log is renumbered from 1. |
| MemoryHistory.PurgeErasesExactly | crates/adk-project-state/src/engine.rs:634-653 | The memories left are the original ones minus the purged IDs if and only if not the empty ID is purged while a memory whose event names none is alive. |
| MemoryHistory.PurgeMemoriesErasesExactly | crates/adk-project-state/src/engine.rs:628-633 | The public purge drops empty IDs first, so the memories left always are exactly the original ones minus the IDs given. |
| MemoryHistory.UnnamedSurvivesPurge | crates/adk-project-state/src/engine.rs:654-673 | A log and a retention policy that keeps no memory: a memory without an ID is doomed, and alive again after its history was purged. |
| MemoryHistory.PurgeLeavesNoTrace | crates/adk-project-state/src/engine.rs:634-653 | The kept log consists of exactly the events that name no purged ID, in order, and grows with the log. |
| MemoryHistory.ApplySplits | crates/adk-project-state/src/engine.rs:52-130 | The effect of an event on memories and on everything else are independent. |
| MemoryHistory.RetentionKeepsPrefix | crates/adk-project-state/src/engine.rs:654-700 | Retention keeps the protected memories and a prefix of the newest-first candidates, at most `max_count` and none older than `before`, and every other candidate breaks one of the two. |
| MemoryHistory.CandidatesAre | crates/adk-project-state/src/engine.rs:656-670 | The candidates are exactly the live memories not protected, once each, newest first. |
| ProjectLaws.RetentionLaw | crates/adk-project-state/src/engine.rs:654-675 | A live memory is removed if it is not protected and either older than the date or has as many newer unprotected ones as may stay. |
| ProjectDisk.MutateIsSafe | crates/adk-project-state/src/engine.rs:297-320 | At every crash point of a mutation the log reads back as the old or the extended one and no embedding outlives its memory. |
| ProjectDisk.MutatePlanIs | crates/adk-project-state/src/engine.rs:297-320 | A mutation writes the cache deletion first, then one event numbered one past the last, then the replayed state with a new update time. |
| ProjectDisk.PurgeIsSafe | crates/adk-project-state/src/engine.rs:628-653 | The same at every crash point of a purge, whose log reads back as the old or the filtered one. |
| ProjectDisk.RetainIsSafe | crates/adk-project-state/src/engine.rs:654-700 | The same at every crash point of a retention, whose log has a prefix of the deletions. |
| ProjectDisk.RetentionLeaves | crates/adk-project-state/src/engine.rs:654-700 | With and without `purge_history` retention leaves the same project, tasks and sessions, and the same memories if and only if no unnamed memory is purged by its empty ID. |
| ProjectDisk.RefillIsSafe | crates/adk-project-state/src/recall.rs:130-140 | A cache refill is safe whatever ran since its records were computed: no entry without a memory and no stale entry is added, at every crash point. |
| ProjectDisk.OpenMakesSound | crates/adk-project-state/src/engine.rs:225-268 | Opening can be cut anywhere and repeated; once it has run, the embeddings' keys are among the replayed memories, and where they were before they are at every crash point of it. |
| ProjectDisk.OperationIsSafe | crates/adk-project-state/src/engine.rs:225-320 | One opening or operation, run to its end or cut by a crash in any of its writes, keeps a sound disk sound. |
| ProjectDisk.SoundStaysSound | crates/adk-project-state/src/engine.rs:225-320 | Over every sequence of openings, mutations, purges, retentions and refills, each with its own write hook, complete or cut by a crash, a sound disk stays sound. |
| ProjectDisk.EveryDiskIsSound | crates/adk-project-state/src/engine.rs:225-320 | So from an empty store, through every restart: the embeddings' keys are among the memories of the recovered log, and the log is numbered 1..n. |
| ProjectDisk.OpenedDisksAreSound | crates/adk-project-state/src/engine.rs:256-268 | From any readable log with any cache: once one opening, after any number of cut ones, has run to its end, every later disk is sound. |
| ProjectDisk.EmptyIsSound | crates/adk-project-state/src/engine.rs:225-268 | A fresh store is such a disk. |
| DiskLaws.MutateLaw | crates/adk-project-state/src/engine.rs:297-320 | A mutation succeeds exactly if its decision, the hook and the event do, and then the log reads as the old events and the one decided, next in number; a deleted memory takes its embedding along. |
| DiskLaws.PurgeLaw | crates/adk-project-state/src/engine.rs:634-653 | After a purge the log reads as the events that name none of the memories, renumbered, and their embeddings are gone; only the hook can refuse it. |
| DiskLaws.DeletionsLaw | crates/adk-project-state/src/engine.rs:676-700 | A retention without a purge appends one numbered deletion per memory it removes, if the hook accepts all of them, and takes their embeddings. |
| DiskLaws.RefillLaw | crates/adk-project-state/src/recall.rs:130-140 | A refill stores exactly the given embeddings of live memories that are of this model and of the current content, with as many finite components as they say and at least one. |
| DiskLaws.OpenLaw | crates/adk-project-state/src/engine.rs:225-268 | Opening gives an empty log its first event, refuses another project's log, leaves any other as it is, and keeps of the cache what belongs to a live memory. |
| DiskLaws.RefusalLaw | crates/adk-project-state/src/storage.rs:397-439 | What is refused changes neither the events read nor the cache. |
| ProjectStores.ProjectStore.Mutate | crates/adk-project-state/src/engine.rs:297-320 | Performs exactly the planned single writes in order and snapshots the incremental state; on a corrupt log it fails and writes nothing. |
| ProjectStores.ProjectStore.PurgeLocked | crates/adk-project-state/src/engine.rs:634-653 | Performs exactly the planned writes of a purge. |
| ProjectStores.ProjectStore.PurgeMemories | crates/adk-project-state/src/engine.rs:628-633 | A purge request performs the purge plan, or fails with no write but the repair; on a corrupt log it fails and writes nothing. |
| ProjectStores.ProjectStore.AppendDeletions | crates/adk-project-state/src/engine.rs:676-691 | Appends one numbered deletion per memory, in order. |
| ProjectStores.ProjectStore.RetainMemories | crates/adk-project-state/src/engine.rs:654-700 | Performs exactly the planned writes of a retention, by deletions or by a purge; on a corrupt log it fails and writes nothing. |
| ProjectStores.ProjectStore.Refill | crates/adk-project-state/src/recall.rs:130-140 | Keeps of the given records only those fresh for the memories alive under the lock, and stores them in one write; on a corrupt log it fails and writes nothing. |
| ProjectStores.ProjectStore.Open | crates/adk-project-state/src/engine.rs:225-268 | Performs exactly the planned writes of an opening: first event, orphan removal, snapshot; on a corrupt log it fails and writes nothing. |
| Timestamps.KeyOrderIsInstantOrder | crates/adk-codec/src/state.rs:96-111 | Comparing the first nineteen characters and the padded fraction is comparing the instants. |
| Timestamps.KeySlices | crates/adk-codec/src/state.rs:96-111 | The slices taken of the text are the date-time and the fraction. |
| ReadyLaws.DayLaw | crates/adk-codec/src/timestamp.rs:21-100 | An instant one calendar day later, over the ends of months and years, is 86400 seconds later. |
| ReadyLaws.ClockLaw | crates/adk-codec/src/timestamp.rs:21-100 | Hours, minutes and seconds are what they are called. |
| ReadyLaws.NanosLaw | crates/adk-codec/src/timestamp.rs:21-100 | Each further digit of a fraction is a tenth of the one before. |
| ReadyLaws.MonthLaw | crates/adk-codec/src/timestamp.rs:21-100 | The days of the months of the Gregorian calendar. |
| ReadyLaws.TextLaw | crates/adk-codec/src/timestamp.rs:17-20 | The text of an instant, with its separators. |
| ReadyTasks.ReplaysAgree | crates/adk-codec/src/state.rs:43-79 | After every prefix of a log both accept, the small replay and the engine have the same tasks, except for the update time of claimed ones. |
| ReadyTasks.ReadyAgrees | crates/adk-codec/src/state.rs:38-126 | On every log both accept, with named closings, the codec's ready list names the same tasks in the same order as the engine's replay and default filter. |
| ReadyTasks.OrdersAgree | crates/adk-codec/src/state.rs:112-122 | On open tasks both comparisons are the same. |
| ReadyTasks.EngineReadyIs | crates/adk-project-state/src/engine.rs:174-194 | The engine's ready list holds exactly the ready tasks, once each, in task order. |
| ReadyTasks.CodecReadyIs | crates/adk-codec/src/state.rs:85-95 | The codec's likewise, in whatever order its hash map is visited. |
| ReadyTasks.UnnamedClosingDiverges | crates/adk-codec/src/state.rs:66-76 | A log with an unnamed closing on which the two replays differ. |
| ReadyTasks.ReplayEvents | crates/adk-codec/src/state.rs:43-79 | The replay loop with its ID set, and its error. |
| ReadyTasks.CheckDependencies | crates/adk-codec/src/state.rs:80-84 | The nested loops accept exactly maps in which every dependency is known. |
| ReadyTasks.CheckReady | crates/adk-codec/src/state.rs:87-94 | Open, unassigned and all dependencies closed. |
| ReadyTasks.Collect | crates/adk-codec/src/state.rs:85-95 | The loop over the map collects exactly the ready tasks, in the order visited. |
| ReadyTasks.CheckKeys | crates/adk-codec/src/state.rs:112-115 | The loop over the ready tasks fails exactly when one has no UTC key. |
| ReadyTasks.RunCodecReady | crates/adk-codec/src/state.rs:38-126 | These loops and the sort give the ready list of some visiting order, or fail as it does. |
| ReadyLaws.ReadyLaw | crates/adk-project-state/src/engine.rs:180-199 | The engine lists exactly the open tasks whose dependencies all exist and are closed and that fit the filter, once each, the most urgent first, of those the latest changed, then by ID, up to the limit. |
| ReadyLaws.LabelLaw | crates/adk-project-state/src/engine.rs:757-763 | Labels match without the white space around them and in either case. |
| ReadyLaws.CodecLaw | crates/adk-codec/src/state.rs:38-126 | The codec creates a task once and after what it depends on, claims and closes where it exists, and reads no other kind. |
| ReadyLaws.CodecReplayLaw | crates/adk-codec/src/state.rs:38-46 | The codec's log must count from one and name no event twice. |
| SseReaders.SseReader.constructor | crates/adk-mcp/src/transport.rs:638-649 | A new reader has the whole stream's messages to report. |
| SseReaders.SseReader.Next | crates/adk-mcp/src/transport.rs:650-696 | Each call reports the next message of the batch parse of everything unread, or the error that ends it; the limit error only on a stream over its limit, and text that is no UTF-8 only for such a line. |
| SseReaders.ReadAll | crates/adk-mcp/src/transport.rs:650-696 | For every split of a stream within the limit into chunks, reading to the end gives exactly the batch parse of the stream. |
| SseReaders.ReadUpTo | crates/adk-mcp/src/transport.rs:650-696 | Over the limit, what is reported is a prefix of the batch parse. |
| SseReaders.FirstEnd | crates/adk-mcp/src/transport.rs:652-653 | The first line end of the buffered bytes is the first of the whole unread stream. |
| SseReaders.TakeLine | crates/adk-mcp/src/transport.rs:653-681 | Taking one line, with CR, LF and CRLF each ending one even when split between chunks, is one step of the batch parse. |
| SseReaders.DataKeepsShape | crates/adk-mcp/src/transport.rs:667-670 | The data buffer always is text and a line feed, so the message handed out is valid UTF-8. |
| SseReaders.Utf8Cut | crates/adk-mcp/src/transport.rs:672-673 | Valid UTF-8 may be cut before and after an ASCII byte. |
| SseReaders.Utf8Joins | crates/adk-mcp/src/transport.rs:676-679 | Valid UTF-8 texts join to a valid one. |
| SseLaws.MessageLaw | crates/adk-mcp/src/transport.rs:650-698 | An event line, if any, and one or more data lines up to an empty line are one message: its data are the values less one leading space, joined by line feeds, and the rest of the stream is read on its own. |
| SseLaws.DataLineLaw | crates/adk-mcp/src/transport.rs:672-680 | A data line, with or without its space, appends its value and a line feed, whatever came before. |
| SseLaws.EventLineLaw | crates/adk-mcp/src/transport.rs:672-680 | An event line sets the event name. |
| SseLaws.OtherFieldLaw | crates/adk-mcp/src/transport.rs:672-680 | A field of another name, and a comment, changes neither. |
| SseLaws.BareNameLaw | crates/adk-mcp/src/transport.rs:672-673 | A name without a colon is a field with an empty value. |
| SseLaws.LineEndLaw | crates/adk-mcp/src/transport.rs:652-659 | LF, CR and CRLF end a line alike. |
| SseLaws.EndsLaw | crates/adk-mcp/src/transport.rs:652-661 | An unended line is not read, and one that is no text ends the reading. |
| SseLaws.CharacterLaw | crates/adk-mcp/src/transport.rs:660-661 | The UTF-8 form of every character is taken for one. |
| SseLaws.OnlyCharacters | crates/adk-mcp/src/transport.rs:660-661 | And nothing else is. |
| StderrTails.FormsAre | crates/adk-mcp/src/transport.rs:153-194 | The stored forms are exactly the raw and the JSON-escaped value of every credential, each once. |
| StderrTails.Collect | crates/adk-mcp/src/transport.rs:153-194 | The loop stops exactly when a value is too long or the distinct forms are too many or too long in total. |
| StderrTails.StderrTail.constructor | crates/adk-mcp/src/transport.rs:153-194 | Too much credential history suppresses diagnostics; otherwise all forms are stored. |
| StderrTails.StderrTail.Write | crates/adk-mcp/src/transport.rs:196-208 | The held bytes are the last of the whole stream, however it was cut into writes. |
| StderrTails.StderrTail.Diagnostics | crates/adk-mcp/src/transport.rs:210-227 | What is published is the stream's last `limit` bytes with every byte starred that lies in an occurrence of a credential anywhere in the stream or in the beginning of one at its end, and no other; at most limit plus overlap bytes are held. |
| StderrTails.Redact | crates/adk-mcp/src/transport.rs:211-226 | Masking credential by credential in place stars exactly the masked bytes. |
| StderrTails.WindowSuffices | crates/adk-mcp/src/transport.rs:196-227 | The held bytes decide for every published byte whether it is masked in the whole stream. |
| StderrTails.MoreIsTooMany | crates/adk-mcp/src/transport.rs:161-185 | More credentials never bring diagnostics back. |
| StderrLaws.EscapeLaw | crates/adk-mcp/src/transport.rs:152-195 | The escaped form of a credential is a JSON string that reads as the credential. |
| StderrLaws.SecretsLaw | crates/adk-mcp/src/transport.rs:152-195 | The credentials are the nonempty values of the credential variables. |
| StderrLaws.TooManyLaw | crates/adk-mcp/src/transport.rs:152-195 | Diagnostics are suppressed for a credential over 16384 bytes, more than 64 forms, or over 16384 bytes of them. |
| StderrLaws.MaskedLaw | crates/adk-mcp/src/transport.rs:210-240 | A byte is starred exactly when it lies in a credential, or in the beginning of one that the stream ends with. |
| StreamJournals.ChatDeltasReassemble | crates/adk-providers/src/client.rs:739-757 | The announced text and reasoning deltas concatenate to the text and the reasoning of the stream. |
| StreamJournals.EntryLogged | crates/adk-providers/src/client.rs:771-799 | A tool call fragment changes its own entry alone. |
| StreamJournals.ArchiveKeeps | crates/adk-providers/src/client.rs:763-770 | Archiving an entry under a reused index keeps it with all its fragments. |
| StreamNames.CallNames | crates/adk-providers/src/client.rs:759-799 | One call fragment keeps the IDs announced so far those their entries now have if and only if it does not reset the ID of an entry with arguments to the empty string. |
| StreamNames.CallsName | crates/adk-providers/src/client.rs:759-799 | The same at every fragment of one choice. |
| StreamNames.ChatNames | crates/adk-providers/src/client.rs:703-806 | For every stream of chunks, with text and choices between the calls: at every point of it, all argument deltas so far are announced under the ID their entry then has, if and only if no fragment is such a reset. |
| StreamCalls.ChatEndsNamed | crates/adk-providers/src/client.rs:703-806 | For every stream of chunks: in the end every argument delta was announced under the ID its call ends up with if and only if the raw fragments keep their calls, that is, whenever another call takes an index, arguments arrive for it, or the stream ends, the ID in force there is the one the earlier arguments came under. |
| StreamCalls.CallFollows | crates/adk-providers/src/client.rs:759-799 | One fragment moves the IDs of the accumulated entries exactly as the raw fragments say, or splits a call. |
| StreamCalls.LostCall | crates/adk-providers/src/client.rs:759-799 | No later fragment repairs a split call. |
| StreamCalls.NoResetKeeps | crates/adk-providers/src/client.rs:763-777 | Only a reset can split a call. |
| StreamCalls.RecoveredReset | crates/adk-providers/src/client.rs:763-777 | Three accepted chunks, the second a reset and the third taking it back: misnamed in between, not at the end. |
| StreamLaws.TextsLaw | crates/adk-providers/src/client.rs:732-757 | A choice announces and keeps its reasoning (the first of three fields with a text, or the details), its content and its refusal, introduced as one where no text came before, in this order. |
| StreamLaws.CallLaw | crates/adk-providers/src/client.rs:758-799 | A call fragment replaces the ID, appends name and arguments, and begins a new call for another ID; it is refused without an index, and arguments without an ID. |
| StreamLaws.ChoiceLaw | crates/adk-providers/src/client.rs:712-806 | Only the first choice is read; opaque reasoning is replaced, details accumulate, a finish reason is kept. |
| StreamLaws.ChunkLaw | crates/adk-providers/src/client.rs:703-713 | A chunk's header fields and usage replace earlier ones; a chunk must have choices. |
| StreamLaws.ChatFinalLaw | crates/adk-providers/src/client.rs:494-502 | The message that ends a chat stream, field by field. |
| StreamLaws.FinaleLaw | crates/adk-providers/src/client.rs:691-702 | A completed stream ends with its items and the response. |
| StreamNames.ResetMergesCalls | crates/adk-providers/src/client.rs:763-777 | Three accepted chunks, one a reset: arguments announced for one call end up in another. |
| StreamNames.CallArguments | crates/adk-providers/src/client.rs:788-799 | The argument deltas announced under the ID of a call that has it alone are, together, that call's arguments. |
| StreamBlocks.FragmentKeeps | crates/adk-providers/src/client.rs:836-904 | A fragment extends its own field of its own block and nothing else; tool input only its buffer. |
| StreamBlocks.StopKeeps | crates/adk-providers/src/client.rs:905-919 | Stopping a block parses its input from all its fragments. |
| StreamBlocks.FinishedInputs | crates/adk-providers/src/client.rs:931-940 | When a message ends, every block with argument fragments has its input parsed from all of them. |
| StreamBlocks.FinishableIsEmpty | crates/adk-providers/src/client.rs:931-937 | Empty argument buffers mean exactly that no block with input is unstopped. |
| StreamBlocks.StepExtends | crates/adk-providers/src/client.rs:836-842 | Fragments are never lost, and none arrives for a stopped block. |
| StreamBlocks.FragmentsBelong | crates/adk-providers/src/client.rs:848-902 | Every fragment of a delta belongs to its block and is announced by the delta of its kind. |
| StreamLaws.TextDeltaLaw | crates/adk-providers/src/client.rs:849-870 | Text, thinking and signature deltas extend that field of the block by their text, announced as text, as reasoning, or not. |
| StreamLaws.InputDeltaLaw | crates/adk-providers/src/client.rs:891-904 | An input delta extends the input, announced under the ID the block started with; without an ID it is refused. |
| StreamLaws.CompactionLaw | crates/adk-providers/src/client.rs:871-890 | Compaction deltas are for compaction blocks; their encrypted content counts if there is any. |
| StreamLaws.MessageStartLaw | crates/adk-providers/src/client.rs:810-820 | A message starts once, with an ID, and with usage only as an object. |
| StreamLaws.BlockStartLaw | crates/adk-providers/src/client.rs:821-835 | A block starts under its index, once, in a message that has started. |
| StreamLaws.BlockStopLaw | crates/adk-providers/src/client.rs:905-919 | A block stops once, and the input it got must be JSON. |
| StreamLaws.MessageDeltaLaw | crates/adk-providers/src/client.rs:920-930 | A message delta sets stop reason and end of turn and adds to the usage field by field. |
| StreamLaws.OtherEventLaw | crates/adk-providers/src/client.rs:807-943 | A ping changes nothing; any other event is refused. |
| StreamLaws.FinishLaw | crates/adk-providers/src/client.rs:931-937 | A message can end once it has an ID and a stop reason and every block with input has stopped. |
| StreamParts.FragmentsAreTexts | crates/adk-providers/src/client.rs:541-626 | For every stream, the fragments of a key are its deltas, or the closing text when it came first: nothing is counted twice. |
| StreamParts.FillIs | crates/adk-providers/src/client.rs:634-650 | Every index with a fragment gets an item; one without arguments takes the first nonempty fragment. |
| StreamParts.KindTextsAreDeltas | crates/adk-providers/src/client.rs:651-667 | The parts filled into an item are the announced deltas of its keys. |
| ResponseLaws.KeyLaw | crates/adk-providers/src/client.rs:522-530 | A text is kept under its output index, its content or else summary index, and its kind. |
| ResponseLaws.OutputTextLaw | crates/adk-providers/src/client.rs:541-561 | A delta of response.output_text.delta is announced as text and kept as it is. |
| ResponseLaws.ReasoningLaw | crates/adk-providers/src/client.rs:541-561 | The deltas of the two reasoning events are announced as reasoning. |
| ResponseLaws.RefusalLaw | crates/adk-providers/src/client.rs:541-561 | The first delta of response.refusal.delta is introduced as a refusal, later ones are not. |
| ResponseLaws.ClosedTextLaw | crates/adk-providers/src/client.rs:599-626 | A closing text counts where nothing came for its key before and it is not empty; a closing refusal is introduced. |
| ResponseLaws.ArgumentsLaw | crates/adk-providers/src/client.rs:574-598 | Arguments are announced under the call ID of the item they name; a closing event counts where none came before. |
| ResponseLaws.ItemLaw | crates/adk-providers/src/client.rs:562-573 | An item is kept under its index; a call must name itself and its item. |
| ResponseLaws.HeaderLaw | crates/adk-providers/src/client.rs:531-540 | The header events set id, model and metadata. |
| ResponseLaws.RestLaw | crates/adk-providers/src/client.rs:684-688 | A failed or cancelled response is an error, and any event of another name is ignored. |
| ResponseLaws.ItemShownLaw | crates/adk-providers/src/client.rs:651-667 | A completed message or reasoning item without text shows the texts of its index and kind as parts, in their order; every other item stays. |
| ResponseLaws.NewItemLaw | crates/adk-providers/src/client.rs:634-641 | Texts without an item make one: an assistant message or a reasoning item, as the first of them. |
| ResponseLaws.CallShownLaw | crates/adk-providers/src/client.rs:642-650 | A call without arguments gets those of the key of its index. |
| ResponseLaws.IndexLaw | crates/adk-providers/src/client.rs:634-641 | There is an item for every index with an item or a text. |
| ResponseLaws.BodyLaw | crates/adk-providers/src/client.rs:627-683 | The body handed over: every field of the terminal response over what came before, and the items for output where it has none. |
| ToolInputs.BlocksName | crates/adk-providers/src/client.rs:891-904 | Throughout an Anthropic message every argument delta is announced under the ID its block started with. |
| ToolInputs.BlockInputs | crates/adk-providers/src/client.rs:891-904 | The argument deltas announced under the ID of a block are its input fragments, if no other block with input has the ID. |
| ToolInputs.DeltasNameItems | crates/adk-providers/src/client.rs:562-598 | For every Responses stream the argument deltas announced are, in order, those its events stand for: each under the call ID last given to the item it names, none counted twice. |
| ToolInputs.KeyIsCall | crates/adk-providers/src/client.rs:574-598 | Where a key's arguments are those of one call, the texts of the key are the deltas of the call. |
| ToolInputs.CompletedArguments | crates/adk-providers/src/client.rs:634-650 | A call item without arguments of its own takes those of the one key of its index. |
| StreamStates.StreamState.Call | crates/adk-providers/src/client.rs:759-799 | Updates the entry at the index in place, and fails exactly without an index or an ID for arguments. |
| StreamStates.StreamState.Choice | crates/adk-providers/src/client.rs:716-803 | One choice: reasoning, content, refusal and calls, with the deltas announced in this order. |
| StreamStates.StreamState.ChatEvent | crates/adk-providers/src/client.rs:703-806 | A chunk is accepted exactly when the journal's step is, and the fields stay what the journal describes. |
| StreamStates.StreamState.Fragment | crates/adk-providers/src/client.rs:848-902 | Block and argument buffer stay what the fragments describe. |
| StreamStates.StreamState.BlockDelta | crates/adk-providers/src/client.rs:836-904 | All fragments of one delta are added and announced, or it is an error. |
| StreamStates.StreamState.BlockStop | crates/adk-providers/src/client.rs:905-919 | Fails exactly when the fragments do not parse; otherwise the input is what they parse to. |
| StreamStates.StreamState.AnthropicEvent | crates/adk-providers/src/client.rs:807-946 | An event is accepted exactly when the message's step is, and all blocks stay what their fragments describe. |
| StreamStates.StreamState.ResponsesEvent | crates/adk-providers/src/client.rs:522-690 | An event is accepted exactly when the step on keys and items is, and the held fragments stay the announced ones. |
| StreamStates.StreamState.FillArguments | crates/adk-providers/src/client.rs:634-650 | The loop over the fragments in key order fills in items and arguments. |
| StreamStates.StreamState.FillParts | crates/adk-providers/src/client.rs:651-667 | The loop over the items fills in each from its own fragments. |
| StreamStates.StreamState.Finish | crates/adk-providers/src/client.rs:691-702 | Yields every item once and one completion, last, exactly when a response can be made of the body. |
| StreamStates.StreamState.FinishChat | crates/adk-providers/src/client.rs:494-502 | Needs a finish reason; hands over text, reasoning and all entries, archived ones first. |
| StreamStates.StreamState.FinishMessage | crates/adk-providers/src/client.rs:931-941 | Needs ID, stop reason and no unfinished input; hands over the blocks in index order. |
| StreamStates.StreamState.FinishResponse | crates/adk-providers/src/client.rs:627-683 | Hands over the terminal response with the completed items unless it has its own output. |
| StreamStates.StreamState.Event | crates/adk-providers/src/client.rs:483-521 | Per event: announced deltas are exactly the new fragments, the state stays the fold of all events received, bytes are bounded, nothing but a final marker is accepted after completion, and which data are no error is an if-and-only-if on the state. |
| HttpStreams.HttpStream.Next | crates/adk-providers/src/client.rs:397-438 | A completion is yielded at most once and last; after the end or an error nothing follows; an ended stream has yielded everything; and a queued event, the end or a break is answered at once. |
| HttpStreams.HttpStream.Read | crates/adk-providers/src/client.rs:398-422 | The read loop yields the queued events in order until the stream is complete, and fails where the context is no longer active or the response breaks off. |
| HttpStreams.HttpStream.Feed | crates/adk-providers/src/client.rs:418-420 | All events of a chunk are queued in order; the first refused one fails the chunk. |
| HttpStreams.ChatBodyIsDeltas | crates/adk-providers/src/client.rs:494-502 | The handed over content and reasoning are the concatenated announced deltas, and every tool call has exactly its own fragments. |
| HttpStreams.MessageBodyIsDeltas | crates/adk-providers/src/client.rs:931-941 | Every handed over block is its start value plus its fragments, its input parsed from all of them. |
| HttpStreams.ResponseFragmentsAreDeltas | crates/adk-providers/src/client.rs:627-683 | Every fragment that fills the handed over output is what was announced for its key. |
| HttpStreams.ToolArgumentsAreDeltas | crates/adk-providers/src/client.rs:494-502 | In a chat stream that splits no call, the argument deltas received for the ID of a tool call are, together, its arguments in the response, if no other call has the ID. |
| HttpStreams.BlockInputsAreDeltas | crates/adk-providers/src/client.rs:931-941 | The input of a block of a completed message is what the argument deltas received for its ID parse to, together, if no other block with input has the ID. |
| HttpStreams.ResponseArgumentsAreDeltas | crates/adk-providers/src/client.rs:627-683 | The argument deltas received of a Responses stream are those of its events; where a key's arguments are those of one call, they are the deltas received for the call, and so are the arguments of a completed item that had none. |
| HttpStreams.ResponseFragmentsAreTexts | crates/adk-providers/src/client.rs:541-626 | The fragments of a Responses stream are the batch reading of all events received; nothing is counted twice. |
| ApprovalHistory.ContentRoundTrip | crates/adk-codec/src/approval.rs:93-126 | Content decodes to itself behind a leading text, empty where it had none. |
| ApprovalHistory.ItemRoundTrip | crates/adk-codec/src/approval.rs:128-305 | An encodable item decodes to itself if and only if its content starts with text. |
| ApprovalHistory.EncodedDecodes | crates/adk-codec/src/approval.rs:307-380 | Every encodable history decodes with its own phases to the same agents, markers and boundaries in order, and the same items up to a leading empty text. |
| ApprovalHistory.EncodeDecodes | crates/adk-codec/src/approval.rs:307-380 | It decodes to exactly itself if and only if all message and tool-result content starts with text. |
| ApprovalHistory.DecodedEncodes | crates/adk-codec/src/approval.rs:307-380 | Every wire list that decodes re-encodes identically, having used all given phases in order. |
| ApprovalHistory.SplitMerges | crates/adk-codec/src/approval.rs:342-380 | A decoded history has ordered boundaries inside it and valid markers, and merges back into its wire list. |
| ApprovalHistory.MergedSplits | crates/adk-codec/src/approval.rs:307-339 | Splitting a merged history finds every marker at its boundary. |
| ApprovalHistory.CheckIs | crates/adk-codec/src/approval.rs:312-326 | The check passes exactly for ordered boundaries within the history and consistent phases. |
| ApprovalHistory.CheckAll | crates/adk-codec/src/approval.rs:317-326 | The loop over the boundaries reports the first fault in order. |
| ApprovalHistory.Merge | crates/adk-codec/src/approval.rs:327-338 | The loop with its marker iterator merges items and markers, or fails with the first error in wire order. |
| ApprovalHistory.Encode | crates/adk-codec/src/approval.rs:307-339 | The whole encoding, with its first error. |
| ApprovalHistory.Decode | crates/adk-codec/src/approval.rs:342-380 | The loop with its phase iterator splits the list, or fails with the first error. |
| ApprovalLaws.EncodableLaw | crates/adk-codec/src/approval.rs:307-341 | A history has a wire form exactly when each item has one, each marker fits its phase, and the markers come in order; it has one record for each. |
| ApprovalLaws.MessageLaw | crates/adk-codec/src/approval.rs:128-208 | A user's message without an agent and an assistant's with one become records of kind 0; other roles, an empty phase and other content are refused. |
| ApprovalLaws.ResultLaw | crates/adk-codec/src/approval.rs:128-208 | A tool result that does not pause becomes a record of kind 2. |
| ApprovalLaws.OtherItemLaw | crates/adk-codec/src/approval.rs:128-208 | Calls, reasoning and compactions become records of kinds 1, 5 and 7 with all they have; handoffs have none. |
| ApprovalLaws.ContentLaw | crates/adk-codec/src/approval.rs:93-127 | Content of one leading text and attachments is that text and those images, in both directions. |
| ApprovalLaws.CarriedLaw | crates/adk-codec/src/approval.rs:93-117 | Other content has no record. |
| ApprovalLaws.MarkerLaw | crates/adk-codec/src/approval.rs:46-62 | A marker is a record of kind 6 if it says approved exactly in the approved phase. |
| ApprovalLaws.ForeignLaw | crates/adk-codec/src/approval.rs:209-306 | A record of another kind or without its payload is no item. |
| ServerSessions.Sessions.RequestStep | crates/adk-mcp/src/server.rs:319-333 | Under the lock: unavailable once closed, forbidden unless live and the tenant's own, else refreshed or deleted. |
| ServerSessions.Sessions.InitializeStep | crates/adk-mcp/src/server.rs:469-497 | Under the lock: a new session only within both limits. |
| ServerSessions.Sessions.DispatchStep | crates/adk-mcp/src/server.rs:502-516 | Under the lock: the gate, which neither prunes nor compares tenants. |
| ServerSessions.Sessions.Prune | crates/adk-mcp/src/server.rs:698-702 | Keeps exactly the sessions seen within the TTL. |
| ServerSessions.Sessions.Close | crates/adk-mcp/src/server.rs:263-267 | Closes and clears the table. |
| ServerSessions.Sessions.Count | crates/adk-mcp/src/server.rs:269-273 | Prunes, then counts. |
| ServerSessions.AlwaysBounded | crates/adk-mcp/src/server.rs:473-483 | In every interleaving there are at most 1024 sessions and at most 128 per tenant. |
| ServerSessions.AlwaysSound | crates/adk-mcp/src/server.rs:301-516 | In every interleaving every live session was issued once, to its tenant, never deleted, and is initialized only by its tenant. |
| ServerSessions.OwnSession | crates/adk-mcp/src/server.rs:502-516 | The session a request was admitted to is still its tenant's when the gate finds it. |
| ServerSessions.EveryCallIsGated | crates/adk-mcp/src/server.rs:502-516 | In every interleaving, a call that passed the gate was on a session created for the requester's tenant and initialized by it after that, not deleted, on a server not closed. |
| ServerSessions.ClosedForever | crates/adk-mcp/src/server.rs:263-267 | After a close the table is empty after every later step, whatever was in flight. |
| ServerSessions.Batch | crates/adk-mcp/src/server.rs:381-418 | A batch is answered by the array of its answers exactly when all messages succeeded and it fits; the array never exceeds the bound; no answers, no body; else by the first failed reply, or as too large at the first answer that does not fit, whichever comes first. |
| ServerSessions.OneFailure | crates/adk-mcp/src/server.rs:381-418 | There is one message at which a batch can fail, and one answer for it. |
| ServerSessions.Fits | crates/adk-mcp/src/server.rs:393-405 | The room left decides exactly whether the batch with one more element fits, except that a single element is refused one byte early. |
| ServerSessions.OnlySinglesNeedMore | crates/adk-mcp/src/server.rs:393-405 | A batch needs more room than its array exactly when it has one element. |
| ServerSessions.RefuseExactFit | crates/adk-mcp/src/server.rs:381-418 | Such a batch, whose array fills the bound exactly, is refused. |
| ServerLaws.AdmitLaw | crates/adk-mcp/src/server.rs:319-335 | A request gets in exactly if the server is open, the session was seen less than 1800 seconds ago and is the tenant's; it is seen then, or ends. |
| ServerLaws.CreateLaw | crates/adk-mcp/src/server.rs:469-500 | A session is opened exactly while fewer than 1024 are in use and fewer than 128 of them the tenant's. |
| ServerLaws.GateLaw | crates/adk-mcp/src/server.rs:501-520 | The initialized notification is accepted and kept; any other message needs it. |
| ServerLaws.HandshakeLaw | crates/adk-mcp/src/server.rs:284-520 | From any state with room, a client that opens a session, says it is initialized and calls, each within half an hour of the last, gets its call worked on. |
| ServerLaws.ArrayLaw | crates/adk-mcp/src/server.rs:381-418 | The answer to a batch is a bracketed, comma-separated JSON array. |
| McpClients.Client.Exchange | crates/adk-mcp/src/client.rs:295-354 | Nothing is written unless the session is usable and the attempt was audited; the session is usable after it only for a definite answer with its final audit, and an unknown outcome, a drop or a lost audit leaves it poisoned. Everything ever written on a transport, except perhaps the last write, was settled before the next one. |
| McpClients.Client.Initialize | crates/adk-mcp/src/client.rs:359-403 | Ready exactly on success, and success exactly for a request that fits, an answer that is accepted, and an announcement that goes out; then these four events are the history. |
| McpClients.Client.Reconnect | crates/adk-mcp/src/client.rs:404-416 | Only a fresh transport takes a poisoned session back to work. |
| McpClients.Client.Close | crates/adk-mcp/src/client.rs:417-422 | Closes for good. |
| McpClients.Client.Pages | crates/adk-mcp/src/client.rs:423-454 | At most `max_pages` requests, written with exactly the trimmed cursor of the answer before, none twice; on success the concatenation of all pages in order, at most `max_items`; and success exactly if the answers are such a listing. |
| McpClients.Client.ListTools | crates/adk-mcp/src/client.rs:468-529 | Discovery happens once; its catalog has one tool per listed item, in order, each name once, and callers see the permitted ones by qualified name; it succeeds exactly if the listing does and makes a catalog. |
| McpClients.Client.Catalog | crates/adk-mcp/src/client.rs:475-517 | A listing is refused exactly when an item is malformed or a name repeats. |
| McpClients.VisibleIs | crates/adk-mcp/src/client.rs:518-528 | What callers see of a catalog are exactly the permitted tools. |
| McpClients.Client.CallTool | crates/adk-mcp/src/client.rs:541-598 | A call is written, with its own name and arguments, only for a discovered tool past the remote, allowlist, break-glass and approval gates, and for every such one whose request fits; its result is that of the exchange. |
| McpClients.SentOrderly | crates/adk-mcp/src/client.rs:310-353 | A write on a quiet transport keeps everything written settled before the next write. |
| McpClients.GreetedMore | crates/adk-mcp/src/client.rs:359-403 | A transport once greeted stays so. |
| McpLaws.IntroductionLaw | crates/adk-mcp/src/client.rs:359-375 | The parameters of an initialization. |
| McpLaws.NegotiationLaw | crates/adk-mcp/src/client.rs:376-395 | Which protocol versions and capabilities are accepted, and what they are taken for. |
| McpLaws.ParamsLaw | crates/adk-mcp/src/client.rs:423-435 | What a call and a page request are written as. |
| McpLaws.ResultLaw | crates/adk-mcp/src/client.rs:318-354 | Which answers leave the session usable, and what each is to the caller. |
| McpLaws.CursorLaw | crates/adk-mcp/src/client.rs:440-454 | Which cursor an answer names. |
| McpLaws.GateLaw | crates/adk-mcp/src/client.rs:541-598 | The policy gates of a call. |
| McpLaws.VisibleLaw | crates/adk-mcp/src/client.rs:468-529 | Exactly the permitted tools are shown, by qualified name. |
| AuthSessions.Session.Reject | crates/adk-providers/src/auth.rs:217-226 | Records a rejection exactly when the rejected token is still the current one. |
| AuthSessions.Session.Load | crates/adk-providers/src/auth.rs:219-220 | What the store answers, checked against the account. |
| AuthSessions.Session.DisableRefresh | crates/adk-providers/src/auth.rs:209-211 | No exchange happens after it. |
| AuthSessions.Session.Store | crates/adk-providers/src/auth.rs:304-318 | After a swap, won or lost, the result is what the store then holds. |
| AuthSessions.Session.Renew | crates/adk-providers/src/auth.rs:294-366 | At most two exchanges, the second only for OpenAI and another refresh token; success returns the last material loaded; the result, and the failure remembered, are settled by the answers of the refresher, the store and the clock as `RenewedTo` says. |
| AuthSessions.Session.Recover | crates/adk-providers/src/auth.rs:319-365 | What a failed exchange leads to: a rotated token, another try, a token still usable, or the failure. |
| AuthSessions.Session.HandOut | crates/adk-providers/src/auth.rs:374-403 | The last checks of a call. |
| AuthSessions.Session.Renewed | crates/adk-providers/src/auth.rs:242-373 | Exchanges exactly when the token is due or rejected, an exchange is possible and Copilot is not cooling down. |
| AuthSessions.Session.MaterialWithPolicy | crates/adk-providers/src/auth.rs:235-404 | A successful call returns the material the store itself loaded last in that call, never the rejected token, with the account and token the mode needs, after at most two exchanges; over all calls no rejected token is returned before a load observed another one, and what is exchanged and replaced is what was loaded last. Its answer is a function of the store's, the refresher's and the clock's (`Answered`), of which AuthLaws speaks. |
| AuthSessions.AskedKeeps | crates/adk-providers/src/auth.rs:235-404 | Loads and exchanges keep the session from returning a rejected token before it was seen replaced. |
| AuthSessions.RejectKeeps | crates/adk-providers/src/auth.rs:222-224 | So does recording a rejection. |
| AuthSessions.ClearKeeps | crates/adk-providers/src/auth.rs:374-382 | So does forgetting it once another token was loaded. |
| AuthSessions.ReturnKeeps | crates/adk-providers/src/auth.rs:374-404 | And returning the new token. |
| AuthLaws.AnthropicLaw | crates/adk-providers/src/auth.rs:248-272 | Anthropic material is exchanged exactly when it can be and is empty, rejected, or ends within 120 seconds. |
| AuthLaws.OpenAiLaw | crates/adk-providers/src/auth.rs:248-272 | OpenAI material: 300 seconds ahead when early, 0 otherwise; an opaque token only when early and after eight days. |
| AuthLaws.CopilotLaw | crates/adk-providers/src/auth.rs:248-286 | Copilot material: 300 seconds ahead, but not within 15 seconds of a failure with the same revision. |
| AuthLaws.NeedsRefreshLaw | crates/adk-providers/src/auth.rs:102-138 | The public test of Anthropic material looks half a lifetime ahead, at most four hours. |
| AuthLaws.KeptLaw | crates/adk-providers/src/auth.rs:235-403 | Without an exchange a call hands out what the store holds, unless the token is rejected or unusable. |
| AuthLaws.NotExpiredLaw | crates/adk-providers/src/auth.rs:255-262 | Anthropic material that could have been exchanged is handed out with more than 120 seconds left. |
| AuthLaws.CoolingLaw | crates/adk-providers/src/auth.rs:281-292 | Copilot material that is due while a failure cools down serves until it expires. |
| AuthLaws.ExchangedLaw | crates/adk-providers/src/auth.rs:296-318 | After an exchange a call hands out what the store then holds. |
| AuthLaws.RefusedLaw | crates/adk-providers/src/auth.rs:319-365 | After a refused exchange a call hands out a token rotated meanwhile or still good, or reports the refusal. |
| AuthLaws.SecondLaw | crates/adk-providers/src/auth.rs:340-352 | Only OpenAI, refused over HTTP, tries once more, with another refresh token. |
| AuthLaws.DroppedLaw | crates/adk-providers/src/auth.rs:319-325 | A dropped, cancelled or late exchange fails the call. |
| AuthLaws.FailedLoadLaw | crates/adk-providers/src/auth.rs:235-243 | A load that fails, or of another account, fails the call. |

## Left out

- RunHistory.GrantOnlyAfterExpiry: speaks of the last lease handed out, not of the latest expiry ever promised, because a renewal with a shorter time to live moves the expiry back.
- StoreEquivalence.StepsAgree: compares the answers of the two stores call by call, and a renewal on disk only where its two clock readings are equal; for unequal ones the expiries differ, and each store is covered by `StoreEquivalence.FilesystemConforms` and `StoreEquivalence.PostgresConforms`.
- StoreEquivalence.StoresAgree: the same condition on every call; the theorems about either store alone need none.
- StoreEquivalence.AnswersAgree: the same.
- EventLogs.CodecExists: gives an encoding of numbers; that numbers can stand for project events is not spelled out.
- ReadyTasks.ReadyAgrees: requires closed tasks to carry an ID (`ReadyTasks.UnnamedClosingDiverges`), because for a closing event with an unnamed task the codec takes that task and the engine closes the one it has.
- StderrTails.StderrTail.Diagnostics: stops at the masked bytes; lossy UTF-8 decoding, control characters and trimming are not modelled. It assumes that limit plus overlap, or the bytes written, fit a machine word.
- StreamBlocks.FragmentKeeps: absent and null fields of a block are not told apart.
- McpClients.Client.Initialize: fields of the answer beyond version and capabilities are not modelled.
- McpClients.Client.ListTools: the descriptor's description and schema and the shortening of colliding qualified names are not modelled.
- Files, permissions, symbolic links, fsync, SQL, HTTP, DNS, process and advisory locks: a lock or transaction is one step, except where single writes matter for crashes.
- Rows of a deleted run are assumed to take their event rows along; schema.sql is not part of this model.
- The SQLite backend of project state, migration of version 1 run documents, the contents of index snapshots.
- Encryption, redaction callbacks, hashes, JSON text and random IDs: opaque functions and fresh values. JSON records encode injectively, without raw newlines, and no proper prefix of one parses or is blank (`EventLogs.ValidCodec`).
- Event IDs are assumed fresh where the engine generates them; a replay refuses duplicates.
- Time stamps are integers; rounding of database time stamps below a microsecond is not modelled.
- The SSE decoder of the provider client, the response made of a finished body, provider error envelopes, request repair and retry.
- Headers, content types and origins of the MCP server, tool schemas, resources and prompts: a request may stop between any two of its lock steps.
- The embedding provider, vector ranking, lexical scores and search filters beyond the ready list.
- The MCP message routing of `incoming`, OAuth endpoints, credential headers and cache scopes.
- Secrets' ID tokens and e-mail addresses in credential material.
