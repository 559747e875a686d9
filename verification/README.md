# Verified core of a local-first desktop assistant

This project models the parts of the assistant's Rust core whose correctness is
hard to see from one function: locking of file mutations, pipelines over tables
that can be cut and resumed, deterministic assembly, small state machines and
codecs. Each module is one component; `dafny verify dfyconfig.toml` checks all.

| module | component | source |
|---|---|---|
| `FileMutation` | the tree gate and the registry of weak per-path mutexes, as interleaved steps | `crates/core/src/file_mutation.rs` |
| `RunEvents` | run events, their durable contract, the validator of one turn | `crates/core/src/agent_run.rs`, `crates/core/src/runtime.rs` |
| `RunLedger` | the event table: head, closed flag, batches, recovery pages | `crates/core/src/db.rs` |
| `RunSession` | one turn over the run-event outbox, its actor and its terminal barrier | `crates/core/src/agent_session.rs`, `crates/core/src/run_event_outbox.rs` |
| `EmbeddingJob` | resumable embedding jobs and the vector blob codec | `crates/core/src/embedding_job.rs`, `crates/core/src/db.rs`, `crates/core/src/embed.rs` |
| `Dreaming` | budgeted, deduplicated suggestions and their life cycle | `crates/core/src/dreaming.rs` |
| `EntityLinks` | relation names, link upserts, applying and undoing link artifacts | `crates/core/src/compile.rs`, `crates/core/src/dreaming.rs` |
| `ContextPack` | the context assembler | `crates/core/src/context_pack.rs` |
| `Appearance` | the theme registry and its stored row | `crates/core/src/appearance.rs` |
| `MockReplay` | the mock replay log of a trajectory | `crates/core/src/eval_harness.rs` |
| `TfIdf`, `Vectors` | the TF-IDF embedder, normalization and cosine similarity | `crates/core/src/embed.rs` |
| `ClaimGraph` | LIKE patterns, claim relevance, narrative plans | `crates/core/src/event_claim_graph.rs` |
| `Permissions` | permission keys and policy lookup | `crates/core/src/approval.rs` |
| `Citations` | citation references | `crates/core/src/citations.rs` |
| `Companion` | sprite grids, animations and look tracks | `crates/core/src/companion.rs` |
| `Prelude` | results, counting, filtering, stable sorting, strings | shared vocabulary |

Abstractions, stated once:

- A table is a sequence or a map, a transaction is one atomic step, and the
  clock, fresh identifiers and hash-map iteration orders are parameters.
- Normalizing one theme is a partial function that keeps the id and is
  idempotent. A canonical path is an opaque value.
- An embedder computes each vector from its own text. A 32-bit float is a bit
  pattern where only its bytes matter and an exact real elsewhere; `ln` and the
  square root are parameters, the latter given by its defining equation.
- `to_lowercase` on full Unicode is a parameter; SQLite's `LOWER` and `LIKE`
  fold ASCII letters only, as modelled.

What the code does that a reader might not expect, each proved:

- A permission key survives formatting and parsing exactly when it is ASCII:
  decoding works byte by byte (`Permissions.KeyRoundTrip`).
- The SQL filter and the relevance score agree on every term exactly when
  SQLite's and Rust's lower-casing of the statement agree
  (`ClaimGraph.AgreementCondition`); with no term the filter selects every
  claim although the score is zero (`ClaimGraph.FilterIsRelevance`).
- Applying a relation artifact whose relation name is not in normal form stores
  the link and then reports an error (`EntityLinks.AddLinkOk`).
- Two theme files under one id with different bodies raise the registry's
  revision at every scan (`Appearance.ConflictingFilesKeepBumping`).
- The limits of a dream run bind its generators, not its kinds: a health
  contradiction also becomes a project memory candidate and a health gap a
  knowledge gap, so these two kinds can exceed the limit, exactly when
  `Dreaming.KindExceedsLimit` says so; `Dreaming.KindReachesTwiceTheLimit` has
  sixteen rows of one kind. Editing a payload makes the original suggestion
  come back (`Dreaming.EditedReappears`).
- A turn that passes its terminal barrier leaves exactly one closing event,
  unless another writer finished the task row while the actor ran; then it
  leaves none (`RunSession.BarrierMeansOneClosingEvent`, with a complete run in
  `RunSession.BarrierWithoutClosingEvent`).
- A paused `done` is refused by the producers (`RunSession.PausedDoneRefused`),
  and a turn whose stream holds one then waits (`RunSession.PausedDoneWaits`)
  until another producer, another writer or a failing write intervenes
  (`RunSession.OpenOutboxKeepsWaiting`); what the actor alone can end is exactly
  `RunSession.ReleaseCondition`.
- Undoing a dream link deletes the edge together with every confirmation it got
  since (`EntityLinks.UndoAfterConfirmations`).
- A stored vocabulary that maps two terms to one index makes vectors depend on
  the order of a hash map, unless the weight there is zero
  (`TfIdf.WalkIndependence`).

## Model

| member | source | states |
|---|---|---|
| FileMutation.StepInv | crates/core/src/file_mutation.rs:53-89 | every step of every worker keeps the four invariants: gate counts and queue, registry and its weak entries, strong counts, mutex owners and queues |
| FileMutation.RunInv | crates/core/src/file_mutation.rs:53-98 | the invariant holds in every state of every interleaving |
| FileMutation.OneLiveMutexPerPath | crates/core/src/file_mutation.rs:60-73 | two mutexes with strong references never have the same canonical path, although dead entries are pruned and recreated |
| FileMutation.FileGuardsExclusive | crates/core/src/file_mutation.rs:53-79 | two file guards held at once are for different canonical paths |
| FileMutation.TreeGuardExcludesOthers | crates/core/src/file_mutation.rs:92-98 | a native-tree guard coexists with no file guard, no worker inside the gate and no second tree guard |
| FileMutation.NoDeadlock | crates/core/src/file_mutation.rs:53-98 | in every state that keeps the invariant and has a worker that is not idle, some step is enabled other than a new start or a cancellation |
| FileMutation.InternalStepsRunOut | crates/core/src/file_mutation.rs:53-98 | every such step lowers a rank, so acquisitions do not run for ever |
| FileMutation.Drains | crates/core/src/file_mutation.rs:53-98 | from every such state some schedule of such steps makes every worker idle |
| FileMutation.EveryScheduleDrains | crates/core/src/file_mutation.rs:53-98 | every schedule of such steps is bounded, and has run out exactly when every worker is idle |
| FileMutation.WaiterIsServed | crates/core/src/file_mutation.rs:53-79 | in every schedule that runs until nothing is left to do, a waiter that is not cancelled and whose path resolves gets its guard |
| FileMutation.TreeWaiterIsServed | crates/core/src/file_mutation.rs:92-98 | and so does every waiter for the whole tree |
| FileMutation.GateIsFair | crates/core/src/file_mutation.rs:53-98 | over any part of a run in which a worker waits at the gate, no worker that was outside when it began gets in before it |
| FileMutation.MutexIsFair | crates/core/src/file_mutation.rs:78-89 | over any part of a run in which a worker waits for a mutex, no worker that neither owned it nor waited for it when it began owns it before |
| FileMutation.CancelledWaiterNeverGuarded | crates/core/src/file_mutation.rs:80-89 | a waiter whose token is cancelled, at the gate or in a queue, never becomes a guard holder in any continuation that does not start it again |
| FileMutation.CancellationPreventsGuard | crates/core/src/file_mutation.rs:53-89 | in terms of actions: cancelling a worker while it waits, or starting it with a cancelled token, means that it holds no guard in any later state until it is started again |
| FileMutation.CancelledExactly | crates/core/src/file_mutation.rs:53-89 | in every state of every run a token is cancelled exactly when the actions of its own worker say so |
| FileMutation.StartedIsServed | crates/core/src/file_mutation.rs:53-79 | an acquisition that starts uncancelled and whose path resolves gets its guard in every complete schedule |
| FileMutation.CancelledPollReleases | crates/core/src/file_mutation.rs:80-89 | polling a cancelled waiter drops its place in the queue, its reference and its way through the gate |
| FileMutation.UncontendedAcquire | crates/core/src/file_mutation.rs:53-79 | with the gate free and no live mutex for the path, seven steps end in a guard and change nothing for anyone else |
| FileMutation.TwoGuardsTogether | crates/core/src/file_mutation.rs:53-79 | a complete run in which two workers hold guards of different paths at once |
| FileMutation.ObtainEffect | crates/core/src/file_mutation.rs:66-72 | pruning and then upgrading or creating keeps every live entry, gives the path its live mutex if there is one, and otherwise a new one |
| FileMutation.PathLocks.Obtain | crates/core/src/file_mutation.rs:61-72 | the mutable registry does the two registry steps of the step system and never revives a dead mutex |
| FileMutation.PathLocks.PruneLocks | crates/core/src/file_mutation.rs:65-65 | the loop keeps exactly the entries whose mutex has strong references |
| RunEvents.PayloadHasPath | crates/core/src/agent_run.rs:1275-1289 | the walk finds a field exactly when the path leads to a value that is not null |
| RunEvents.ClosedByLastCount | crates/core/src/runtime.rs:826-834 | one closing event in last place is the same as: the count is one and the last event closes |
| RunEvents.CheckEvents | crates/core/src/runtime.rs:797-824 | the loop fails exactly when some event has another version, run, turn or an unexpected number, and otherwise collects every closing event |
| RunEvents.ValidateTurn | crates/core/src/runtime.rs:776-847 | the validator accepts exactly the logs of one run and turn, numbered without gaps, whose only closing event is the last |
| RunLedger.ClosedFlagMeaning | crates/core/src/db.rs:518-546 | the SQL closed flag equals: some row satisfies `closes_run`, or the task status is terminal |
| RunLedger.ClosedStaysClosed | crates/core/src/db.rs:518-553 | inserting further rows never clears the closed flag |
| RunLedger.InsertKeepsAscending | crates/core/src/db.rs:810-834 | an insert keeps the rows of a run strictly ascending and adds exactly the new row |
| RunLedger.InsertRefusesTakenKeys | crates/core/src/db.rs:810-834 | an insert is refused exactly when the sequence number is taken |
| RunLedger.InsertAboveInvisible | crates/core/src/db.rs:631-660 | a row above the frozen mark changes no selection up to that mark |
| RunLedger.ResumeAfter | crates/core/src/db.rs:662-787 | selecting after the cursor of the k-th selected row selects exactly the rows that follow it |
| RunLedger.BetweenMembers | crates/core/src/db.rs:662-787 | a selection holds exactly the rows of the range, once each and ascending |
| RunLedger.CheckBatch | crates/core/src/db.rs:798-808 | the first event that breaks its contract or has a number outside SQLite's range decides the error; without one the batch passes |
| RunLedger.CheckRows | crates/core/src/db.rs:780-784 | the reader's loop accepts exactly rows that all meet the contract |
| RunLedger.ValidRowsRead | crates/core/src/db.rs:780-784 | rows stored through the checks never make the reader fail |
| RunLedger.SelectRows | crates/core/src/db.rs:662-787 | the bounded select returns the first rows of the range, up to the limit |
| RunLedger.InsertAllRows | crates/core/src/db.rs:790-834 | a stored batch keeps every run valid and makes all of its events readable |
| RunLedger.InsertAllPossible | crates/core/src/db.rs:810-834 | inserting a batch succeeds exactly when no two of its events share run and number and none of these pairs is in the table |
| RunLedger.InsertAllSameUpTo | crates/core/src/db.rs:631-660 | a batch above a mark leaves every selection up to the mark as it was |
| RunLedger.Ledger.EventHead | crates/core/src/db.rs:518-553 | the head is the largest number of the run and the flag means what `closes_run` and the task status say |
| RunLedger.Ledger.SaveBatch | crates/core/src/db.rs:592-605 | a batch is stored whole exactly when all of its events pass and its keys are distinct and free; each error occurs exactly on its own cause and leaves the table as it was |
| RunLedger.Ledger.InsertBatch | crates/core/src/db.rs:810-834 | the insert loop equals inserting one by one and rolls back on a taken number |
| RunLedger.Ledger.ListFrom | crates/core/src/db.rs:662-787 | a cursor outside SQLite's range and a selected row that breaks its contract are two different errors; otherwise the first rows of the range |
| RunLedger.Ledger.EventPage | crates/core/src/db.rs:631-660 | a page holds the next rows up to the clamped limit, the mark, the cursor of its last row, and whether more rows follow |
| RunLedger.Ledger.Produce | crates/core/src/db.rs:592-605 | a producer that saves above the mark leaves what recovery reads unchanged, and the table is exactly the saved one |
| RunLedger.Ledger.Recover | crates/core/src/db.rs:631-660 | following pages to the end ends, and returns exactly the events after the cursor up to the frozen head, once each, for every limit and any appends in between, each of which is really made |
| RunLedger.RecoveredEvents | crates/core/src/db.rs:631-660 | what recovery returns is ascending and holds every event past the cursor at the time of the first page |
| RunSession.ExecutorDoneCloses | crates/core/src/agent_run.rs:666-683 | every finish reason gives a `done` event that producers accept and that closes the run |
| RunSession.TerminalLifecycle | crates/core/src/run_event_outbox.rs:1466-1486 | a terminal event is let through exactly when it has a status that closes the run and belongs to its kind |
| RunSession.AcceptedExactly | crates/core/src/run_event_outbox.rs:773-867 | a valid event is accepted exactly when the run is open, its actor runs and the queue has room; a durable one that is not accepted closes the run for producers |
| RunSession.SubmitInv | crates/core/src/run_event_outbox.rs:773-867 | a submission, accepted or refused, keeps the outbox invariant and never reopens it |
| RunSession.FailClosedInv | crates/core/src/run_event_outbox.rs:1286-1359 | giving up decides the barrier and keeps the ledger closed at most once |
| RunSession.ReceiveDurableInv | crates/core/src/run_event_outbox.rs:995-1284 | numbering and committing a durable event keeps the invariant, deferred or not, whatever the write does |
| RunSession.ReceivePreviewInv | crates/core/src/run_event_outbox.rs:995-1284 | delivering a preview commits what is pending before it and keeps the invariant |
| RunSession.DrainInv | crates/core/src/run_event_outbox.rs:1286-1359 | handling a saturated queue keeps the rows ordered and closes the run without a closing row |
| RunSession.ReceiveOutcome | crates/core/src/run_event_outbox.rs:1116-1210 | an event received is kept pending, or committed with everything pending before it, or the actor gives up, and which of these is exact; a preview is delivered only when nothing is pending any more |
| RunSession.GiveUpOutcome | crates/core/src/run_event_outbox.rs:1286-1359 | giving up reports a closed run exactly when the database says so, and otherwise closes the task row |
| RunSession.AcceptedIsConserved | crates/core/src/run_event_outbox.rs:995-1284 | in every state of every run, as long as the actor runs, committed, pending and queued rows together are exactly the accepted durable events, once each, in order, numbered by their place; what is committed is at any time the first part of them |
| RunSession.NumberedMeaning | crates/core/src/run_event_outbox.rs:1116-1169 | numbering drops previews only, and the number of an event is its place among all accepted events |
| RunSession.CommittedRowsMeetContract | crates/core/src/run_event_outbox.rs:797-830 | every row a run commits is a durable event of that run that meets the durable contract |
| RunSession.RunSettled | crates/core/src/run_event_outbox.rs:995-1284 | in every state of every run queue and pending batch keep their bounds and a passed barrier names the last committed row |
| RunSession.EndedRunIsClosed | crates/core/src/run_event_outbox.rs:1286-1359 | in every run in which no claim of the task row fails, an actor that has ended leaves a run the database reports as closed |
| RunSession.SessionFollowsStream | crates/core/src/agent_session.rs:212-272 | in every run, whatever others do, the session submits its stream in order, skips and repeats nothing, and closes it with the terminal error exactly when the stream does not close the run |
| RunSession.StepInv | crates/core/src/agent_session.rs:212-280 | every step of collector, session, other producers, actor and other writers keeps the invariant |
| RunSession.RunInv | crates/core/src/agent_session.rs:212-280 | it holds in every state of every interleaving |
| RunSession.EarlyCloseInRun | crates/core/src/run_event_outbox.rs:995-1359 | in every state of every run: an early close of the task row freezes the rows without a closing one, and only it lets the barrier pass without one |
| RunSession.BarrierMeansOneClosingEvent | crates/core/src/agent_session.rs:212-280 | a turn that returns past its barrier leaves exactly one closing event, in last place, exactly when no other writer finished the task row while the actor ran; otherwise it leaves none |
| RunSession.BarrierMeansAllCommitted | crates/core/src/run_event_outbox.rs:995-1284 | a turn that returns past its barrier with no early close has the initial rows and every accepted durable event, each once and unchanged but for its number |
| RunSession.TurnCommitsStream | crates/core/src/agent_session.rs:212-280 | without other producers such a turn adds exactly the executor's events up to the first closing one, or all of them and the terminal error, with consecutive numbers |
| RunSession.LedgerNeverClosedTwice | crates/core/src/task_run.rs:190-222 | in every state the committed rows ascend and are closed at most once, by their last row |
| RunSession.ClosedOutboxReachesBarrier | crates/core/src/run_event_outbox.rs:975-1284 | once producers are closed, some schedule of at most one actor step per queued event and one more decides the barrier, whatever the writes do |
| RunSession.ActorStepsRunOut | crates/core/src/run_event_outbox.rs:995-1284 | every actor step uses up work, deferring or not |
| RunSession.EveryScheduleDecides | crates/core/src/run_event_outbox.rs:975-1284 | once producers are closed, every schedule of the actor is bounded, and has run out exactly when the barrier is decided |
| RunSession.OpenOutboxKeepsWaiting | crates/core/src/agent_session.rs:217-224 | a session waiting after a refused event keeps waiting over any number of steps, unless another producer submits, another writer finishes the task row or a write fails |
| RunSession.ReleaseCondition | crates/core/src/run_event_outbox.rs:975-1359 | the actor alone can decide the barrier without a failing write exactly when producers are closed, or the task row is finished and durable work is left |
| RunSession.PausedDoneWaits | crates/core/src/agent_session.rs:217-224 | a stream with a paused `done` reaches such a wait, and the actor alone cannot end it |
| RunSession.PausedDoneRefused | crates/core/src/run_event_outbox.rs:1466-1486 | a paused `done` is refused and changes nothing |
| RunSession.TerminalErrorAccepted | crates/core/src/agent_session.rs:227-265 | the terminal error of a turn without a closing event is accepted by an open outbox with room and closes it |
| RunSession.OrdinaryTurn | crates/core/src/agent_session.rs:212-272 | for every closing event the producers accept there is a complete run that commits it as the only row and returns past the barrier |
| RunSession.BarrierWithoutClosingEvent | crates/core/src/task_run.rs:321-356 | a complete run that passes its barrier with no closing event, because the task row was finished elsewhere |
| EmbeddingJob.BlobRoundTrip | crates/core/src/embed.rs:451-466 | decoding an encoded vector gives it back, four bytes per element |
| EmbeddingJob.BlobReencodes | crates/core/src/embed.rs:451-466 | encoding a decoded blob gives it back exactly when its length is a multiple of four |
| EmbeddingJob.ScopedChunks | crates/core/src/db.rs:279-292 | the chunks of a source are exactly those whose document belongs to it |
| EmbeddingJob.MissingChunks | crates/core/src/db.rs:304-319 | the missing chunks are exactly those without a row of the model |
| EmbeddingJob.StoreRows | crates/core/src/embed.rs:498-519 | a stored batch has one vector per chunk, made from its own text, and touches no other row |
| EmbeddingJob.BatchKeepsGoal | crates/core/src/embedding_job.rs:126-138 | after any number of stored chunks, what is left is the rest, and finishing leads to the same table |
| EmbeddingJob.CompleteMeaning | crates/core/src/embedding_job.rs:98-152 | a finished table has a vector for every chunk of the source, keeps every row it had and adds no other |
| EmbeddingJob.JobVector | crates/core/src/embedding_job.rs:98-138 | the vector a job finishes with for a chunk that had none comes from the chunk's own text and the configured provider, a saved TF-IDF state going before a new one |
| EmbeddingJob.ChunkDb.MissingBatch | crates/core/src/db.rs:326-374 | the page is the first missing chunks in id order, at least one if any is missing |
| EmbeddingJob.ChunkDb.StoreBatch | crates/core/src/embed.rs:498-519 | the upsert loop equals the batch as a whole |
| EmbeddingJob.ChunkDb.PersistBatch | crates/core/src/embedding_job.rs:254-278 | an embedder failure, a wrong count and a cancelled checkpoint each occur as an error exactly on the prepared answer and leave the table as it was; otherwise the batch is stored whole |
| EmbeddingJob.CutCourse | crates/core/src/embedding_job.rs:126-138 | whatever cuts a job in a batch, checkpoint or embedder, it ends with exactly that error and exactly the batches before it stored; if nothing is left it ends without one |
| EmbeddingJob.QuietCourse | crates/core/src/embedding_job.rs:126-138 | a job that no prepared answer stops stores everything |
| EmbeddingJob.CourseMeaning | crates/core/src/embedding_job.rs:126-138 | however a job goes, the finished table stays its goal, and one that was stopped has used up an answer |
| EmbeddingJob.ChunkDb.EmbedLoop | crates/core/src/embedding_job.rs:126-138 | the loop that re-reads the first missing page does what the course of the prepared answers says |
| EmbeddingJob.ChunkDb.PrepareEmbedder | crates/core/src/embedding_job.rs:104-121 | the start of a job: which error stops it, which answers it uses and which state it saves |
| EmbeddingJob.RebuildMeaning | crates/core/src/embedding_job.rs:171-230 | wherever a rebuild is cut, other models are untouched and the rebuilt table stays its goal |
| EmbeddingJob.ChunkDb.EmbedMissing | crates/core/src/embedding_job.rs:126-138 | the loop ends with the error, the number of stored chunks and the answers left that its course foretells; on success the table is the finished one, on failure the finished table is still the goal |
| EmbeddingJob.ChunkDb.LoadOrBuildTfIdf | crates/core/src/embedding_job.rs:232-252 | the state is the saved one or one built from all chunks, and saving it does not change which state a later job uses |
| EmbeddingJob.ChunkDb.RunSource | crates/core/src/embedding_job.rs:98-152 | a first checkpoint that cancels changes nothing, an unready provider is reported exactly then, and error, stored prefix and saved state are exact; embedded plus skipped is the number of chunks; success leaves the uninterrupted job's table, failure keeps it reachable |
| EmbeddingJob.ChunkDb.RunUntilDone | crates/core/src/embedding_job.rs:98-152 | for every batch size per attempt and every schedule of failures, repeating ends, with the same table as one uninterrupted run |
| EmbeddingJob.ChunkDb.RebuildAll | crates/core/src/embedding_job.rs:171-230 | success leaves exactly the rebuilt table and counts every chunk; other models are untouched even on failure; a first checkpoint that cancels changes nothing, and error and stored prefix of a cut rebuild are exact; cut after its deletion it keeps the rebuilt table as its goal |
| EmbeddingJob.CompleteUnion | crates/core/src/embedding_job.rs:98-152 | finishing two sets of chunks one after the other is finishing their union |
| EmbeddingJob.ChunkDb.EmbedSources | crates/core/src/embedding_job.rs:98-152 | retried jobs of several sources leave the table with all of their chunks finished |
| EmbeddingJob.ResumeRebuild | crates/core/src/embedding_job.rs:171-230 | a rebuild that was cut, finished by the jobs of all sources, leaves the table of an uninterrupted rebuild |
| EmbeddingJob.RebuiltRows | crates/core/src/embedding_job.rs:171-230 | a rebuilt table has exactly one vector per chunk for the model, all from the fresh state |
| Dreaming.GenerateCount | crates/core/src/dreaming.rs:447-473 | a generator creates as many rows as it has suggestions without a row, up to its limit |
| Dreaming.GenerateRows | crates/core/src/dreaming.rs:858-899 | what it creates is pending, proposed and new, and no suggestion gets a second row |
| Dreaming.RunProgress | crates/core/src/dreaming.rs:164-179 | a run creates nothing exactly when everything proposed has a row |
| Dreaming.FreshMeaning | crates/core/src/dreaming.rs:868-881 | the candidates the inserting loop accepts are the distinct ones without a row, in order of first mention |
| Dreaming.GenerateExact | crates/core/src/dreaming.rs:447-473 | a generator appends exactly the first of those, as many as its limit allows |
| Dreaming.RunSlices | crates/core/src/dreaming.rs:164-179 | the rows a run adds split into one consecutive slice per generator, of length the least of its limit, the budget left and its suggestions without a row |
| Dreaming.RunRows | crates/core/src/dreaming.rs:164-179 | a run leaves every row alone and adds only new, pending, proposed ones |
| Dreaming.RepeatedRunsConverge | crates/core/src/dreaming.rs:164-179 | after at most as many runs as suggestions lack a row there is exactly one row per distinct suggestion, and further runs are idle |
| Dreaming.KindWithinProposers | crates/core/src/dreaming.rs:447-570 | of each kind a run creates at most the limit for every generator that proposes it |
| Dreaming.ForecastExact | crates/core/src/dreaming.rs:164-179 | a run of the five generators appends exactly what table, proposals and budget foretell; generators of different kinds do not see each other |
| Dreaming.ForecastSizes | crates/core/src/dreaming.rs:164-179 | the first three shares, from the numbers of suggestions without a row and the budget left |
| Dreaming.KindCounts | crates/core/src/dreaming.rs:1264-1273 | how many rows of each kind a run creates |
| Dreaming.KindExceedsLimit | crates/core/src/dreaming.rs:1264-1273 | a kind exceeds the limit exactly when new memories and health contradictions, or health gaps and knowledge gaps, together do |
| Dreaming.KindReachesTwiceTheLimit | crates/core/src/dreaming.rs:1264-1273 | eight memories and eight contradictions become sixteen rows of one kind under the default budget |
| Dreaming.HistoryEvolves | crates/core/src/dreaming.rs:311-445 | over every history of runs, applies, edits, undos and rejections rows stay, statuses only go forward, and decided rows keep their payload |
| Dreaming.HistoryKeepsKeys | crates/core/src/dreaming.rs:858-899 | without edits every row keeps its suggestion and no suggestion gets a second row |
| Dreaming.DecidedNeverReappears | crates/core/src/dreaming.rs:858-899 | without edits an applied, rejected or undone suggestion has no other row in any later state |
| Dreaming.StepMeaning | crates/core/src/dreaming.rs:311-445 | which status each decision needs and sets, without naming the steps' own definition |
| Dreaming.ApplyThenUndo | crates/core/src/dreaming.rs:311-420 | undoing right after applying succeeds exactly when the payload undoes |
| Dreaming.RejectedIsFinal | crates/core/src/dreaming.rs:396-445 | in every history a rejected row stays rejected, and every later undo of it is refused |
| Dreaming.UndoneIsFinal | crates/core/src/dreaming.rs:396-445 | and so for a row that was undone |
| Dreaming.EditKeepsUnique | crates/core/src/dreaming.rs:338-394 | an edit keeps suggestions distinct exactly when no other row has the edited payload |
| Dreaming.EditedReappears | crates/core/src/dreaming.rs:338-394 | an edited suggestion that is still proposed gets a second, pending row after at most as many runs as suggestions lack a row |
| Dreaming.Inbox.InsertArtifact | crates/core/src/dreaming.rs:858-899 | a row is added exactly when none has the same kind and payload, in any status |
| Dreaming.Inbox.CreateArtifacts | crates/core/src/dreaming.rs:447-473 | the generator loop does what the specification says and returns the rest of the budget |
| Dreaming.Inbox.StartRun | crates/core/src/dreaming.rs:164-179 | the five generators in order stay within the budget, 24 unless requested otherwise and from 1 to 100, and create nothing only when nothing is missing |
| Dreaming.Inbox.ApplyArtifact | crates/core/src/dreaming.rs:311-336 | refused unless pending and appliable, with the error exact; otherwise the row's status is applied, its key is unchanged and every other row is as it was |
| Dreaming.Inbox.UpdateArtifact | crates/core/src/dreaming.rs:338-394 | refused unless pending; otherwise the payload changes, kind and status stay and every other row is as it was |
| Dreaming.Inbox.UndoArtifact | crates/core/src/dreaming.rs:396-420 | refused unless applied and undoable, with the error exact; otherwise the row's status is undone and every other row is as it was |
| Dreaming.Inbox.RejectArtifact | crates/core/src/dreaming.rs:422-445 | refused unless pending; otherwise the row's status is rejected and every other row is as it was |
| EntityLinks.NormalizeGivesNormalForm | crates/core/src/compile.rs:240-262 | every normalized name is lower-case ASCII words separated by single underscores |
| EntityLinks.NormalizeRelationMeaning | crates/core/src/compile.rs:240-262 | the normalizer changes exactly the names not in normal form, and is idempotent |
| EntityLinks.UpsertSound | crates/core/src/compile.rs:628-672 | an upsert keeps names normal and ids unique |
| EntityLinks.UpsertAt | crates/core/src/compile.rs:647-648 | a confirmed link rises by at least a tenth or is at one, is at least as strong as the evidence, and other links stay |
| EntityLinks.StrengthGrows | crates/core/src/compile.rs:647-648 | after k confirmations among any upserts the strength is one or at least the first plus k tenths |
| EntityLinks.MergeEvidence | crates/core/src/compile.rs:647-659 | a confirmation loses nothing: the longer snippet, the newer document, the higher confidence and strength stay, and only what was given before or now |
| EntityLinks.EvidenceKept | crates/core/src/compile.rs:647-659 | what any upsert of a history says about a link stays covered by the link in the end |
| EntityLinks.AddLinkOk | crates/core/src/dreaming.rs:959-992 | applying succeeds exactly when the references exist and the name is in normal form; otherwise the link is stored and reported lost, or nothing happens |
| EntityLinks.RelationRequestMeaning | crates/core/src/dreaming.rs:959-975 | which fields a relation artifact needs, and that source, target, name, document and strength are those of the payload |
| EntityLinks.MergeRequestMeaning | crates/core/src/dreaming.rs:994-1013 | likewise for a merge, with `same_as` as the default name |
| EntityLinks.ApplyThenUndo | crates/core/src/dreaming.rs:1084-1133 | undoing a new edge restores the table exactly; undoing an existing one is refused |
| EntityLinks.UndoAfterConfirmations | crates/core/src/dreaming.rs:1104-1133 | undoing a new edge after any confirmations leaves what they would have left without it: those of the same edge are lost, all others stay |
| EntityLinks.MergeRequestRefused | crates/core/src/dreaming.rs:994-1001 | a merge is refused exactly when an entity is missing or both are the same |
| EntityLinks.DefaultMergeNeverLost | crates/core/src/dreaming.rs:1002-1031 | a merge without a relation name of its own succeeds exactly when both entities exist |
| EntityLinks.LinkTable.UpsertLink | crates/core/src/compile.rs:628-672 | a reference to a missing entity or document is refused; otherwise one link is inserted or updated |
| EntityLinks.LinkTable.Apply | crates/core/src/dreaming.rs:959-1031 | finding, upserting and finding again by the given name gives the specified table and answer |
| EntityLinks.LinkTable.ApplyRelation | crates/core/src/dreaming.rs:959-992 | a relation artifact succeeds exactly with all fields, known references and a name in normal form |
| EntityLinks.LinkTable.ApplyMerge | crates/core/src/dreaming.rs:994-1031 | a merge artifact succeeds exactly with two different known entities and a name in normal form |
| EntityLinks.LinkTable.DeleteLink | crates/core/src/dreaming.rs:1228-1235 | the deletion removes exactly the links with the id and reports whether there were any |
| EntityLinks.LinkTable.Undo | crates/core/src/dreaming.rs:1104-1133 | an application that is not undoable, or whose link is gone, leaves the table as it was |
| ContextPack.PickPartition | crates/core/src/context_pack.rs:253-269 | selected and omitted items together are the items given |
| ContextPack.PickExact | crates/core/src/context_pack.rs:253-269 | under a budget below the largest, the total is the exact sum and within the budget |
| ContextPack.PickUnlimited | crates/core/src/context_pack.rs:253-269 | without a budget, or with the largest, nothing is omitted and the total saturates |
| ContextPack.PickDecision | crates/core/src/context_pack.rs:253-269 | each item is omitted exactly when it would overflow after the items selected before it |
| ContextPack.SectionsSplit | crates/core/src/context_pack.rs:197-214 | the prompt of a sorted pack is its stable sections followed by its volatile ones |
| ContextPack.PackIgnoresOrder | crates/core/src/context_pack.rs:245-271 | the same items in any order give the same pack |
| ContextPack.OffersIgnoreOrder | crates/core/src/context_pack.rs:231-271 | offering the same differently named items in any order gives the same pack |
| ContextPack.FirstOfferWins | crates/core/src/context_pack.rs:231-243 | of two offers under one id the first is kept, so their order matters |
| ContextPack.PackMeaning | crates/core/src/context_pack.rs:245-271 | permutation, order, sections, budget and totals of every assembled pack |
| ContextPack.PackOrder | crates/core/src/context_pack.rs:245-252 | stable items first, among equally stable ones higher priority first, then the smaller id |
| ContextPack.OmittedForCause | crates/core/src/context_pack.rs:253-269 | an omitted item would overflow the budget in the place of any selected item that comes after it, which is therefore smaller |
| ContextPack.SectionsMeaning | crates/core/src/context_pack.rs:197-214 | the sections are exactly the visible texts of the items, one for each |
| ContextPack.ContextAssembler.Add | crates/core/src/context_pack.rs:231-243 | a repeated id is an error, a blank item uses its id up, any other item is kept |
| ContextPack.ContextAssembler.Assemble | crates/core/src/context_pack.rs:245-271 | the loop returns the specified pack of everything offered |
| Appearance.PutAllFind | crates/core/src/appearance.rs:50-62 | replace-or-push leaves, under every id, the last theme given, and ids unique |
| Appearance.NormalizeEstablishes | crates/core/src/appearance.rs:48-83 | normalizing fails exactly on an invalid theme and otherwise makes active, previous, ids and file-backed ids consistent |
| Appearance.NormalizeFixed | crates/core/src/appearance.rs:48-83 | a consistent registry is its own normal form |
| Appearance.MutateInv | crates/core/src/appearance.rs:293-313 | a stored operation is refused exactly when its guard says so, keeps the invariant, and raises the revision by at most one |
| Appearance.HistoryInv | crates/core/src/appearance.rs:293-313 | after any sequence of operations the invariant holds and the revision rose by at most their number |
| Appearance.RollbackTwice | crates/core/src/appearance.rs:207-217 | rolling back twice restores active and previous |
| Appearance.RemoveLeavesNoTrace | crates/core/src/appearance.rs:219-237 | a removed theme is gone from themes, file-backed ids, active and previous, and nothing else is |
| Appearance.RemoveChoosesActive | crates/core/src/appearance.rs:219-237 | which theme is active and which is remembered after a custom theme is removed |
| Appearance.ActivateOutcome | crates/core/src/appearance.rs:194-205 | activating keeps all themes, remembers the old one and raises the revision exactly when the theme changes |
| Appearance.HydrateOutcome | crates/core/src/appearance.rs:85-101 | the first hydration takes themes and active theme over, later ones change nothing |
| Appearance.ProjectionOutcome | crates/core/src/appearance.rs:164-176 | a committed projection tracks exactly those of its ids that have a theme |
| Appearance.ApplyInstalls | crates/core/src/appearance.rs:178-192 | an applied theme is installed and active, and the theme before it is remembered |
| Appearance.NothingVanishesTwice | crates/core/src/appearance.rs:120-146 | after one reconciliation no tracked file is missing without protection |
| Appearance.ReconcileKeeps | crates/core/src/appearance.rs:103-162 | a reconciliation keeps a theme exactly when a file declares it, it was not tracked, or it is protected |
| Appearance.ReconcileTwice | crates/core/src/appearance.rs:103-162 | reconciling again changes nothing exactly when no two files disagree under one id, or the revision is at its maximum |
| Appearance.ConflictingFilesKeepBumping | crates/core/src/appearance.rs:147-161 | two disagreeing files raise the revision at every scan |
| Appearance.PutInPlace | crates/core/src/appearance.rs:147-157 | the search loop replaces the theme with the id or pushes, and reports whether anything changed |
| Appearance.MergeFiles | crates/core/src/appearance.rs:147-157 | the merge loop equals putting the files one by one |
| Appearance.NormalizePlugins | crates/core/src/appearance.rs:50-62 | the normalizer's loop stops at the first invalid theme and otherwise deduplicates |
| Appearance.AppearanceStore.MutateRegistry | crates/core/src/appearance.rs:293-313 | the row keeps the invariant, and an error leaves it as it was |
| MockReplay.MockReplayEvents | crates/core/src/eval_harness.rs:763-939 | the loop returns the specified log |
| MockReplay.LogLength | crates/core/src/eval_harness.rs:763-954 | numbers 1 to n with n two plus two per approval and per tool call |
| MockReplay.LogBrackets | crates/core/src/eval_harness.rs:785-887 | between its two ends the log is adjacent pairs: request with its resolution, start with its completion, under the same ids |
| MockReplay.LogLayout | crates/core/src/eval_harness.rs:785-887 | the place in the log of every approval and every call; the approval with an index is resolved right before the call with that index starts |
| MockReplay.LogEnds | crates/core/src/eval_harness.rs:889-939 | the log ends in an error exactly for a failed outcome; status and message of the last event |
| MockReplay.CompletedShown | crates/core/src/eval_harness.rs:860-887 | a completion says failed exactly for an erroneous call, and completed otherwise |
| MockReplay.ErrorCallMeaning | crates/core/src/eval_harness.rs:1247-1260 | a recorded flag decides whether a call is erroneous, and the status does without any flag |
| MockReplay.ResolvedShown | crates/core/src/eval_harness.rs:806-816 | an approval says denied exactly for a refusing decision |
| MockReplay.DecisionsKept | crates/core/src/eval_harness.rs:1279-1295 | reading the decision back from the log gives the decision of the recorded approval |
| MockReplay.RequestNamesTool | crates/core/src/eval_harness.rs:788-796 | a request is about the tool the approval names, or the call beside it |
| MockReplay.RecordedIdsKept | crates/core/src/eval_harness.rs:1210-1277 | recorded call and request ids are kept |
| MockReplay.SlugKept | crates/core/src/eval_harness.rs:956-973 | a trajectory id of letters, digits, underscores and inner dashes goes into run and turn id as it is |
| MockReplay.LogIsWellFormed | crates/core/src/eval_harness.rs:763-973 | every trajectory's log passes the validator of runtime turns |
| MockReplay.LogMeetsDurableContract | crates/core/src/agent_run.rs:1112-1156 | every event of the log meets the durable contract of its kind |
| MockReplay.ToolsReadBack | crates/core/src/eval_harness.rs:1127-1132 | the log names every call, by its own name or its position |
| MockReplay.ReplayKeepsToolSequence | crates/core/src/eval_harness.rs:1117-1133 | the sequence read back equals the recorded names exactly when every call is named |
| TfIdf.CountCorpus | crates/core/src/embed.rs:274-287 | the loops count every term and every document of a term, however sets are walked |
| TfIdf.BuiltVocabulary | crates/core/src/embed.rs:290-309 | the vocabulary is a bijection onto positions, one per distinct term up to 2048 |
| TfIdf.BuiltTopTerms | crates/core/src/embed.rs:290-292 | it holds the terms that come first by count and then by name, in that order |
| TfIdf.KeptIsFrequent | crates/core/src/embed.rs:290-292 | a dropped term occurs at most as often as any kept one, and terms are dropped only when the vocabulary is full |
| TfIdf.RarerWeighsMore | crates/core/src/embed.rs:298-309 | for every increasing logarithm a term weighs less exactly when it is in more documents |
| TfIdf.BuildIgnoresOrder | crates/core/src/embed.rs:267-309 | vocabulary and weights depend neither on the order of documents nor on any hash-map order |
| TfIdf.EmbedTokens | crates/core/src/embed.rs:331-355 | the loop, with its index accesses, returns the specified weights or stops at the first access out of range |
| TfIdf.WeightsDefined | crates/core/src/embed.rs:349-354 | it runs through exactly when every known term it meets has a valid index |
| TfIdf.SafeForAllTexts | crates/core/src/embed.rs:312-360 | no text and no walk makes a restored embedder index out of range exactly when all of its indices are valid |
| TfIdf.BuiltIsRestorable | crates/core/src/embed.rs:312-319 | a built embedder is restored as it was and is safe |
| TfIdf.WeightsMeaning | crates/core/src/embed.rs:348-355 | at each index stands the weight of the last term walked there, or zero |
| TfIdf.WalkIndependence | crates/core/src/embed.rs:348-355 | the vector never depends on how terms are walked exactly when terms that share an index have no weight |
| TfIdf.BuiltHasNoClash | crates/core/src/embed.rs:298-302 | a built embedder has no such terms |
| Vectors.CauchySchwarz | crates/core/src/embed.rs:439-448 | the squared dot product is at most the product of the squared lengths |
| Vectors.CosineRange | crates/core/src/embed.rs:439-448 | cosine similarity lies between minus one and one |
| Vectors.CosineMeaning | crates/core/src/embed.rs:439-448 | the similarity with a zero vector is zero; otherwise it is the one number that, times both lengths, is the dot product |
| Vectors.NormalizedLength | crates/core/src/embed.rs:427-434 | normalizing gives squared length one or leaves a zero vector |
| Vectors.CosineOfNormalized | crates/core/src/embed.rs:427-448 | on normalized non-zero vectors cosine is the dot product |
| Vectors.NormalizeTwice | crates/core/src/embed.rs:427-434 | normalizing twice is normalizing once |
| Vectors.L2Normalize | crates/core/src/embed.rs:427-434 | the in-place loop divides every element by the norm, or changes nothing |
| Vectors.CosineSimilarity | crates/core/src/embed.rs:439-448 | the similarity of two stored vectors: in range, zero for a zero vector, and otherwise the dot product over both lengths |
| ClaimGraph.EscapeUnfold | crates/core/src/event_claim_graph.rs:577-582 | three replacements escape character by character; later passes leave earlier escapes alone |
| ClaimGraph.LikeLiteral | crates/core/src/event_claim_graph.rs:577-582 | an escaped term in a pattern stands for itself and nothing else |
| ClaimGraph.LikeIsContains | crates/core/src/event_claim_graph.rs:513-519 | the pattern matches exactly the texts that contain the term, ignoring ASCII case |
| ClaimGraph.FilterIsRelevance | crates/core/src/event_claim_graph.rs:501-537 | with a term, the query selects exactly the project's non-rejected claims that score at least one; without one, all of them |
| ClaimGraph.AgreementCondition | crates/core/src/event_claim_graph.rs:584-590 | filter and score agree on every lower-case term exactly when both lower-casings of the statement agree |
| ClaimGraph.AsciiStatementsAgree | crates/core/src/event_claim_graph.rs:584-590 | they do on ASCII statements |
| ClaimGraph.KelvinSignMissed | crates/core/src/event_claim_graph.rs:584-590 | a statement the score finds and the query misses |
| ClaimGraph.RankedIsBest | crates/core/src/event_claim_graph.rs:420-427 | the query fetches the newest matches, three times the limit, and the ranking keeps the best of those |
| ClaimGraph.KeptClaims | crates/core/src/event_claim_graph.rs:420-427 | no claim left unfetched is newer than a fetched one; a kept claim matches at least as many terms as a dropped one and is at least as recent on a tie; kept claims come in that order |
| ClaimGraph.StatementParts | crates/core/src/event_claim_graph.rs:513-519 | a term without a space is in the statement exactly when it is in subject, relation or object |
| ClaimGraph.Distribute | crates/core/src/event_claim_graph.rs:434-448 | the loop puts every claim into its bucket, in rank order |
| ClaimGraph.BucketsPermutation | crates/core/src/event_claim_graph.rs:434-448 | the buckets are a permutation of the claims exactly when every claim has a bucket |
| ClaimGraph.NormalizedHasBucket | crates/core/src/event_claim_graph.rs:134-150 | among normalized states only a rejected, active claim has none |
| ClaimGraph.ClaimTable.Create | crates/core/src/event_claim_graph.rs:213-252 | an unknown project or a blank text is refused; the stored row has the trimmed texts, cut at 2000 characters, and normalized states |
| ClaimGraph.ClaimTable.Review | crates/core/src/event_claim_graph.rs:369-386 | exactly the row with the id changes, to a normalized state |
| ClaimGraph.ClaimTable.BuildPlan | crates/core/src/event_claim_graph.rs:412-467 | the plan's claims are a permutation of the ranked ones, and the conclusion is the first supporting claim |
| Permissions.EncodeIsOnePass | crates/core/src/approval.rs:389-394 | three replacements equal one look at each character |
| Permissions.EncodeInjective | crates/core/src/approval.rs:389-394 | different segments have different encodings |
| Permissions.PermissionKeyInjective | crates/core/src/approval.rs:151-158 | two keys have the same text exactly when they are equal |
| Permissions.Decode | crates/core/src/approval.rs:396-416 | the byte loop returns the specified decoding |
| Permissions.SegmentRoundTrip | crates/core/src/approval.rs:389-416 | decoding an encoded segment gives its bytes as characters, which is the segment exactly when it is ASCII |
| Permissions.KeyRoundTrip | crates/core/src/approval.rs:151-170 | parsing a formatted key always succeeds and returns it exactly when it is ASCII |
| Permissions.DedupKeepsFirstHit | crates/core/src/approval.rs:656-670 | dropping repeated candidates never changes a lookup |
| Permissions.Candidates | crates/core/src/approval.rs:656-670 | the loop returns the four levels without repetitions |
| Permissions.StoreOne | crates/core/src/approval.rs:500-510 | storing or removing a policy under its text touches no other policy |
| Permissions.StoreForeignText | crates/core/src/approval.rs:500-510 | a text that no key formats to touches no policy at all |
| Permissions.LookupIsMostSpecific | crates/core/src/approval.rs:493-498 | on a table that holds policies the lookup by text is the lookup by key |
| Permissions.MoreSpecificWins | crates/core/src/approval.rs:656-670 | a policy for the key goes before one for its kind, that before one for its tool, and that before one for all |
| Permissions.SessionApprovalStore.Resolve | crates/core/src/approval.rs:493-498 | the lookup returns the most specific policy that exists |
| Permissions.SessionApprovalStore.Set | crates/core/src/approval.rs:500-504 | any text is stored under itself |
| Permissions.SessionApprovalStore.Remove | crates/core/src/approval.rs:506-510 | any text is removed, and no other |
| Permissions.SessionApprovalStore.Clear | crates/core/src/approval.rs:512-516 | no policy is left |
| Citations.ExtractCitations | crates/core/src/citations.rs:4-25 | on every text the scan ends with the cited ids, once each, in order of first use |
| Citations.ExtractInvertsPrint | crates/core/src/citations.rs:4-25 | extraction of printed references gives their ids, all in order when distinct |
| Citations.CitedAreCitable | crates/core/src/citations.rs:15-19 | every extracted id is trimmed, non-empty and free of brackets and bars |
| Citations.ExtractPrintExtract | crates/core/src/citations.rs:4-25 | printing what was extracted and extracting again gives the same citations |
| Companion.ValidatePack | crates/core/src/companion.rs:354-426 | the validator accepts exactly the packs that meet every limit, however animations are walked |
| Companion.ValidateTracks | crates/core/src/companion.rs:482-515 | likewise for normalized tracks |
| Companion.GridExact | crates/core/src/companion.rs:517-550 | in an accepted grid no multiplication saturates: cells, sheet edges and decoded bytes |
| Companion.BudgetMeaning | crates/core/src/companion.rs:540-550 | the decoded-bytes check is four bytes per pixel of the whole sheet |
| Companion.AnimationAccepted | crates/core/src/companion.rs:404-424 | an animation is accepted exactly when its cells lie in one row of the grid, its rate is from 1 to 60 and its fallback is another animation |
| Companion.StartExact | crates/core/src/companion.rs:650-654 | in an accepted animation neither operation saturates and the end lies inside its row |
| Companion.NormalizedFrames | crates/core/src/companion.rs:650-660 | all cells of the animation, in order, none lost by the sixteen-bit conversion, all inside the grid; rate, loop and fallback as authored |
| Companion.FramesReadBack | crates/core/src/companion.rs:650-660 | row and column of every frame can be read back from its number |
| Companion.AcceptedNormalizes | crates/core/src/companion.rs:644-675 | every accepted manifest normalizes to a valid grid and valid tracks under the same names |
| Companion.SupplementLookTracks | crates/core/src/companion.rs:600-612 | the insertion loop equals the specification |
| Companion.WithLooksMeaning | crates/core/src/companion.rs:600-612 | authored tracks stay; exactly the missing directions are added |
| Companion.SupplementValid | crates/core/src/companion.rs:600-612 | a valid map stays valid exactly when the directions it lacks are inside the grid |
| Companion.DefaultTracksValid | crates/core/src/companion.rs:561-634 | both default track tables are valid for their atlases |
| Companion.DefaultGridsValid | crates/core/src/companion.rs:552-559 | both default grids pass the grid check |

## Left out

- SQLite, migrations, PRAGMAs and the transaction machinery: tables are values and a transaction is one step. Foreign keys of links are modelled; cascades are not.
- Pause checkpoints of the run-event outbox, restart recovery, delivery to listeners and the projections of task rows other than the closed flag: they do not write closing events.
- The final check of a turn after its barrier and the error texts of the session: a turn counts as past its barrier when waiting for the terminal commit succeeded.
- RunSession.ReceiveOutcome: whether an output delta is the first text of its block, which is then never kept back, is a free choice of the step; both cases are covered.
- LLM providers, the executor, ONNX inference, HTTP embedding and downloads: foreign calls; the executor is an arbitrary stream of events.
- `canonicalize`, path safety of assets, image decoding and manifest files: a canonical path is an opaque value and path safety a parameter.
- Tokenization of texts for TF-IDF: a document is its list of tokens.
- `narrative_query_terms`, query classification and the event query of a narrative plan: terms are any list of strings without ASCII capitals.
- How dream candidates are found: each generator has a fixed list of candidates, as between two runs over unchanged data. Dream scopes are left out with it.
- Applying dream artifacts other than links: success of applying or undoing them is a parameter of the life cycle.
- ClaimGraph.RankedIsBest: claims with equal `updated_at` are fetched in table order, where SQLite leaves the order of ties open.
- Rounding of floats: strengths, weights and vectors are exact reals.
- `RunEvents` keeps the fields that contracts and closing depend on; labels, phases and presentation are left out, as are the descriptive fields of context items, themes and claims.
- Encryption, hashing and the approval risk classifier: library code or labels.
- The React front end, the Office add-in, Python scripts and the behavioural evaluations: user interface and input/output.
