# Verified model of the MESA projection, ingestion and context core

MESA keeps facts in SQLite and derives from them a vector store and a Kùzu graph, its
*projections*. This project models the code that rebuilds and swaps those projections, admits
documents into them, reads them back into a bounded context, and the algorithms underneath
whose fast form must equal a simple one. Everything is stated for all inputs, all
interleavings and all crash points, and proved with Dafny 4.11 (`dafny verify dfyconfig.toml`).

| file | what it models |
|---|---|
| `Operations.dfy`, `Generations.dfy`, `Cutover.dfy` | the fenced operation row, the projection generations with the single runtime pointer, and the offline runner's parity-gated cutover with any number of live and stale runners |
| `Attempts.dfy` | where a failed attempt of the cutover leaves the runtime, and what can follow it |
| `Replay.dfy`, `Parity.dfy` | resumable replay of a snapshot into a staging generation, and the parity check that gates the cutover |
| `StagedCutover.dfy` | cutover, replay and parity as one system: runners, superseded ones included, write into the same staging stores while the protocol goes on |
| `KuzuMigration.dfy` | the journalled artifact swap, with a possible crash before every journal write and rename |
| `Chunking.dfy`, `Ingestion.dfy` | lossless chunking against an arbitrary tokenizer, and uploads that pin one plan across interrupted attempts |
| `GraphProof.dfy`, `ContextPacking.dfy` | choosing one complete graph proof, and packing evidence into a token budget |
| `CitationSweep.dfy`, `SpanEnds.dfy`, `NumberText.dfy`, `TurkishNumbers.dfy` | the citation overlap sweep, prefix-maximum span suppression with parenthesis pairing, and Turkish number words |
| `LruCache.dfy`, `KeyedLocks.dfy`, `Sessions.dfy` | the LRU/TTL cache, keyed async locks, and single-flight session creation over both |
| `KuzuCache.dfy` | the graph provider's write-through identity caches under transactions |
| `Wrappers.dfy` | option, result and outcome types |

## How to read the model

Code that updates state is a class or a loop proved against a specification function or
relation; protocols with several processes (cutover, keyed locks, sessions) are step systems
over values, one durable or suspension-free effect per step, and their theorems quantify over
every sequence of steps. In `Cutover` the step functions `Prepare`, `Gate` and `Conclude`
follow the runner from claim to completion; `Take`, `Crash`, `Abort`, `Lapse`, `RetryOperation`
and `CancelOperation` may happen at any moment. `KuzuMigration` and `Replay` get a list of
fates or a fuel: when it runs out the process is dead wherever it stands. `KuzuMigration.After` is
what one process leaves on disk; the coordinator's methods are proved to leave exactly that, and
the theorems about crashes and histories are about it.

`StagedCutover` puts the three parts of a rebuild together. Its main results: the staging stores
always hold the image of the first rows of the snapshot, whoever wrote them
(`StoresHoldAPrefix`); while the runtime names the rebuilt generation, its stores hold exactly
the projection of the snapshot (`ActiveTargetIsExact`); and from every reachable world whose
operation is pending, claimed, running or failed with retries, the rebuild can still complete if
and only if the source is active and the snapshot meets three conditions (`RestartCompletesIff`,
from the beginning `CompletesIff`): it passes the replayer's checks, no ordered pair of
assertions carries two relations, and each of its first ten smoke cases is found by a search
among the vector rows.

One snapshot serves all attempts: the first preparation records the source manifest hash and
later ones must match it.

Results that say *when* the code meets its promise, because it does not always do so:

- The graph merges assertion links on their endpoints, while the primary key of the link table
  also holds the relation. Replay is exact, and the stores agree with the snapshot, if and only
  if no ordered pair of assertions carries two relations (`FullReplayIsProjection`,
  `ReplayedStorePassesIff`). `ParallelLinksPass` and `ParallelLinksFailParity` give a snapshot
  that passes every check and fails. The key and the ownership check accept such a pair; the one
  writer of the table in the repository inserts only SUPERSEDES (`mesa_storage/dao.py:5541-5543`),
  so today it can come only from another writer.
- The retrieval smoke cases include entity vectors with a dataset, while the vector lane replays
  assertion vectors only. A verification can therefore pass only if every one of the first smoke
  cases has a vector row, and where no dataset holds more vectors than a search returns that is
  enough (`RetrievableIff`). `EntityVectorIsNeverFound` and `OneEntityVectorNeverCompletes` give
  a snapshot that is owned, replays exactly and agrees with its replay, and whose rebuild can
  never complete; `EntityVectorBlocks` is the general case. Such artifacts are written by
  `project_v4_vector_entity` (`mesa_storage/dao.py:4965-4978`).
- Parity accepts page sizes up to 10000 but the snapshot reader refuses pages above 1000, so
  larger sizes work only on empty lanes (`Parity.Verify`, `LargePageIsRefused`).
- Runner names need not be distinct (the source uses `v4-rebuild-{pid}`, which two hosts can
  share). The results above do not depend on it; but a namesake's outer failure handler may mark
  an operation failed that another process is running, and nothing more
  (`NamesakeOnlyMarks`).
- RETRYABLE_FAILED does not mean that the source generation is active. An attempt that fails
  leaves the target active if and only if the target was active at its claim or the attempt
  passed the guard of the activation, and it did not pass the guard of the rollback
  (`FailsAtTargetIff`). Both ways of failing there are reached: by a first attempt that was never
  interrupted and whose verifications both passed (`FirstAttemptFailsAtTarget`), and by every
  recovery that stops before or fails its first verification (`RecoveryFailureKeepsTarget`);
  such interrupted cutovers are reached with and without the graph (`InterruptionIsReached`).
  An operation that failed this way is stuck: no retry of it completes or rolls back
  (`StrandedForEver`).
- A cutover that was cut short is resumed if and only if the graph is enabled, because the
  rebuilt preparation drops the provider manifest; otherwise the runner is refused and marks the
  operation failed wherever the runtime stands (`RecoveryResumesIff`). With the graph enabled and
  effects that go well, the recovery ends COMPLETED if and only if the target is active or still
  staged; otherwise a rollback had happened before its record, and the operation fails with the
  source active (`RecoveryCompletesIff`). If its post-cutover check fails, the source is active
  again and target and operation have failed (`RecoveryRollsBack`).
- A new migration whose process dies after any number of its effects, and which is then run again,
  leaves the disk of one uninterrupted run if and only if the death came before the first effect,
  with the artifact staged, or with the first of two renames done (`RerunCompletesIff`). After any
  other death (while building, after VALIDATED, after SWAPPING before the first rename, or after
  the only rename of a migration without a live artifact) nothing ever finishes it
  (`AbandonedForEver`).
- The original of a migration is at live or a rollback path if and only if no rollback found it
  live, passed its guard and lived to make its first rename (`KuzuMigration.History`); undoing
  two promotions in the order in which they were made does (`UndoOutOfOrder`).
- A partly admitted revision that fits both chunking plans is refused even under the setting
  it started with; a fully admitted one never is (`Ingestion.Revision.Upload`). The two chunkers
  do produce such plans (`AmbiguousUnderItsOwnSetting`).
- A graph proof reported as not compacted still shows exactly the memory's facts if and only if
  every fact names its assertion and facts of one assertion coincide (`UncompactedIsWhole`).
- The identity caches stay inside the graph if and only if assertions are inserted after their
  endpoints and a node deletion both finds the cached assertions attached to the nodes and
  finishes (`PresenceIff`, `CoherentIff`). Skipping a cached insert does what the uncached
  statement would do if and only if the assertion already has the links to the ends that the
  insert names, or one of those ends is missing (`SkipEqualsMergeIff`); so it always does when an
  id is always inserted with the same ends (`FixedEndsAreHarmless`). `AbsentEndpointIsLost` is the
  shortest failing history, `UnfinishedDeletionIsStale` the one of a failed lookup or write.
- Lower-casing does not know Turkish: a dotless capital gets a dot. "KIRK" and "ALTI" are still
  read, because the table holds their dotted spellings, and "ALTMIŞ" is not. A text that spells
  the number words of n, in any spelling and case, parses to n if it does not write sixty with a
  dotted "altmış", and otherwise not at all (`RoundTrip`); from their capitals exactly the
  numbers without a sixty among their words are read back (`CapitalsRoundTrip`).

## Model

| member | source | states |
|---|---|---|
| Operations.HistoryIsMonotone | mesa_storage/repositories/operations.py:332-690 | over any history of claims, renewals, transitions, cancellations and retries, the fence, the attempts and the progress never go back and an announced total never changes |
| Operations.SupersededClaimIsRefused | mesa_storage/repositories/operations.py:392-512 | once a newer claim exists, every later transition or renewal under the old one is refused |
| Operations.TransitionIff | mesa_storage/repositories/operations.py:32-46 | a transition succeeds exactly under the current unexpired claim, to the next stage, the same one (but not CLAIMED) or a failure, naming an error exactly when it fails, retryably only with attempts left, with progress that neither goes back nor exceeds or changes the total and is complete from VERIFYING on; it writes what it names, and ending gives the claim up |
| Operations.ActsOnlyUnderItsClaim | mesa_storage/repositories/operations.py:407-512 | a transition or renewal succeeds only under the recorded runner, token and fence while the lease is valid |
| Operations.LapsedClaimIsRefused | mesa_storage/repositories/operations.py:407-512 | once the lease has lapsed every claim is refused until there is a new one |
| Operations.EndsAreFinal | mesa_storage/repositories/operations.py:32-46 | COMPLETED, FINAL_FAILED and CANCELLED are never left |
| Operations.EndsStay | mesa_storage/repositories/operations.py:32-46 | an end state is kept even under a claim that still looks good |
| Generations.ProjectionGenerationRepository.UpdateLifecycle | mesa_storage/projection_generations.py:513-540 | a lifecycle column changes only by compare-and-set |
| Generations.ProjectionGenerationRepository.CreateStaging | mesa_storage/projection_generations.py:348-457 | succeeds exactly for a fenced RUNNING claim on a new, STAGING or FAILED generation of the same identity, leaves exactly that generation STAGING, and changes nothing otherwise |
| Generations.ProjectionGenerationRepository.Activate | mesa_storage/projection_generations.py:459-567 | moves the pointer exactly when claim, expected active id, runtime fence and both lifecycles agree; retires the source and advances the fence; all or nothing |
| Generations.ProjectionGenerationRepository.Rollback | mesa_storage/projection_generations.py:621-728 | restores the retained generation exactly under its guard, fails the target and advances the fence; all or nothing |
| Generations.EveryInterleavingIsCoherent | mesa_storage/projection_generations.py:348-728 | over all interleavings exactly one generation is ACTIVE and it is the runtime's, the previous one is another and RETAINED, and the pointer is unchanged while its fence is |
| Generations.RunTakesEveryCommand | mesa_storage/projection_generations.py:348-728 | every committed transaction of an interleaving takes effect, in order |
| Generations.StalePointerIsRefused | mesa_storage/projection_generations.py:495-512 | a fence read before any pointer change is refused for ever, even after activate-then-rollback restored the same active id |
| Generations.FailedGenerationIsAlwaysRestageable | mesa_storage/projection_generations.py:400-440 | the "still retained" refusal to restage a FAILED generation is unreachable |
| Generations.RollbackUndoesActivation | mesa_storage/projection_generations.py:621-728 | activate then rollback restores every generation but the target, which is FAILED, and leaves the fence two further |
| Cutover.RunKeepsInv | mesa_storage/rebuild_cutover.py:328-554 | every step of any runner, live or stale, any crash, lapse or operator action keeps the protocol invariant |
| Cutover.CutoverIsSafe | mesa_storage/rebuild_cutover.py:374-526 | in every run the pointer is the source or the target; it moved only under a claim whose parity passed since the previous movement; it is at the target exactly after such a move; COMPLETED implies target active, source retained and a post-cutover verification since the move |
| Cutover.StaleRunnerIsHarmless | mesa_memory/rebuild_runner.py:228-495 | no effect of a process whose claim was superseded reaches the database, and no effect of any process does, its outer failure handler included, while the row does not carry the name it runs under |
| Cutover.NamesakeOnlyMarks | mesa_memory/rebuild_runner.py:173-225 | whatever names processes share, one that did not make the current claim changes nothing but, through its outer failure handler and only while the row carries its name, the operation's state to failed |
| Cutover.CompletedIsFinal | mesa_storage/rebuild_cutover.py:478-526 | after COMPLETED nothing any runner or operator does changes rows or pointer |
| Attempts.FailsAtTargetIff | mesa_storage/rebuild_cutover.py:360-554 | in every run, from any claim to the next: the target is active exactly when it was at the claim or the attempt passed the guard of the activation, and the attempt did not pass the guard of the rollback |
| Attempts.FirstAttemptFailsAtTarget | mesa_storage/rebuild_cutover.py:478-487 | from every unstarted operation with retries left, a first attempt whose verifications both passed ends RETRYABLE_FAILED with the target active when publishing raises |
| Attempts.AnUnstartedOperation | mesa_storage/repositories/operations.py:332-385 | a concrete operation to which this applies |
| Attempts.InterruptionIsReached | mesa_storage/rebuild_cutover.py:374-437 | from every unstarted operation, with or without the graph, a first attempt that dies after its last verification leaves an interrupted cutover with the target active |
| Attempts.ReachedInterruption | mesa_storage/rebuild_preparation.py:456-533 | every cutover cut short in any run has its checkpoint complete and is open to a new runner |
| Attempts.RecoveryResumesIff | mesa_storage/rebuild_preparation.py:456-533 | a recovered runner goes on exactly when the graph is enabled; otherwise it is refused and marks the operation failed with the runtime unchanged |
| Attempts.RecoveryFailureKeepsTarget | mesa_storage/rebuild_cutover.py:360-404 | from every interrupted cutover with the target active, a recovered run that stops before its first verification, and one that fails it, records RETRYABLE_FAILED with the target still active |
| Attempts.RecoveryCompletesIff | mesa_storage/rebuild_cutover.py:422-487 | from every interrupted cutover with the graph enabled, a claim and nine effects that go well end COMPLETED with the target active exactly when the pointer had moved or the target is still staged, and otherwise the operation fails with the source active |
| Attempts.RecoveryRollsBack | mesa_storage/rebuild_cutover.py:437-498 | a recovery whose post-cutover check fails ends with the source active, the target failed and the operation failed, retryably exactly when an attempt is left |
| Attempts.InterruptedAnywhere | mesa_storage/rebuild_cutover.py:346-359 | a current attempt that is stopped at any step, and one with nothing to resume, ends failed, retryably exactly when an attempt is left, with the runtime where it was |
| Attempts.UnverifiedEnds | mesa_storage/rebuild_cutover.py:360-404 | the same for an attempt that is stopped before, fails or is stopped after its first verification |
| Attempts.VerifyingIsNotResumed | mesa_storage/rebuild_preparation.py:456-533 | an operation left in VERIFYING is not resumed: a new claim is refused and the operation fails |
| Attempts.StrandedRetryFails | mesa_storage/projection_generations.py:400-440 | a retry that finds its target active passes preflight and fails at staging, leaving the runtime where it was |
| Attempts.StrandedForEver | mesa_storage/projection_generations.py:400-440 | once the operation has failed, been retried or been reclaimed with its target active, no action of any runner or operator completes it or moves the runtime |
| Cutover.PrepareStep | mesa_storage/rebuild_preparation.py:347-454 | every effect of preparation and replay checkpointing keeps the protocol invariant |
| Cutover.GateStep | mesa_storage/rebuild_cutover.py:346-436 | every effect from lease renewal to the pointer movement keeps it |
| Cutover.ConcludeStep | mesa_storage/rebuild_cutover.py:437-554 | post-verification, rollback, completion and failure recording keep it |
| Cutover.OperatorsDecide | mesa_storage/repositories/operations.py:626-690 | a cancellation takes effect exactly on PENDING and RETRYABLE_FAILED, a retry exactly on RETRYABLE_FAILED with attempts left; either voids the claim and touches nothing else |
| Cutover.ResumesOnlyWhole | mesa_storage/rebuild_preparation.py:456-533 | in any world, a cut-short cutover is taken up again exactly when both generations are recorded, the target is its own, the replay is complete and the runtime stands at the recorded source, or at the target with that source retained |
| Cutover.PublishesOnlyAtTarget | mesa_storage/rebuild_cutover.py:501-510 | a runner publishes exactly when its last verification passed and the runtime names the target |
| Replay.GraphWritesOnlyAdd | mesa_storage/kuzu_provider.py:832-903 | a vector is overwritten; in the graph nothing that is there is changed or taken away |
| Replay.AbsentEndpointWritesNothing | mesa_storage/kuzu_provider.py:832-903 | a row with a missing endpoint writes nothing |
| Replay.ImageIsExact | mesa_storage/rebuild_replay.py:664-745 | after any prefix of a replayable row sequence the stores hold exactly what those rows ask for, and the next row's MATCH finds its endpoints |
| Replay.ReapplyIsNoOp | mesa_storage/rebuild_replay.py:597-634 | re-applying any row already applied changes nothing |
| Replay.OwnedSnapshotIsReplayable | mesa_storage/rebuild_replay.py:230-284 | the ownership check and the lane order give every graph row its endpoints earlier |
| Replay.ParallelLinksPass | mesa_storage/rebuild_replay.py:230-284 | two assertions linked by both relations pass the query guarantees and the ownership check |
| Replay.FullReplayIsProjection | mesa_storage/kuzu_provider.py:884-903 | a full replay equals the projection if and only if no assertion pair has two relations |
| Replay.Rebuild.ApplyBatch | mesa_storage/rebuild_replay.py:664-745 | a batch interrupted at any write leaves the image of a prefix of the rows |
| Replay.Rebuild.ReplayPage | mesa_storage/rebuild_replay.py:597-634 | a page advances its lane's offset only after its rows are applied, and progress is the sum of the offsets |
| Replay.UnownedIff | mesa_storage/rebuild_replay.py:230-284 | the ownership check refuses a snapshot exactly for an unknown relation, a link across scopes or an assertion whose subject or object is no entity of it |
| Replay.AcceptedIff | mesa_storage/rebuild_replay.py:437-491 | without source identities no provider is needed; otherwise a manifest is accepted exactly when every identity and the manifest itself are complete and, if it names no space of its own, it names the only identity |
| Replay.ProvidedIff | mesa_storage/rebuild_replay.py:437-491 | some manifest can serve a replay exactly when every source identity is whole and, if anything is to be embedded, there is one |
| Replay.Rebuild.Replay | mesa_storage/rebuild_replay.py:500-662 | reaches VERIFYING or is refused for a bad batch size, a failed ownership check or a manifest that does not provide for the snapshot; the checkpoint checks never fire; enough effects always finish it |
| Replay.ReplayInAttempts | mesa_storage/rebuild_replay.py:542-651 | any pattern of batch sizes, crashes and resumes ends at VERIFYING with the projection exactly when no two links are parallel |
| Parity.GroupByAgent | mesa_storage/rebuild_cutover.py:182-210 | grouping a page by agent keeps exactly its identities |
| Parity.CountMissing | mesa_storage/rebuild_cutover.py:182-210 | one page counts exactly the identities the store lacks, in any agent order |
| Parity.CountMissingInLane | mesa_storage/rebuild_cutover.py:182-210 | for every accepted page size no identity is skipped or counted twice |
| Parity.CompareCounts | mesa_storage/rebuild_cutover.py:284-291 | missing is exactly the sum over the four lanes of how far the stored count falls short of the expected one, orphans of how far it exceeds it, and both are zero exactly when all four are equal |
| Parity.LaneAgrees | mesa_storage/rebuild_cutover.py:272-308 | nothing missing and equal cardinality exactly when the identity sets are equal |
| Parity.SmokeCase | mesa_storage/rebuild_cutover.py:212-270 | a smoke case is found exactly when its own search returns it, and neither scope failure can arise |
| Parity.Verify | mesa_storage/rebuild_cutover.py:117-312 | passes if and only if the bounds hold, the stores are healthy, identities and link counts agree and each of the first smoke cases is found; success and mismatch report the expected and actual counts, as missing the count shortages, the absent identities and the smoke cases not found, and as orphans the count surpluses |
| Parity.LargePageIsRefused | mesa_storage/rebuild_replay.py:335-347 | a page size within the bounds is refused on a lane with one row |
| Parity.RetrievableIff | mesa_storage/rebuild_replay.py:349-391 | the first smoke cases can be retrieved only if each has a vector row, and exactly then where no dataset holds more vectors than a search returns |
| Parity.ReplayedStorePassesIff | mesa_storage/rebuild_cutover.py:117-312 | what a finished replay leaves behind passes exactly when no two links are parallel and every smoke case is retrieved from the vector rows |
| Parity.EntityVectorPasses | mesa_storage/rebuild_replay.py:230-284 | a snapshot with one entity vector passes every check before the verification |
| Parity.EntityVectorIsNeverFound | mesa_storage/rebuild_replay.py:370-385 | its finished replay agrees with it and still never passes the verification |
| Parity.ParallelLinksFailParity | mesa_storage/kuzu_provider.py:884-903 | the finished replay of that snapshot is not the projection and fails parity |
| StagedCutover.StoresHoldAPrefix | mesa_storage/rebuild_replay.py:597-651 | over all interleavings of runners writing the same staging stores, superseded ones to the end of their batch, the stores hold exactly what the first rows ask for, no fewer than the row announces, and all of them from VERIFYING on |
| StagedCutover.SupersededFetchesNothing | mesa_storage/rebuild_replay.py:597-612 | a runner that cannot renew its lease gets no further batch and stops, with stores and database as they were |
| StagedCutover.ActiveTargetIsExact | mesa_storage/rebuild_cutover.py:374-436 | over all those interleavings, while the target is active its stores hold exactly the projection of the snapshot |
| StagedCutover.CompletesIff | mesa_memory/rebuild_runner.py:228-400 | a rebuild can reach COMPLETED if and only if its snapshot passes the replayer's checks, no assertion pair has two relations and each of the first smoke cases can be retrieved from the vector rows |
| StagedCutover.RestartCompletesIff | mesa_memory/rebuild_runner.py:228-400 | from every reachable world with the operation pending, claimed, running or failed with retries, COMPLETED can still be reached if and only if moreover the source is active |
| StagedCutover.EntityVectorBlocks | mesa_storage/rebuild_replay.py:349-391 | a rebuild with an unmatched entity vector among its first smoke cases never completes, whatever the vector engine |
| StagedCutover.OneEntityVectorNeverCompletes | mesa_storage/dao.py:4965-4978 | a concrete snapshot that passes every check and can never complete |
| KuzuMigration.ReplaceConserves | mesa_storage/kuzu_migration.py:367-393 | a rename onto a free path loses and duplicates no artifact |
| KuzuMigration.Coordinator.Run | mesa_storage/kuzu_migration.py:89-203 | for every state of journal and disk: leaves exactly the disk that the effects which happened make, and succeeds exactly when the process lives through the effects still needed; then a new or staged migration is one swap, an interrupted swap is finished by the missing rename, a promoted one is untouched; only the one artifact shown to an accepting validator becomes trusted; a stuck or foreign record is refused |
| KuzuMigration.Finishes | mesa_storage/kuzu_migration.py:89-203 | a migration that lives through the effects it needs ends PROMOTED by exactly one swap of the new or the staged artifact, by the one missing rename, or unchanged |
| KuzuMigration.PromotedIff | mesa_storage/kuzu_migration.py:89-203 | a run succeeds exactly when it leaves its migration PROMOTED with something live |
| KuzuMigration.BoundToItsArguments | mesa_storage/kuzu_migration.py:99-110 | a missing argument, and a known id with another fingerprint or version, change nothing |
| KuzuMigration.StuckIff | mesa_storage/kuzu_migration.py:111-130 | the known migrations that a run refuses unchanged are exactly those it can neither resume nor keep |
| KuzuMigration.BuilderDecides | mesa_storage/kuzu_migration.py:151-176 | STAGED for an artifact left by a builder that asks to be resumed, FAILED for any other builder that does not end well; the artifact stays where it was built and nothing else changes |
| KuzuMigration.ValidatorDecides | mesa_storage/kuzu_migration.py:178-185 | an interrupted validation leaves everything as it was, a rejection fails the migration and keeps the artifact |
| KuzuMigration.RefusedRenameIsJournalled | mesa_storage/kuzu_migration.py:383-389 | a refused second rename is journalled as SWAP_RECOVERY_REQUIRED, with nothing live |
| KuzuMigration.RerunCompletesIff | mesa_storage/kuzu_migration.py:105-203 | a new migration cut off after any number of effects and run again leaves the disk of one uninterrupted run if and only if the death was survivable, and is otherwise unchanged and abandoned |
| KuzuMigration.AbandonedForEver | mesa_storage/kuzu_migration.py:114-130 | whatever is run or undone afterwards, an abandoned migration keeps its journal entry and is never promoted |
| KuzuMigration.Coordinator.ValidateAndPromote | mesa_storage/kuzu_migration.py:160-203 | trusted grows by exactly the staged artifact and only if the validator accepts it; the disk and the success are exactly those its verdict and the fates allow |
| KuzuMigration.Coordinator.Promote | mesa_storage/kuzu_migration.py:367-393 | the two renames happen once, each onto a free path, between the journal's SWAPPING and PROMOTED; a refused second rename is journalled; the disk is stated at every interruption |
| KuzuMigration.Coordinator.RecoverInterruptedSwap | mesa_storage/kuzu_migration.py:395-422 | recovers exactly the two half-done states with a backup, finishing the second rename exactly once, and refuses everything else unchanged |
| KuzuMigration.Coordinator.RollBack | mesa_storage/kuzu_migration.py:205-244 | succeeds exactly under its guard and a living process, and states what is on disk after an interruption anywhere; no artifact is lost |
| KuzuMigration.UndoRecordsLast | mesa_storage/kuzu_migration.py:228-241 | the journal says ROLLING_BACK from the first effect to the last and ROLLED_BACK only once both renames are done; between the two nothing is live |
| KuzuMigration.Coordinator.MaxToken | mesa_storage/kuzu_migration.py:306-310 | one more than the result is the next token: above every journalled one and no higher than needed |
| KuzuMigration.History | mesa_storage/kuzu_migration.py:89-244 | over any sequence of processes dying anywhere, every disk is the one its predecessor and the command determine, no artifact is lost, live shows only the original or an artifact that some command's own validator was shown and accepted, and the original stays outside staging, at live or a rollback path exactly when no undo found it live, passed its guard and lived to make its first rename |
| KuzuMigration.UndoOutOfOrder | mesa_storage/kuzu_migration.py:205-244 | a history that promotes two migrations and undoes them in the same order ends with the original set aside and the first promotion live |
| KuzuMigration.RollbackUndoesPromotion | mesa_storage/kuzu_migration.py:205-244 | rollback after promotion puts back what was live and keeps the promoted artifact aside |
| PathNames.NamesAreDistinct | mesa_storage/kuzu_migration.py:110-135 | different journal paths never get the same name, whatever string the migration id is |
| Chunking.LookbackReadsWholeWord | mesa_memory/document_chunking.py:43-63 | the 64-character look-back reads the same word as a scan of the whole window |
| Chunking.LargestCut | mesa_memory/document_chunking.py:73-90 | exponential and binary search end at a fitting, non-empty cut that one more character would break or the ceiling stops, for any tokenizer |
| Chunking.NaturalEndIsBoundary | mesa_memory/document_chunking.py:91-97 | the boundary is the end of the last paragraph break of the window; without one the end of its last sentence mark that ends a sentence; without one of those the end of its last mark; without any the whole window |
| Chunking.SentenceEndReads | mesa_memory/document_chunking.py:43-63 | '!' and '?' end a sentence, and a period does unless the whole word before it, however long, is an abbreviation, one letter or a number |
| Chunking.NextEnd | mesa_memory/document_chunking.py:91-106 | a slice ends at the natural boundary of such a cut, moved back no further than the token bound demands; the boundary is the one stated below |
| Chunking.ChunkDocument | mesa_memory/document_chunking.py:66-107 | terminates with non-empty slices within both bounds that concatenate to the input and end where the rules say |
| Chunking.ChunkLegalDocument | mesa_memory/document_chunking.py:110-123 | lossless and bounded as well, and every article heading starts a chunk when it splits by article |
| Ingestion.FullPlanIsUnique | mesa_api/v4_router.py:1377-1381 | a plan whose chunks all stand in another plan of the same content is that plan |
| Ingestion.Revision.ChoosePlan | mesa_api/v4_router.py:1348-1393 | an attempt follows the pinned plan or is refused exactly when the admitted chunks fit two different plans |
| Ingestion.Revision.Upload | mesa_api/v4_router.py:1348-1475 | admits only further chunks of the pinned plan, finishes with the whole content, and never rejects a fully admitted revision |
| Ingestion.AmbiguousUnderItsOwnSetting | mesa_api/v4_router.py:1377-1393 | for a concrete content and tokenizer the two chunkers make plans with the same first chunk, and the revision is refused after one admitted chunk although the setting never changed |
| Ingestion.Uploads | mesa_api/v4_router.py:1433-1469 | over any sequence of interrupted uploads and setting changes the admitted chunks are a prefix of the plan of the first admission, finalized last |
| Ingestion.IngestDocument | mesa_api/v4_router.py:1348-1469 | with the chunkers' own plans, every admitted chunk is within the bounds and a finished upload spells the content, whatever the tokenizer, separators and interruptions |
| Ingestion.AssignArticles | mesa_api/v4_router.py:1394-1432 | the forward-only heading sweep gives every chunk the article of the last heading at or before its start |
| Ingestion.ChunkLiesInItsArticle | mesa_api/v4_router.py:1394-1432 | when headings start chunks, every character of a chunk lies in the article the chunk is given |
| GraphProof.LessIsTotal | mesa_memory/context_builder.py:93-113 | path names are totally ordered |
| GraphProof.LessIsPrecedes | mesa_memory/context_builder.py:93-113 | the order is the one of code points: a name is less exactly when it is a proper prefix of the other or has the smaller character at the first difference |
| GraphProof.CompleteIff | mesa_memory/context_builder.py:47-92 | a path counts as complete exactly when it is named, leads to the principal assertion, has one more entity than steps, one direction and predicate per step, and each step names a fact of the memory |
| GraphProof.SelectPath | mesa_memory/context_builder.py:47-112 | deduplicating by structure and taking the head of the sorted rest gives a complete path that no complete path undercuts in length, the least in name among those of its length, and counts their structures |
| GraphProof.BestIsUnique | mesa_memory/context_builder.py:102-112 | there is one best path |
| GraphProof.BestIsShortest | mesa_memory/context_builder.py:102-112 | the best path is a shortest complete one and of those the one least by name |
| GraphProof.MinimumProof | mesa_memory/context_builder.py:115-144 | an atomic memory shrinks to exactly one fact per step of its shortest complete path, each the last fact of its assertion, or not at all |
| GraphProof.UncompactedIsWhole | mesa_memory/context_builder.py:136-143 | when "not compacted" really means that nothing was dropped |
| GraphProof.AnonymousFactIsDropped | mesa_memory/context_builder.py:136-143 | a fact without an assertion id is dropped from a proof that reports no compaction |
| ContextPacking.Prepare | mesa_memory/context_builder.py:479-502 | every renderable memory gets its minimum, in rank order |
| ContextPacking.ViewIsWhole | mesa_memory/context_builder.py:466-478 | what is costed is the entity and every fact of every memory, in order |
| ContextPacking.FilterViable | mesa_memory/context_builder.py:504-519 | viable are exactly the candidates whose minimum fits alone; the others are rejected with their reason |
| ContextPacking.ReservePair | mesa_memory/context_builder.py:527-543 | reserves the earliest candidate with a fitting partner and its earliest partner, or shows that no pair fits |
| ContextPacking.AnchorLeads | mesa_memory/context_builder.py:527-543 | the anchor outranks its partner |
| ContextPacking.FillGreedily | mesa_memory/context_builder.py:545-557 | a position is selected exactly when reserved or fitting with what was selected before it |
| ContextPacking.Select | mesa_memory/context_builder.py:527-557 | the selection fits, holds something when anything is viable, and holds two when any pair fits |
| ContextPacking.SelectionIsMaximal | mesa_memory/context_builder.py:545-557 | with a monotone cost no further viable minimum can be added |
| ContextPacking.Retain | mesa_memory/context_builder.py:559-568 | every viable candidate is kept in rank order or rejected, once |
| ContextPacking.EnrichOne | mesa_memory/context_builder.py:577-593 | atomic evidence is upgraded whole if that fits; other evidence gains facts up to the first that does not fit |
| ContextPacking.Enrich | mesa_memory/context_builder.py:570-593 | the pass settles every kept memory in rank order against what precedes it, within the budget |
| ContextPacking.TrimSessions | mesa_memory/context_builder.py:599-617 | keeps the longest prefix of the session that fits |
| ContextPacking.RetainedXorRejected | mesa_memory/context_builder.py:559-568 | each renderable memory is retained or rejected, exactly one of the two, exactly once |
| ContextPacking.Pack | mesa_memory/context_builder.py:466-617 | tokens never exceed the budget; the order is kept; each kept memory is whole, one best path or a non-empty prefix of facts; only a context without memories is ever emptied |
| CitationSweep.FillBuckets | mesa_storage/legal_identity.py:666-673 | the buckets hold the raw matches by start, in raw order |
| CitationSweep.Compare | mesa_storage/legal_identity.py:679-699 | one newcomer marks exactly what the pairwise rule marks between it and the active matches |
| CitationSweep.NewcomerOnlyMeetsActive | mesa_storage/legal_identity.py:676-678 | matches that have ended cannot interact with a newcomer |
| CitationSweep.Sweep | mesa_storage/legal_identity.py:660-700 | the one-pass sweep marks exactly the matches the all-pairs rule marks |
| CitationSweep.Survivor | mesa_storage/legal_identity.py:682-699 | every raw match leads to a surviving match of its code, and of its article when it had one |
| CitationSweep.SurvivesIff | mesa_storage/legal_identity.py:679-699 | a match survives exactly when no match that names an article of its code touches it, if it has none, and otherwise when every overlapping match of its article is shorter, or equally long and later |
| CitationSweep.Deduplicate | mesa_storage/legal_identity.py:700-709 | keeps exactly the first survivor of every code and article |
| CitationSweep.ExtractCitations | mesa_storage/legal_identity.py:660-727 | every cited article once, every cited code present, every result a survivor that stands clear of all other matches |
| SpanEnds.ComputeSpanEnds | mesa_storage/legal_rules.py:27-39 | the array holds, at each position, the furthest end of any span starting there or before |
| SpanEnds.FarEndIsMaximum | mesa_storage/legal_rules.py:27-39 | that value answers as a search over all spans would |
| SpanEnds.ContainmentTest | mesa_storage/legal_rules.py:1042-1046 | `end <= ends[start]` exactly when some span contains the match |
| SpanEnds.OverlapTest | mesa_storage/legal_rules.py:336-337 | `ends[end - 1] > start` exactly when some span overlaps the match |
| SpanEnds.FilterOverlapping | mesa_storage/legal_rules.py:298-337 | written-out amounts are kept, in their order and as often as they occur, exactly when no amount in digits overlaps them |
| SpanEnds.FilterContained | mesa_storage/legal_rules.py:1034-1055 | a rule's matches are kept, in their order and as often as they occur, exactly when no span contains them |
| SpanEnds.ExtractOutcomes | mesa_storage/legal_rules.py:1034-1055 | a match is accepted exactly when no span accepted for an earlier rule contains it |
| SpanEnds.OutcomesCoverMatches | mesa_storage/legal_rules.py:1034-1055 | every match lies inside an accepted span |
| SpanEnds.MarkerSpans | mesa_storage/legal_rules.py:1075-1084 | the stack pairs each marker with the first position at which its own depth returns to zero |
| SpanEnds.PairsAreUnique | mesa_storage/legal_rules.py:1075-1084 | the pairing is one to one |
| SpanEnds.FilterDates | mesa_storage/legal_rules.py:1070-1093 | a date is suppressed exactly when it lies inside a reference or a closed amendment marker |
| NumberText.TokenizeWord | mesa_storage/legal_rules.py:92-104 | the nested loops compute the greedy tokens |
| NumberText.TokensOfConcat | mesa_storage/legal_rules.py:92-104 | for a prefix-free vocabulary greedy tokenizing undoes concatenation |
| NumberText.TextRoundTrip | mesa_storage/legal_rules.py:86-106 | splitting and tokenizing recover the words of any text whose lower-case form writes them with non-letters around and inside, and fail exactly when reading gets stuck |
| TurkishNumbers.WordsPrefixFree | mesa_storage/legal_rules.py:47-78 | no word of the table begins another |
| TurkishNumbers.ParseTurkishNumber | mesa_storage/legal_rules.py:81-127 | the loops, after lower-casing, compute the parse function used below |
| TurkishNumbers.NumberWordsAddUp | mesa_storage/legal_rules.py:108-127 | the three accumulators read the number words of every n below 10^12 back as n |
| TurkishNumbers.RoundTrip | mesa_storage/legal_rules.py:81-127 | every text that writes the number words of 1 <= n < 10^12 in any spelling, case and grouping parses to n, unless it writes sixty as a dotted "altmış", and then to nothing |
| TurkishNumbers.PrintRoundTrip | mesa_storage/legal_rules.py:81-127 | parsing undoes printing |
| TurkishNumbers.NumeralRoundTrip | mesa_storage/legal_rules.py:81-90 | a numeral is read as the number it shows, whatever zeros lead it and whatever blanks surround it |
| TurkishNumbers.NothingSpoken | mesa_storage/legal_rules.py:86-107 | a text that is no numeral and has no letters is no number, not even zero |
| TurkishNumbers.CapitalsRoundTrip | mesa_storage/legal_rules.py:81-127 | the Turkish capitals of n parse to n if and only if there is no sixty among its words, and otherwise to nothing |
| TurkishNumbers.CapitalSixtyIsRefused | mesa_storage/legal_rules.py:86-104 | a concrete refusal: "ALTMIŞ" is not a number |
| LruCache.BoundedLRUCache.Get | mesa_mcp/bounded_cache.py:28-38 | returns the stored value exactly when it is present and unexpired, and makes it the most recent |
| LruCache.BoundedLRUCache.Put | mesa_mcp/bounded_cache.py:40-49 | the entry becomes the most recent, evicting from the oldest end, never above the maximum |
| LruCache.BoundedLRUCache.SetDefault | mesa_mcp/bounded_cache.py:51-66 | keeps an unexpired value, otherwise stores the default |
| LruCache.BoundedLRUCache.Pop | mesa_mcp/bounded_cache.py:68-73 | removes and returns the entry |
| LruCache.BoundedLRUCache.Len | mesa_mcp/bounded_cache.py:79-82 | counts what is left after pruning |
| LruCache.TouchedIsLast | mesa_mcp/bounded_cache.py:28-66 | a touched key is the most recent one and only storing changes its entry |
| LruCache.Lifetime | mesa_mcp/bounded_cache.py:28-49 | a stored value is seen while its own time to live, or else the default one, has not passed since it was stored, and for ever without either |
| LruCache.EvictionSpares | mesa_mcp/bounded_cache.py:48-49 | eviction stops before an entry with fewer than the maximum of more recent keys |
| LruCache.LruTrace | mesa_mcp/bounded_cache.py:28-90 | after any run, an entry neither popped nor expired whose last touch is followed by touches of fewer than max distinct other keys is still there unchanged, and the size is bounded |
| KeyedLocks.BoundedAsyncKeyedLocks.BeginHold | mesa_mcp/bounded_cache.py:110-119 | joins or creates the key's entry, refused exactly at capacity |
| KeyedLocks.BoundedAsyncKeyedLocks.EndHold | mesa_mcp/bounded_cache.py:125-130 | releases, uncounts and deletes the entry with its last user |
| KeyedLocks.LocksAreSafe | mesa_mcp/bounded_cache.py:99-130 | over all interleavings one task per key is inside, `users` counts exactly the tasks in `hold`, and the dictionary holds exactly the keys in use, never above capacity |
| KeyedLocks.RefusedOnlyWhenFull | mesa_mcp/bounded_cache.py:113-116 | a newcomer is refused exactly when capacity-many other keys are in use |
| KeyedLocks.AcquiredOnlyWhenFree | mesa_mcp/bounded_cache.py:119-125 | a waiting task gets the lock exactly when no task is inside for its key |
| KeyedLocks.RunTakesEveryStep | mesa_mcp/bounded_cache.py:108-130 | a run is its steps taken one after another |
| KeyedLocks.EntryIsNeverReplaced | mesa_mcp/bounded_cache.py:127-130 | a key's entry stays the same while any task uses it |
| Sessions.SingleFlight | mesa_mcp/v4_service.py:61-92 | over all interleavings, between two successful session starts of one key its cached session expired, was evicted or was invalidated |
| Sessions.CallersShareTheSession | mesa_mcp/v4_service.py:76-112 | every caller gets a session started for its key and not dropped since |
| Sessions.ActKeepsInv | mesa_mcp/v4_service.py:61-112 | entering, checking, storing, failing and invalidating keep cache, locks and history in step |
| KuzuCache.KuzuGraphProvider.BeginTransaction | mesa_storage/kuzu_provider.py:583-593 | a nested BEGIN is refused before anything is staged |
| KuzuCache.KuzuGraphProvider.EndTransaction | mesa_storage/kuzu_provider.py:593-614 | commit publishes the staged identities, rollback discards them with the writes |
| KuzuCache.KuzuGraphProvider.InsertNode | mesa_storage/kuzu_provider.py:635-667 | writes and caches a node unless it is cached |
| KuzuCache.KuzuGraphProvider.InsertAssertion | mesa_storage/kuzu_provider.py:808-882 | caches an assertion whether or not its endpoints let it be written |
| KuzuCache.KuzuGraphProvider.DeleteNodes | mesa_storage/kuzu_provider.py:669-721 | deletes attached assertions and nodes and uncaches what the lookups found, stopping at a failed write |
| KuzuCache.KuzuGraphProvider.DeleteAssertions | mesa_storage/kuzu_provider.py:905-921 | deletes and uncaches exact assertions |
| KuzuCache.InsertedIsCached | mesa_storage/kuzu_provider.py:583-667 | an insert caches exactly its id at once, also inside a transaction, and a commit that succeeds keeps what is cached |
| KuzuCache.DeletionIsExact | mesa_storage/kuzu_provider.py:669-721 | a finished deletion takes out of the graph exactly the named assertions, or the named nodes and every assertion linked to one of them, and out of the caches the named ids and what the lookups found |
| KuzuCache.PresenceIff | mesa_storage/kuzu_provider.py:583-921 | with no assumption on the ends that inserts name, coherent caches hold only ids of the graph, and an operation keeps them so if and only if it is safe |
| KuzuCache.CoherentIff | mesa_storage/kuzu_provider.py:583-921 | the same when the ends of some assertion ids are known: what is cached stays present with those ends if and only if the operation is safe |
| KuzuCache.SkipEqualsMergeIff | mesa_storage/kuzu_provider.py:808-882 | the cached operation does what the uncached one does if and only if a skipped insert names ends it already has or that are missing |
| KuzuCache.FixedEndsAreHarmless | mesa_storage/kuzu_provider.py:808-882 | when an id is always inserted with the same ends no skip does harm |
| KuzuCache.CachedRunIsExact | mesa_storage/kuzu_provider.py:583-921 | over every run of safe operations and harmless skips the caches stay inside the graph and the graph is the one uncached MERGEs would produce |
| KuzuCache.RolledBackTransaction | mesa_storage/kuzu_provider.py:583-614 | a rolled back transaction restores graph and coherence however unsafe its writes were |
| KuzuCache.UnfinishedDeletionIsStale | mesa_storage/kuzu_provider.py:669-721 | a node deletion with a failed lookup or write leaves its assertion cached and its next insert skipped |
| KuzuCache.AbsentEndpointIsLost | mesa_storage/kuzu_provider.py:832-882 | an assertion inserted before its subject is cached, then skipped, and never written |

## Left out

- HTTP routes, clients, command lines, credentials, access control and configuration parsing: plumbing and single-branch checks.
- SQL, Cypher, LanceDB and Kùzu internals: replaced by maps and sets with the stated join, merge and transaction effects; one write connection is assumed, so nested BEGIN is refused.
- Path, symlink and lock-file system calls, disk capacity and backlog preflight: the migration lock is the sequential order of processes in `History`; preflight is the environment's choice in `Cutover`.
- Time: leases lapse at any moment (`leaseValid`), clock readings are parameters of the cache operations.
- Hashes (revisions, manifests, operation requests): compared as values, that is, taken to be injective. Embeddings are functions of the stored payload.
- Regular expressions (separators, headings, citations, dates, outcomes) and the tokenizer: parameters. The tokenizer is only assumed to count the empty string as 0 and single characters as at most 512.
- The activation class `ParityGatedActivator` is a step system, not a class, because its value is in interleavings with other runners.
- Progress events, drift events, representation marking of assertions, heartbeat tasks and the dimension check on each computed embedding batch: not part of this model.
- Parity.Verify: takes the vector search as a parameter that honours its filter and returns every candidate up to its limit, and the health probes as an input; the probe that counts at most 1000000 records is taken to count all of them.
- StagedCutover.RestartCompletesIff: says nothing of worlds in VERIFYING or READY_TO_CUTOVER, where it also matters who holds the lease and how many attempts are left; what a new claim makes of them is `Attempts.VerifyingIsNotResumed` and `Attempts.RecoveryCompletesIff`.
- StagedCutover: one verification reads the stores in one step; from VERIFYING on they do not change, so a longer reading sees the same. Projections written by normal traffic after the cutover are not part of this model.
- PathNames.NamesAreDistinct: compares names as strings; an id holding path separators or `..` may resolve to the same file on disk, and such ids are not modelled.
- KuzuMigration: journal writes are atomic and renames do not cross filesystems, as the source requires; no claim is made about an operating system that reorders them.
- Ingestion: queue back-pressure and disconnects are the interruption of an attempt; the earlier-revision and scope checks before admission are not modelled.
- ContextPacking: retrieval, record rendering, the de-duplication of retrieved evidence ids and the diagnostics counters; records enter numbered in rank order.
- CitationSweep: matches come as given spans; canonical names and aliases are looked up elsewhere.
- TurkishNumbers: lower-casing is taken character by character, without the context of a final sigma; `isdigit` is the ten ASCII digits and whitespace is the ASCII kind (other separators are non-letters and do not matter to the round trip).
- LruCache: the reentrant lock (calls are atomic) and a callable default, which is its value.
- KeyedLocks: the order in which waiters obtain a lock; any waiter may be next, which covers the first-come order.
- Sessions: the key is one string; distinct scopes that join to the same string share a session in the source as well.
- KuzuCache.CoherentIff: identities are pairs, not joined strings, so ids that contain the separator are not distinguished from their parts; a write racing with its own cache update from another task is not modelled.
- Observed edges, graph traversal, ranking scores and court-name cleaning: easy or heuristic next to the above.
