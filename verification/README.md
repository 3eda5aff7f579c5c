# Aksantara: checkpoint ledger and embedding releases, proved

A Dafny 4.11 model of the two stateful cores of Aksantara and of the small algorithms beside
them. `dafny verify dfyconfig.toml` checks all of it.

**The checkpoint driver** (`Ledger`, `Sessions`, `Driver`, `CrashResume`, `Gate`, `Workers`,
`Schedules`, `Lapses`, `Fencing`, `Lagging`, `Stale`, `Verdicts`, `Idempotency`,
`Answers`). A run processes a sorted list of selected keys one at a
time; each key is committed by replacing five JSON documents in a fixed order. Every single
replacement is atomic, the group is not.

- `Ledger` says what each document contains after n keys. `Sessions` says what one run or resume
  call does to a run directory when its process may die at any durable write (`fuse` is the number
  of writes it still completes). `Driver` is the imperative form: one class over the run
  directories of a caller root, each method proved to have exactly the effect of its session
  function.
- `CrashResume` is about histories with one live worker: what is torn, and what a finished resume
  restores. `Gate` is the candidate gate as a consumer of whatever such a history leaves.
- `Workers` lets any number of workers overlap, one step per file read or write, barriers and
  read-modify-write heartbeats included. `Schedules` connects it to the sessions and gives
  schedules that show what the fence does not prevent; `Lapses` says exactly which steps lose a
  row, hand the lease back or record an attempt twice.
- `Fencing` takes the same workers with two groups of steps made whole: a fence check with the
  writes it guards, and a heartbeat. Marker, drift mark, finalization, claim, loads and barriers
  stay single reads and writes. Its schedules are schedules of `Workers`. The resume lock is a
  condition on them: a resume call starts when no other is alive, while a run call never takes the
  lock. `Lagging` is about report and status under those schedules, `Stale` about the writers
  that look at no generation, `Verdicts` about what the gate then accepts and which steps take an
  acceptance back.
- `Idempotency` is about series of calls on one root: bindings, run ids, frozen runs. `Answers` says
  case by case what a run or resume call is answered and what it leaves.

**The release pipeline** (`Vectors`, `Planner`, `Work`, `BatchStore`, `Release`, `Incremental`,
`Registry`): delta plan, reuse or embed, create-only chunked batch, verification, and the
generation-token pointer.

**Beside them**: `Authority` (which source decides a record), `Selection` (order independence of
the preflight), `Retry` (the bounded transport loop), `RateLimit` (the token bucket over reals),
`Order` (lexicographic order and stable sorting), `Options` (absent values, blank texts).

Per-record processing, hashing, key normalization, the vector generator and the per-item lineage
joins of the gate are function parameters; nothing is assumed of them beyond what a `Valid`
predicate states (a hash has 64 digits, a generated vector has 768 numbers). Injected persistence
faults and crashes are the same thing to the model: the process stops writing at some write.

## Where the code falls short of its own description

- An interrupt point on the last key, or a death after the last outcomes write, leaves a run whose
  resume loop is empty: it never becomes terminal (`CrashResume.ResumeReachesTheEndIffKeysAreLeft`
  gives the exact condition, `CrashResume.StuckForGood` that no later resume helps). The same holds
  for a death between creation and the first running status (`CrashResume.CreatedForGood`).
- The interrupt marker looks at no generation. A run worker that was overtaken can still relabel a
  run that another worker completed, and so undo its eligibility
  (`Stale.StaleMarkerUndoesEligibility`; a passing run keeps passing exactly when
  `Verdicts.KeepsPassingIff` says). It reads the lease and writes it back, so it can hand the
  lease back to its own generation, and the next resume claims a generation that was already given
  out (`Stale.MarkerHandsTheLeaseBack`); it is the only one that does
  (`Fencing.OnlyTheMarkerHandsBack`).
- A drifted resume writes back the status it read when it was called, under a lock that the run
  call does not take: the status can fall behind the ledger even when commits are whole
  (`Stale.DriftSetsTheStatusBack`; `Lagging.CursorsAgreeIff` is the exact condition).
- Fence check and write are two steps, and so are the two halves of a heartbeat and the two loads
  of a resume: the ledger can lose rows it had, the lease can go back to the reclaimed worker, and
  an attempt can be recorded twice (`Schedules.LedgerCanRegress`,
  `Schedules.HeartbeatHandsTheLeaseBack`, `Schedules.AttemptCanBeRecordedTwice`). A schedule is
  free of the three exactly when it takes no step that `Lapses.RowsLostExactly`,
  `Lapses.LeaseLoweredExactly` and `Lapses.RecordedTwiceExactly` name.
- Seeding a new version rewrites `history.json` without its events, and in place
  (`Registry.SeedDropsEventsIffNew`); a promotion that dies between its two writes leaves no event,
  so that a retry of it is a conflict (`Registry.LostIsAConflict`). The version it made current is
  then unknown to rollback if it was not listed before (`Registry.LostPromotionCannotBeRolledBackTo`;
  `Registry.CurrentStaysMemberIff` is the exact condition). A first seed that dies within its write
  of the pointer leaves a root that never gets one (`Registry.DamagedForGood`).
- `verify_release` takes the id from the part of the file name before the first underscore
  (`Incremental.SeededReleaseVerifies` is the exact condition), and a file of an id that the
  manifest does not list passes the raw hash test exactly when one of its three hash fields is
  absent (`Release.UnlistedIdPassesIffAHashIsAbsent`).
- The timeout flag with a one-entry attempt sequence and a retry to spare is read as a success
  (`Retry.FallsThroughExactly`).
- The blocking form of the token bucket does not refuse amounts that are not positive, and the
  announced wait is too short after the clock has gone backwards
  (`RateLimit.NegativeAmountsOverfill`, `RateLimit.WaitSufficesIff`).
- The tests of the gate on selected keys, count and shortfall stand in the else branch of a
  conditional expression and refuse nothing (`Gate.DifferingSelectionPassesExactly`).

## Model

| member | source | states |
|---|---|---|
| Ledger.LedgerConserves | src/aksantara/ingest/checkpoint_execution.py:1450-1480 | every prefix of the deterministic ledger passes the report's conservation block, and its keys are pairwise distinct |
| Ledger.CountsSumToLength | src/aksantara/ingest/checkpoint_execution.py:1188-1260 | terminal and pending counts of any ledger add up to its length: no outcome escapes the two classes |
| Ledger.AcceptedExactly | src/aksantara/ingest/checkpoint_execution.py:1210-1255 | a key is listed as accepted iff an accepted row has it, as excluded iff another row has it, and the numbers match the counts |
| Ledger.KeysInOrder | src/aksantara/ingest/checkpoint_execution.py:1210-1255 | both lists follow the order of the ledger |
| Ledger.ReasonsExactly | src/aksantara/ingest/checkpoint_execution.py:476-511 | the exact condition for every completion reason |
| Ledger.CompletionExactly | src/aksantara/ingest/checkpoint_execution.py:474-516 | when the completion block says blocked, all outcomes final, and checkpoint complete |
| Ledger.DocumentsHold | src/aksantara/ingest/checkpoint_execution.py:530-655 | checkpoint, report and status of a commit field by field: cursor, selected keys, the number of rows with each outcome, final and pending counts, the state |
| Sessions.PutAllIsAPrefix | src/aksantara/ingest/checkpoint_storage.py:61-95 | a process with f writes left completes exactly the first f of any series of atomic replacements, and lives iff the series fits |
| Driver.CheckpointDriver.WriteState | src/aksantara/ingest/checkpoint_storage.py:61-95 | one replacement changes one document of one directory, or the process dies and nothing changes |
| Driver.CheckpointDriver.WriteGroup | src/aksantara/ingest/checkpoint_execution.py:530-655 | a group of replacements leaves what its prefix up to the death leaves, in the given order |
| Driver.CheckpointDriver.CountOutcomes | src/aksantara/ingest/checkpoint_execution.py:465-467 | the counting loop computes the tally of the ledger for all seven outcomes |
| Driver.CheckpointDriver.BuildReport | src/aksantara/ingest/checkpoint_execution.py:1188-1480 | the report equals the declared report of the ledger: state, counters, completion with its reasons, conservation |
| Driver.CheckpointDriver.CommitRevision | src/aksantara/ingest/checkpoint_execution.py:451-655 | fenced: nothing is written; else exactly the five documents of the revision in order outcomes, attempts, checkpoint, report, status, cut at the death |
| Driver.CheckpointDriver.MarkInterrupted | src/aksantara/ingest/checkpoint_execution.py:880-924 | lease, report and status are relabelled without any fence; an absent lease or report is skipped, and without a status the call ends in "not found" after the lease |
| Driver.CheckpointDriver.ProcessKey | src/aksantara/ingest/checkpoint_execution.py:252-404 | one turn of the loop has the effect of the session's turn, on its directory only |
| Driver.CheckpointDriver.ProcessKeys | src/aksantara/ingest/checkpoint_execution.py:252-404 | the whole loop from any cursor has the effect of the session loop, whatever write kills it |
| Driver.CheckpointDriver.CreateRun | src/aksantara/ingest/checkpoint_execution.py:47-145 | request, preflight, lease of generation 1 and the created status, in that order |
| Driver.CheckpointDriver.ExecuteRun | src/aksantara/ingest/checkpoint_execution.py:172-449 | opening status, loop and finalization of a fresh directory |
| Driver.CheckpointDriver.ResumeRun | src/aksantara/ingest/checkpoint.py:984-1188 | closed transitions, drift check with its blocked mark, lease reclaim with generation plus one, reload, loop |
| Driver.CheckpointDriver.Run | src/aksantara/ingest/checkpoint.py:808-919 | an existing binding, an existing directory or a new run, with bindings and directories as the root function says |
| Driver.CheckpointDriver.BindIdempotency | src/aksantara/ingest/checkpoint.py:1501-1527 | a binding is written once, a conflicting one is refused, and a death leaves the index alone |
| Driver.CheckpointDriver.RunNew | src/aksantara/ingest/checkpoint.py:856-913 | a persistence error before the request removes the directory again, a death leaves it; only a finished or interrupted run is bound |
| Driver.CheckpointDriver.Resume | src/aksantara/ingest/checkpoint.py:921-1202 | one resume call on the root, with the bound-key check |
| CrashResume.CommitSettles | src/aksantara/ingest/checkpoint_execution.py:530-655 | from any settled directory every prefix of a commit leaves a settled one, and only a stop between outcomes and attempts tears a row |
| CrashResume.DriveSettles | src/aksantara/ingest/checkpoint_execution.py:252-404 | the loop keeps a directory settled, and an account computed from the fuse alone says which rows were torn and how far the status lags |
| CrashResume.TornWriteAccounting | src/aksantara/ingest/checkpoint_execution.py:530-655 | over every history: status <= report <= checkpoint cursor <= outcomes, the lag is at most the crashes since the last complete commit, and outcomes minus attempt rows is exactly the number of crashes between the two writes, each of which tears a key of its own |
| CrashResume.FinishedResumeRestores | src/aksantara/ingest/checkpoint_execution.py:992-1085 | crash/resume equivalence: outcomes, checkpoint, status and the report's ledger equal those of the uninterrupted run; the attempts are restored iff nothing was torn |
| CrashResume.UninterruptedRun | src/aksantara/ingest/checkpoint_execution.py:172-449 | an undisturbed run finishes with all five documents at the full ledger |
| CrashResume.ResumeReachesTheEndIffKeysAreLeft | src/aksantara/ingest/checkpoint_execution.py:1011-1013 | an admitted, undisturbed resume ends completed or blocked iff it found fewer outcomes than selected keys; otherwise only the lease moves |
| CrashResume.StuckForGood | src/aksantara/ingest/checkpoint_execution.py:386-404 | a run with all outcomes but no terminal status keeps its documents under every later series of same-tuple resumes |
| CrashResume.CreatedForGood | src/aksantara/ingest/checkpoint.py:1022-1034 | a run that died before its first running status never changes again |
| Gate.SplitItems | src/aksantara/ingest/checkpoint_candidate.py:252-299 | members and excluded items partition the outcomes; members passed the lifecycle checks and their joins |
| Gate.Evaluate | src/aksantara/ingest/checkpoint_candidate.py:219-339 | eligible iff the checkpoint is complete, every item is admitted and the release approval is given; iff no reason is listed |
| Gate.GatePassesIffUninterrupted | src/aksantara/ingest/checkpoint_candidate.py:725-892 | over every history the lifecycle checks pass iff the five documents are those of an uninterrupted run, and then no commit was ever torn |
| Gate.OtherReportPasses | src/aksantara/ingest/checkpoint_candidate.py:725-892 | in a passing directory another report passes iff it agrees in state, the three counts, revision and completion |
| Gate.OtherStatusPasses | src/aksantara/ingest/checkpoint_candidate.py:725-892 | another status never passes |
| Gate.OtherCheckpointPasses | src/aksantara/ingest/checkpoint_candidate.py:725-892 | another checkpoint passes iff it agrees in revision, keys, counts, processed and terminal count |
| Gate.OtherAttemptsPass | src/aksantara/ingest/checkpoint_candidate.py:870-892 | another attempts file passes iff it agrees in its revision and has one logical attempt per key |
| Gate.OtherOutcomesPass | src/aksantara/ingest/checkpoint_candidate.py:725-892 | another outcomes file passes iff it agrees in revision and terminal count and has every selected key exactly once |
| Gate.CheckpointPassesExactly | src/aksantara/ingest/checkpoint_candidate.py:307-320 | a complete checkpoint is exactly an uninterrupted ledger over a full hundred keys with terminal outcomes only |
| Gate.DifferingSelectionPassesExactly | src/aksantara/ingest/checkpoint_candidate.py:664-690 | a selection whose keys, count or shortfall differ from the records is admitted iff it is a list under the right limit, because a conditional expression swallows those tests |
| Workers.GoSafe | src/aksantara/ingest/checkpoint_execution.py:926-990 | every single read or write of a worker, live or stale, keeps every document one of the deterministic run's |
| Workers.PrefixSafety | src/aksantara/ingest/checkpoint_execution.py:1005-1075 | under any interleaving of single reads and writes, with barriers, heartbeats, drift marks and crashes, outcomes are a duplicate-free prefix of the one ledger under revision 1 + length, and no other document is foreign |
| Workers.HeartbeatIsItsOwn | src/aksantara/ingest/checkpoint_execution.py:926-941 | under every interleaving a heartbeat writes back a lease of its worker's own generation only |
| Schedules.LoopAlone | src/aksantara/ingest/checkpoint_execution.py:252-404 | a worker scheduled alone does exactly what the session loop says, interrupt marker included |
| Schedules.ResumeAlone | src/aksantara/ingest/checkpoint.py:1130-1188 | a resume worker scheduled alone is one resume call |
| Schedules.RunAlone | src/aksantara/ingest/checkpoint_execution.py:172-449 | a run worker scheduled alone without a barrier executes the created directory as the session does, finalization included |
| Schedules.HeldKeyAlone | src/aksantara/ingest/checkpoint_execution.py:530-655 | a worker alone that holds at the barrier for any number of beats leaves five documents of its key as the unsplit commit does, but for the attempts the report counts |
| Schedules.ResumeHeals | src/aksantara/ingest/checkpoint_execution.py:992-1085 | whatever an interleaving left behind, one undisturbed admitted resume with keys left makes outcomes, checkpoint, status and the report's ledger those of an uninterrupted run |
| Schedules.LedgerCanRegress | src/aksantara/ingest/checkpoint_storage.py:220-238 | for every plan with two keys, a run worker past its fence takes a complete ledger back to one row under a terminal status |
| Schedules.HeartbeatHandsTheLeaseBack | src/aksantara/ingest/checkpoint_execution.py:926-941 | a heartbeat that reads before a reclaim and writes after it fences out the reclaimer |
| Schedules.AttemptCanBeRecordedTwice | src/aksantara/ingest/checkpoint.py:1157-1172 | a commit between the two loads of a resume makes an attempt appear twice for one outcome |
| Lapses.RowsLostExactly | src/aksantara/ingest/checkpoint_storage.py:220-238 | in any schedule of single reads and writes, a step takes rows away iff it is the outcomes write of a worker past its fence that holds fewer rows than there are |
| Lapses.LedgerGrowsIffNeverOvertaken | src/aksantara/ingest/checkpoint_storage.py:220-238 | the outcomes grow monotonically along a schedule iff no step of it is such a write |
| Lapses.LeaseLoweredExactly | src/aksantara/ingest/checkpoint_execution.py:926-941 | a step lowers the lease generation iff it is a heartbeat's, a marker's or a claim's write of a generation below the one on disk |
| Lapses.HandedBackIffOvertaken | src/aksantara/ingest/checkpoint_execution.py:926-941 | a lease write hands the lease back iff the generation has risen above the one its worker read in its last step, or claims after it; another worker wrote that higher generation in between |
| Lapses.LeaseRisesIffNeverHandedBack | src/aksantara/ingest/checkpoint_execution.py:926-941 | the generation never falls along a schedule iff no step of it is such a write |
| Lapses.HeldTwiceExactly | src/aksantara/ingest/checkpoint.py:1157-1172 | a worker holds two attempts of one index iff its load read a list that repeats one, or the attempt of a key beyond the loaded rows that it has since processed itself |
| Lapses.RecordedTwiceExactly | src/aksantara/ingest/checkpoint.py:1157-1172 | the attempts file repeats an attempt after a step iff the step writes such a worker's list, or it repeated one before and is not replaced |
| Lapses.AttemptsDistinctIffNeverRewritten | src/aksantara/ingest/checkpoint.py:1157-1172 | the attempts file never repeats an attempt along a schedule iff no step of it writes such a list |
| Fencing.SectionsAreSchedules | src/aksantara/ingest/checkpoint_execution.py:451-655 | every schedule in which commits and heartbeats are whole is one of the schedules of single reads and writes |
| Fencing.CommitAdvances | src/aksantara/ingest/checkpoint_execution.py:451-655 | a commit by the holder moves outcomes, attempts and checkpoint one key on, makes its memory the durable ledger, and writes report and status unless it holds before them |
| Fencing.LockedIsExclusive | src/aksantara/ingest/checkpoint.py:981-991 | one resume call at a time: no claim and no marker ever gives the lease to another worker that could still commit |
| Fencing.CourseInv | src/aksantara/ingest/checkpoint_storage.py:220-238 | in every state of a schedule with exclusive leases the three ledgers are level, at most one worker passes the fence, and it knows the durable ledger |
| Fencing.OnlyTheHolderCommits | src/aksantara/ingest/checkpoint_storage.py:220-238 | the ledgers change iff a commit passes the fence; it then extends them by exactly the next row and attempt, and every other worker that could commit is fenced |
| Fencing.LedgerNeverRegresses | src/aksantara/ingest/checkpoint_execution.py:463-464 | outcomes and attempts of any state are prefixes of those of any later state |
| Fencing.RowsLostByCommitsExactly | src/aksantara/ingest/checkpoint_storage.py:220-238 | without any assumption on the schedule, whole commits lose rows iff the fence lets a worker through that holds fewer rows than there are |
| Fencing.OnlyTheMarkerHandsBack | src/aksantara/ingest/checkpoint_execution.py:899-903 | one resume call at a time: the generation rises iff a resume claims, and falls iff the run worker's marker writes back a lease that it read before a claim |
| Fencing.StaleWorkersOnlyWriteBack | src/aksantara/ingest/checkpoint_execution.py:880-924 | a worker without the lease changes no ledger; marker, barrier, finalization and drift mark write back exactly what they had read, under their own label |
| Lagging.NothingIsTorn | src/aksantara/ingest/checkpoint_execution.py:530-655 | outcomes, attempts and checkpoint stand at one key in every state, report and status at that key or an earlier one |
| Lagging.AgreementStep | src/aksantara/ingest/checkpoint.py:1224-1261 | from agreement a step leaves a cursor behind iff it writes back a status or report that a commit has overtaken, or holds within a commit |
| Lagging.CursorsAgreeIff | src/aksantara/ingest/checkpoint.py:1224-1261 | the five cursors agree in every state along a schedule iff no step of it does that |
| Stale.DriftSetsTheStatusBack | src/aksantara/ingest/checkpoint.py:1062-1072 | for every plan with a key, a locked schedule of whole commits in which a drifted resume sets the status back to key 0 under a ledger of one row |
| Stale.MarkerHandsTheLeaseBack | src/aksantara/ingest/checkpoint_execution.py:899-903 | for every plan with two keys, a locked schedule in which the marker takes the lease back from a resume, so that the next resume claims the same generation again |
| Stale.StaleMarkerUndoesEligibility | src/aksantara/ingest/checkpoint_execution.py:386-404 | for every plan with two keys, a locked schedule in which the overtaken marker turns a passing run into a failing one that no series of resumes makes pass again |
| Verdicts.AcceptanceStep | src/aksantara/ingest/checkpoint_candidate.py:725-892 | in a schedule with exclusive leases a step takes the acceptance of a passing run back iff it marks the report interrupted or writes back another status than the one there |
| Verdicts.KeepsPassingIff | src/aksantara/ingest/checkpoint_candidate.py:725-892 | a run that passes the lifecycle checks keeps passing along the rest of a schedule iff no later step does that |
| Verdicts.GatePassesIffItEndsLike | src/aksantara/ingest/checkpoint_candidate.py:725-892 | over every schedule with exclusive leases the lifecycle checks pass iff outcomes, attempts, checkpoint, status and report are those of the uninterrupted run, the report up to the logical attempt count that a split commit leaves at 0 |
| Idempotency.BindingsAreForever | src/aksantara/ingest/checkpoint.py:1501-1527 | over every series of run and resume calls with crashes, a bound key keeps run and fingerprint, and no directory loses a document or changes its fingerprints |
| Idempotency.ReturnedRunsMatch | src/aksantara/ingest/checkpoint.py:816-858 | a returned run was made for the requested fingerprint and is bound to the key; a tuple whose truncated id meets another tuple's directory is refused and changes nothing |
| Idempotency.RepeatedRunIsANoOp | src/aksantara/ingest/checkpoint.py:816-840 | repeating a run call at any later time returns the same run and changes nothing |
| Idempotency.ExecutedOnce | src/aksantara/ingest/checkpoint_execution.py:54-61 | a run directory is executed by at most one call, and its id is that call's |
| Idempotency.TerminalIsFrozen | src/aksantara/ingest/checkpoint.py:992-1034 | a completed, blocked, failed or created run is the same after every later series of calls |
| Idempotency.FrozenIffClosed | src/aksantara/ingest/checkpoint.py:984-1034 | a reachable directory is unchangeable by every call iff its status is neither running nor interrupted |
| Answers.ResumeReturnsItsTuple | src/aksantara/ingest/checkpoint.py:1000-1062 | over every series of calls a resume returns only the run it was given, and only to the tuple of that run |
| Answers.CompletedAnswers | src/aksantara/ingest/checkpoint.py:1000-1021 | a resume of a completed run changes nothing; it returns the run iff the tuple agrees and a report is there, and is a conflict for every other tuple |
| Answers.ClosedAnswers | src/aksantara/ingest/checkpoint.py:992-1034 | a resume of a missing, blocked, failed or never started run is refused under its own reason without a change |
| Answers.DriftAnswers | src/aksantara/ingest/checkpoint.py:1035-1084 | another tuple on an open run: a conflict with the run's own key, else the run is marked blocked and nothing else changes |
| Answers.ReclaimAnswers | src/aksantara/ingest/checkpoint.py:1130-1188 | the own tuple on an open run: returned iff the process completes the claim and five writes per missing outcome and a report is there in the end; nothing else on the root changes |
| Answers.BoundAnswers | src/aksantara/ingest/checkpoint.py:816-840 | a bound key answers with its run, or a conflict for another tuple, and changes nothing |
| Answers.ExistingAnswers | src/aksantara/ingest/checkpoint.py:841-855 | a new key on an existing id is bound iff the run has a report and the same tuple, else a conflict |
| Answers.NewRunAnswers | src/aksantara/ingest/checkpoint.py:856-913 | a new key and a new id: executed, returned and bound iff the process completes six writes and five per key; else left unbound as the death left it, or nothing at all after an error at the first write |
| Answers.InterruptedAnswers | src/aksantara/ingest/checkpoint_execution.py:366-404 | with an interrupt point: executed up to the first commit that reaches it, marked, returned and bound iff the process completes those writes and three for the marker; a point past the last key is as none |
| Answers.UninterruptedDocuments | src/aksantara/ingest/checkpoint_execution.py:172-449 | an undisturbed run writes one outcome and one attempt row per selected key, in order and as its processing says, and five documents of the last key |
| Answers.FinalizeExactly | src/aksantara/ingest/checkpoint_execution.py:405-449 | a ledger fault iff a key is missing, foreign or repeated; else the status gets the state of the rows and the report's completion unless it has that state |
| Answers.MarkerLeaves | src/aksantara/ingest/checkpoint_execution.py:880-924 | what the interrupt marker changes in any directory, and what it leaves |
| Answers.PartitionExactly | src/aksantara/ingest/checkpoint_execution.py:1450-1480 | the conservation flag holds iff the ledger is not full or has one row for every selected key and no other |
| Answers.RunIdsAgreeIff | src/aksantara/ingest/checkpoint.py:841 | run ids agree iff the first 24 digits of the fingerprints do |
| Registry.ReleaseRegistry.PromoteRelease | src/aksantara/embeddings/registry.py:195-397 | promotion: retry recognition, compare-and-swap, verification, approval, then pointer and history, cut at a death between them |
| Registry.ReleaseRegistry.RollBackRelease | src/aksantara/embeddings/registry.py:400-654 | rollback: no-op at the target, compare-and-swap, membership, verification, approval, then pointer and history |
| Registry.ReleaseRegistry.SeedRelease | src/aksantara/embeddings/release.py:155-199 | seeding, written in place: history without events for a new version, first pointer only when there is no pointer file; a death before or within either write |
| Registry.MoveIsExpected | src/aksantara/embeddings/registry.py:241-266 | a call moves the pointer only if it expected exactly that pointer, and the generation then rises by one |
| Registry.PromotionMovesExactly | src/aksantara/embeddings/registry.py:214-345 | a promotion moves the pointer iff there is one, the operation is not recorded, version and generation are expected, manifest and verification are there, three names are given, the target is the hash, and the pointer write is reached |
| Registry.RollbackMovesExactly | src/aksantara/embeddings/registry.py:400-654 | the same for a rollback, with the target listed as validated or current and compared by its found or listed hash |
| Registry.PromotionAnswers | src/aksantara/embeddings/registry.py:214-397 | the answer of a promotion: the first demand that fails decides between 404, 409 and 422, and a recorded operation is answered from its event |
| Registry.RollbackAnswers | src/aksantara/embeddings/registry.py:400-654 | the answer of a rollback, the target that is current already included |
| Registry.RecordedEvent | src/aksantara/embeddings/registry.py:345-397 | a move that lived appends one event with its origin, target, generation, expectation, operation and hash, and lists a new version |
| Registry.EveryCurrentWasVouchedFor | src/aksantara/embeddings/registry.py:287-345 | over every history from the first seed a current version is the seeded one or was verified and approved by the call that made it current |
| Registry.GenerationsCountMoves | src/aksantara/embeddings/registry.py:123-132 | over every history, crashes and seeds included, the generation counts the moves |
| Registry.AtMostOneMovePerToken | src/aksantara/embeddings/registry.py:241-266 | of all calls with the same expected version and generation at most one ever moves the pointer |
| Registry.LostMovesAreExactlyTheCrashes | src/aksantara/embeddings/registry.py:384-386 | without new seeds, generation minus events grows by exactly the crashes between the two writes, and nothing recorded is lost |
| Registry.HistoryIsAChain | src/aksantara/embeddings/registry.py:343-386 | event n has generation n + 1 and starts where the one before ended, the pointer is the last event, and every version ever current is a rollback member |
| Registry.FirstSeed | src/aksantara/embeddings/release.py:182-199 | seeding an empty root lists the version and points to it with generation 1: where every chain starts |
| Registry.SeedExactly | src/aksantara/embeddings/release.py:155-199 | an undisturbed seed lists a new version as validated in version order, without events, and sets a first pointer iff there is no pointer file |
| Registry.SeedDropsEventsIffNew | src/aksantara/embeddings/release.py:174-182 | seeding keeps the events iff there were none, the version is listed, or the process died before the write; the listed releases are lost exactly when it died within the write |
| Registry.DamagedForGood | src/aksantara/embeddings/release.py:185-199 | a root whose first pointer was truncated never gets a pointer again, and every promotion and rollback of it answers not found |
| Registry.DamagedExactly | src/aksantara/embeddings/release.py:185-199 | a call damages the pointer file iff it is a seed without a pointer that dies within that write |
| Registry.RetryIsRecognisedIffRecorded | src/aksantara/embeddings/registry.py:226-240 | after a promotion that moved the pointer and any later calls, crashes and seeds, a retry changes nothing and is recognised iff the history then shows a matching event, else it is a conflict |
| Registry.RecordedStaysRecorded | src/aksantara/embeddings/registry.py:226-240 | as long as no new version is seeded, a retry of a promotion that lived is answered with its own move, however many calls later |
| Registry.LostIsAConflict | src/aksantara/embeddings/registry.py:226-240 | a promotion whose process died between pointer and history, or whose event a seed dropped, is answered as a conflict although the pointer had moved |
| Registry.LostPromotionCannotBeRolledBackTo | src/aksantara/embeddings/registry.py:496-543 | a new version promoted by a process that died between its writes is unknown to a later rollback |
| Registry.RollbackMovesIffMember | src/aksantara/embeddings/registry.py:496-543 | an expected rollback to a verified version with an approved hash moves the pointer iff the version is a member of the history |
| Registry.MembershipStep | src/aksantara/embeddings/registry.py:496-543 | a call leaves a current version that is no rollback member iff it is a promotion of an unlisted version that dies between pointer and history, or a seed that dies within its write of the history |
| Registry.CurrentStaysMemberIff | src/aksantara/embeddings/registry.py:496-543 | over every history from the first seed, crashes and new seeds included, every version that was ever current is and stays a rollback member iff no call does that |
| BatchStore.VectorStore.Dedupe | src/aksantara/embeddings/batch_store.py:132-168 | a conflict inside the batch is reported iff two different records share an id; else the first of every id remains |
| BatchStore.VectorStore.WriteChunks | src/aksantara/embeddings/batch_store.py:253-343 | with a failure at a chunk or at a single write, exactly the records before it are created |
| BatchStore.VectorStore.PersistBatch | src/aksantara/embeddings/batch_store.py:104-366 | a conflict changes nothing; otherwise the missing records are created up to the failure, the committed ids are exactly those present before and those of whole chunks, and the batch is eligible iff every expected id is stored |
| BatchStore.ConflictExactly | src/aksantara/embeddings/batch_store.py:120-212 | a batch is a conflict iff two different records of it share an id, or a stored document differs in vector, raw hash, source kind, model or size |
| BatchStore.WrittenExactly | src/aksantara/embeddings/batch_store.py:247-300 | a failing call writes as many records as it may, at most 500 per chunk before the failing one, and reports whole chunks |
| BatchStore.PersistedBetween | src/aksantara/embeddings/batch_store.py:304-305 | documents already present are never altered, and only records of the batch are added |
| BatchStore.BatchConverges | src/aksantara/embeddings/batch_store.py:253-366 | any series of failing calls over records of the batch, then one failure-free call, gives the store of one failure-free call |
| Planner.Classify | src/aksantara/embeddings/planner.py:225-237 | an id of both releases is unchanged iff canonical hash, document hash and metadata agree |
| Planner.ChangedExactly | src/aksantara/embeddings/planner.py:225-237 | an id of both releases is planned as changed iff its canonical content or document hashes differently, or its prior vector has another model, size, task, distance or schema |
| Planner.BuildDeltaPlan | src/aksantara/embeddings/planner.py:169-298 | the sorted lists of new, changed, unchanged, removed and excluded ids, with the union and disjointness assertions proved |
| Planner.PlanConserves | src/aksantara/embeddings/planner.py:93-119 | every id is in exactly one list and the sizes add up to both releases |
| Work.RequestFresh | src/aksantara/embeddings/work.py:111-190 | fresh records for all new and changed ids that have an entry, one provider call each, unless one fails validation |
| Work.MaterializeReuse | src/aksantara/embeddings/work.py:193-330 | copies where a prior vector exists, fresh records elsewhere, unless a digest or a validation fails |
| Work.FreshExactly | src/aksantara/embeddings/work.py:111-190 | a fresh record embeds the document of its entry, field by field |
| Work.CopyExactly | src/aksantara/embeddings/work.py:240-320 | a copied record has the prior numbers cut or filled to 768, the planned canonical hash or else the prior one, and the rest of the new entry |
| Work.MismatchExactly | src/aksantara/embeddings/work.py:255-270 | when a copy is a digest mismatch |
| Work.FailureExactly | src/aksantara/embeddings/work.py:180-190 | which fresh and copied records fail the checks |
| Work.BuildWork | src/aksantara/embeddings/work.py:70-396 | a raising check persists nothing; otherwise the batch of exactly these records is persisted and requests, reuses and calls are accounted |
| Release.SeedRelease | src/aksantara/embeddings/release.py:28-153 | create-only files and the manifest of a from-scratch release |
| Release.SeedManifestHolds | src/aksantara/embeddings/release.py:45-92 | the manifest lists every item with its raw, canonical and document hash, and hashes itself |
| Release.VerifyRelease | src/aksantara/embeddings/release.py:221-439 | valid iff self-hash, count, one file per entry, the id set and every file check hold, absent fields included |
| Release.TamperingIsDetected | src/aksantara/embeddings/release.py:278-340 | a valid release becomes invalid when any one file is removed or any one is added |
| Release.ReplacedFilePassesExactly | src/aksantara/embeddings/release.py:341-439 | another file under a name of a valid release passes iff it has 768 numbers, model, dimensions, task, distance, schema, release, raw hash and canonical hash right, or absent where that is tolerated |
| Release.ManifestTamperingIsDetected | src/aksantara/embeddings/release.py:221-340 | a blocked mark, another self hash, entry count, id set or version, or a missing manifest or directory makes a valid release invalid |
| Release.ListedFilesMatch | src/aksantara/embeddings/release.py:414-424 | in a valid release a file without an id of its own, or with the one of its file name, has a listed id; a listed id has its hash in one of three fields, an unlisted one lacks a field |
| Release.UnlistedIdPassesIffAHashIsAbsent | src/aksantara/embeddings/release.py:414-424 | a file of a valid release whose id is changed to an unlisted one, with anything in the three hash fields, leaves it valid iff one of the three is absent |
| Incremental.SeededReleaseVerifies | src/aksantara/embeddings/release.py:304-340 | seeding into an empty directory verifies iff the ids are distinct and free of underscores |
| Incremental.KeptIsSeed | src/aksantara/embeddings/work.py:251-274 | the unchanged-digest assertion never fires, and a copied record is the record of its new entry, without assuming the hash injective |
| Incremental.BuildRaisesExactly | src/aksantara/embeddings/work.py:332-340 | a build raises iff an embedded or copied entry is not embeddable or an excluded id is eligible |
| Incremental.RequestedAndReusedPartition | src/aksantara/embeddings/work.py:342-396 | requested and reused ids partition the eligible ids, and reuse happens iff unchanged with a prior vector |
| Incremental.IncrementalEqualsFromScratch | src/aksantara/embeddings/work.py:70-396 | along any chain of plans and completed builds, with failed batches on the way, every release equals what seeding its entries writes |
| Incremental.SeededDirectoryHoldsItsEntries | src/aksantara/embeddings/release.py:102-140 | a seeded directory holds for every item the vector of its document, the document and its hash, the canonical hash, raw hash and source kind, and nothing else |
| Incremental.BuiltDirectoryHoldsItsEntries | src/aksantara/embeddings/work.py:70-396 | so does every release along a chain of builds |
| Incremental.StoredFilesHoldTheRawHash | src/aksantara/embeddings/release.py:124-134 | the files on disk give task and distance and carry the raw hash in all three fields |
| Incremental.BuiltReleaseVerifies | src/aksantara/embeddings/release.py:341-439 | a release at the end of such a chain verifies iff its ids are free of underscores |
| Authority.CompareEvidence | src/aksantara/ingest/checkpoint_record.py:143-276 | the winner, the other officials and the evidence rows get exactly their selection, conflict and shared conflict id |
| Authority.FinishWithoutOfficial | src/aksantara/ingest/checkpoint_record.py:348-428 | without a winner each failed row is quarantined with a review, or the first row when none failed; retryable iff some row is |
| Authority.DecidedRowsTell | src/aksantara/ingest/checkpoint_record.py:143-276 | what each row of a decided record says: the winner selected, other officials not, accepted evidence in conflict iff it differs |
| Authority.ReviewedRowsTell | src/aksantara/ingest/checkpoint_record.py:348-428 | what each row of an undecided record says: reviewed and quarantined, or untouched |
| Authority.ProcessRecord | src/aksantara/ingest/checkpoint_record.py:56-327 | every binding yields one row with sequence 1..n, officials first, and the decision is that of the bindings |
| Authority.OutcomeAuthority | src/aksantara/ingest/checkpoint_record.py:96-112 | the canonical entry is that of the first accepted official in attempt order and of no one else; accepted, quarantined and retryable each hold under exactly the stated condition |
| Authority.EvidenceOrderIrrelevant | src/aksantara/ingest/checkpoint_record.py:228-272 | reordering the evidence does not change the decision |
| Authority.EvidenceOnlyBlocks | src/aksantara/ingest/checkpoint_record.py:228-272 | one more evidence never makes a record accepted and never changes the canonical entry |
| Selection.ReadObservations | src/aksantara/ingest/checkpoint_catalog.py:762-831 | observations are refused iff a role is not allowed or a source repeats; else they come back with their roles, sorted |
| Selection.ReadCatalog | src/aksantara/ingest/checkpoint_catalog_records.py:174-270 | the catalog is refused iff an entry is or a normalized key repeats |
| Selection.RunPreflight | src/aksantara/ingest/checkpoint.py:667-727 | the preflight of an accepted catalog and limit |
| Selection.PreflightForgetsOrder | src/aksantara/ingest/checkpoint.py:679-708 | permuting the entries and the observations of each changes neither whether the catalog is admitted, nor records, selected keys or the two fingerprints |
| Selection.FingerprintsDecide | src/aksantara/ingest/checkpoint.py:679-709 | under hashes without collisions two preflights share the catalog fingerprint iff id, corpus and the sorted records with their sources agree, and the run fingerprint iff limit, pins and comparison modes agree too |
| Selection.PreflightHolds | src/aksantara/ingest/checkpoint.py:679-690 | a preflight holds the record of every entry once, in key order, and selects the first ones up to the limit |
| Selection.AdmittedExactly | src/aksantara/ingest/checkpoint_catalog.py:762-831 | the exact condition under which catalog and limit are admitted |
| Authority.OutcomesForgetOrder | src/aksantara/ingest/checkpoint.py:679-708 | permuting the catalog and the observations in it changes neither the selected keys nor the outcome of any of them |
| Selection.OrderBindings | src/aksantara/ingest/checkpoint_authority.py:51-88 | the normalizing loop and the sort yield the declared order of bindings |
| Selection.BindingOrder | src/aksantara/ingest/checkpoint_authority.py:51-88 | each source once, officials before evidence, the primary first of its class |
| Selection.BindingsHold | src/aksantara/ingest/checkpoint_authority.py:51-88 | each binding has its source's role by class and position, and the list has the primary and every observation |
| Selection.BindingsForgetOrder | src/aksantara/ingest/checkpoint_catalog.py:807-831 | permuting the observations of an entry does not change the order in which its bindings are attempted |
| Selection.SelectedKeysAgree | src/aksantara/ingest/checkpoint_catalog.py:196-204 | the key-only selection admits exactly the keys of the selected records |
| Retry.TryInTurn | src/aksantara/ingest/checkpoint_observation.py:335-530 | the tries made, their history rows, and the last error with its exhaustion flag |
| Retry.RunSequence | src/aksantara/ingest/checkpoint_observation.py:335-602 | the loop and the decision after it refine the declared meaning but for the fall-through; the history has one row per try and at most max_retries + 1 |
| Retry.DeclaredExactly | src/aksantara/ingest/checkpoint_observation.py:335-602 | the declared meaning without its computation: which of the first max_retries + 1 statuses decides, and how, when it is an error, a body or temporary to the end |
| Retry.ClassesExactly | src/aksantara/ingest/checkpoint_observation.py:215-250 | which statuses are timeouts, transient, permanent and successes |
| Retry.RunSingle | src/aksantara/ingest/checkpoint_observation.py:215-333 | without a sequence one status decides, whatever the bound |
| Retry.FallsThroughExactly | src/aksantara/ingest/checkpoint_observation.py:345-351 | for admitted statuses the departure happens iff the timeout flag meets a one-entry sequence with a retry to spare |
| Retry.MoreRetriesOnlyHelp | src/aksantara/ingest/checkpoint_observation.py:335-530 | one more retry changes nothing but an exhausted failure |
| RateLimit.TokenBucket.Refill | src/aksantara/ingest/rate_limit.py:51-58 | tokens for the advance of the clock, capped, and none when it did not advance |
| RateLimit.TokenBucket.TryConsume | src/aksantara/ingest/rate_limit.py:60-69 | refused amounts change nothing; else granted iff the refilled level suffices, and the level stays within its bounds |
| RateLimit.TokenBucket.ConsumeBlocking | src/aksantara/ingest/rate_limit.py:71-91 | granted at the very first reading that suffices, given up at the first wait past the deadline, and nothing consumed otherwise |
| RateLimit.PauseExactly | src/aksantara/ingest/rate_limit.py:71-91 | a turn waits for the missing tokens, a tenth of a second at most |
| RateLimit.TokenBucket.WaitTime | src/aksantara/ingest/rate_limit.py:93-100 | the wait for an amount, without consuming |
| RateLimit.WindowBound | src/aksantara/ingest/rate_limit.py:51-91 | between any two calls of any history the grants are at most the capacity plus the rate times the advance of the running maximum clock |
| RateLimit.TokensConserved | src/aksantara/ingest/rate_limit.py:51-69 | grants plus level never exceed the initial level plus what accrued, and the level stays in [0, capacity] |
| RateLimit.WaitSufficesIff | src/aksantara/ingest/rate_limit.py:93-100 | waiting the announced time suffices iff nothing was awaited, or the amount fits and the clock had not gone backwards |
| RateLimit.OverCapacityNeverGranted | src/aksantara/ingest/rate_limit.py:71-91 | more than the capacity is never granted after any history: the blocking form without a timeout cannot return |
| RateLimit.NegativeAmountsOverfill | src/aksantara/ingest/rate_limit.py:71-91 | an amount that is not positive is always granted and overfills exactly when it hands back more than is missing |
| RateLimit.BackoffGrowsToItsCap | src/aksantara/ingest/rate_limit.py:122-141 | delays never decrease without jitter and never exceed the cap by more than a tenth |
| RateLimit.BackoffDoubles | src/aksantara/ingest/rate_limit.py:122-141 | the first delay is the base, each further one twice the one before, cut at the cap, plus the jitter's fraction of a tenth |

## Left out

- HTTP routes, command line, agents, logging, cloud clients, network fetches, the KBBI parser, the review store, snapshots, retrieval and projections: plumbing, or results that enter as parameters.
- Timestamps, delays, process ids, lease expiry, fence tokens, `Retry-After` parsing, sleeping and lease diagnostics inside documents: volatile fields that no decision of the modelled code reads back. A heartbeat therefore rewrites the lease it read.
- Idempotency key syntax (strip, length, control characters) and the fingerprint preimages beyond `Selection`: easy branches before anything is written. Malformed documents on disk are not modelled either.
- Raw, canonical, parsed and review files written while a record is processed: content-addressed or per-key side files; processing is a deterministic function of key and index.
- A persistence error that the heartbeat or the barrier swallows: the process then goes on, which the crash model does not show; the interleaving model has those writes as steps of their own.
- Driver.CheckpointDriver.MarkInterrupted: a report write that fails is swallowed by the code, which then goes on to the status; here a failing write is a death of the process, because the crash model has no other failure.
- Driver.CheckpointDriver.ProcessKey: the holds at a barrier and the heartbeat errors that are swallowed are modelled in `Workers` only, because one worker alone writes back what it read.
- Driver.CheckpointDriver.ProcessKeys: the same holds and heartbeat errors.
- Driver.CheckpointDriver.ExecuteRun: the same holds and heartbeat errors.
- The split commit used at the barrier between checkpoint and status: `Sessions` has the unsplit commit only. `Workers` has the split one, with its fence, its status rewrites, and the report that the code builds from an empty attempt list, so that its logical attempt count is 0; of the two fences after the hold only the later one is a step.
- Two workers of one driver object share a thread lock. `Workers` and `Lapses` schedule without any lock. `Fencing` counts fence and guarded writes as one step, and its resume lock is `Fencing.Locked`; the code goes on without the lock when the lock file cannot be taken, and then only the theorems without that condition hold.
- Resume without a catalog (it always refuses) and the barrier and lease read endpoints.
- Field-by-field lineage comparisons of the gate: one predicate per item, `admits`; outcomes with malformed indices, review queue filtering and the candidate artifacts are not modelled.
- Generation tokens not produced from `gen-1`, and the audit log of refused registry calls.
- The `existing_store` argument of `persist_batch`, unreadable vector files, the batch ledger file, and the order of id lists in results (lists that the code sorts for display only).
- `lema`, edition, versions, url, retrieval time and the reuse markers of a vector record; a stored document is compared on the fields of `Vectors.VectorRecord`.
- A `canonical/<version>` directory beside the vectors, and a vector with non-finite numbers (reals are finite).
- Cost accounting beyond provider calls, and the manifest that the release routes write for a built candidate: it is taken to be the one of the same entries.
- The `ordinal` of a catalog record, aliases of catalog fields and transport details: nothing downstream of the preflight reads the first, the others are many easy branches.
- Options.Blank: knows the ASCII white-space characters only, because Unicode classes are not modelled.
- The semaphore of `RateLimiter` and the sleep between two tries of the blocking form.
- Gate.Evaluate: outcomes with malformed indices, the filtering of reviews and the order of items within members and excluded (by key in the code) are not stated, because eligibility depends on membership in well-formed outcomes only.
