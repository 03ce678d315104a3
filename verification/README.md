# A verified model of the log-risk approval workflow

The repository mines log templates, aggregates them into windows, proposes risk features and lets operators approve
them. Its difficult parts keep state that several threads, a browser and two storage back ends touch at once. This
project models those parts in Dafny 4.11 and proves what they keep. `dafny verify dfyconfig.toml` checks all of it.

Code that changes objects step by step is modelled by classes and methods with loops. Each such method is proved equal
to a function of its inputs or of the old state, and the laws are lemmas about that function. Interleavings are runs of
a step function over every sequence of actions; an action whose turn has not come changes nothing.

| file | models | main results |
|---|---|---|
| `JobObjects`, `UnitOfWork` | the approval unit of work over live job objects | a failed unit leaves every surviving job in its own objects, at its entry value exactly when its records are unambiguous |
| `ReviewProtocol` | the `review` call: unlocked lookup, then one locked transaction | one decision per request key and actor over every interleaving; each answer exactly when its condition holds |
| `ReviewQueue`, `ReviewOutcomes` | the browser's submission queue | two in flight, FIFO, stable retries, every phase has its cause and every cause its phase, drains |
| `JobCache`, `JobRecency` | the LRU cache of live jobs and its pins | a pinned thread works with the cached object; a build, exactly when nothing drops its job before the pin; what is given up was last used before all that stays |
| `FileStore`, `FileWrites` | the file-backed candidate store | decisions stand, versions name states, rollback undoes; every write field by field |
| `GroupStore`, `GroupMembership` | registration in approval groups | figures equal membership, exactly when two guards hold; candidates are grouped by the key they first wanted |
| `Staging`, `JobCursor`, `JobWalk` | building a referenced job; paging through it | nothing runs on a prefix and a complete input does run; a walk yields every row once, and while tables change every row that stays |
| `RuleStore`, `RuleChains`, `RuleRuns` | approved rules, their validator, matcher and governance | sound identities and one chain per problem code, exactly when each event was permitted; a written rule says what was approved |
| `ReviewGroups`, `GroupFigures`, `Projection`, `ReviewPaging`, `Keyset` | review groups in one batch, what they show; the projection kept row by row; its pages | both agree; walks repeat and miss nothing |
| `Repair`, `RepairCommits`, `RepairFigures` | the offline repair of pending candidates | all or nothing, and exactly when it commits; figures recomputed, lists expanded in place |
| `SqlScript`, `SqlScanners`, `SqlScannerLaws`, `SqlSplitLaws`, `SqlLiterals`, `SqlPlain` | the two hand-written SQL scanners | convert and split commute; split round-trips |
| `Mining`, `ShardFiles`, `StateFiles` | partitioned template mining; its state files; shards that share one | any interleaving equals one shared manager in events and files, exactly when no two shards share a file |
| `Aggregation`, `WindowContents`, `IsoTimes`, `IsoReading` | windowed aggregation; ISO texts of Gregorian times | what a window holds, conservation, order does not matter; comparing texts is comparing times, so bounds are chronological |
| `EntityNames` | the keys affected entities are counted under | an entity has its key to itself exactly when no name has a bar |
| `Ordering`, `Prelude` | orders, sorted listings, sums, `Option`, `Result` | |

## Hypotheses

Each is a `requires` of the lemma that needs it.

- Unit of work: whatever a body writes, it writes in a job that is journaled or was first cached inside the unit
  (`UnitOfWork.ApprovalUnit.JournaledMutation`); jobs share no mutable object.
- Digests (SHA-256 of JSON) are injective: keys and ids are constructors. Identifiers the server draws are its own.
- Problem resolver: a safe code resolves to itself from a rule; normal forms of codes and feature types are stable
  (`RuleStore.Lawful`, met by `RuleRuns.PLAIN`).
- Clocks increase strictly between writes.
- Mining: distinct shards of the input have distinct state files (`Mining.OwnFiles`); `StateFiles` proves it is needed.

## Where the code does not meet the plain property

- Restoration of a listed job writes two saved records of one entity id into one object (`JobObjects.TwinsAreLost`).
  Exact condition: `JobObjects.Unambiguous`. Distinct ids meet it (`JobObjects.DistinctIsUnambiguous`); creation collapses
  rows to one per entity (feature_jobs.py:543-586), so jobs made by it restore exactly.
- Restoration of a paged job writes the active record last, over a loaded record of the same entity that differs
  (`JobObjects.StaleIsLost`). Exact condition: `JobObjects.ActiveAgrees`. Saving empties the loaded records, but only
  after its transaction (sqlite_stores.py:575): `retry_entity` remembers the record it queues before it saves
  (feature_jobs.py:2415), so when that save raises while a run still holds the failed record as active, the next unit of
  work starts with both.
- Rules: governance may stamp an old retired rule again. It then is the latest retired rule though it already has a
  successor, and the next approval writes the successor's id and key a second time (`RuleRuns.RestampReachesIt`,
  `RuleRuns.UnclearCollides`). A feature whose type normalises to `unknown_feature` is stored as a malformed rule that
  its own problem does not find and that blocks its code (`RuleRuns.NamelessIsStored`, `RuleRuns.NamelessBlocksCode`).
  Exact condition per event: `RuleRuns.Permitted`.
- Job cache: a referenced build inserts its job in one lock region and pins it in the next; in between it may be
  evicted and hydrated anew (`JobCache.GapParts`). Exact condition: no turn in between drops it
  (`JobCache.BuildIsLiveIffKept`).
- Groups: a candidate registered again under another entity adds that entity to its group (`GroupStore.EntityDrifts`); a
  group founded for a key may take the id of a group that carries another key (`GroupStore.ForeignIdOverwrites`). Exact
  conditions: `GroupStore.CleanRun` for everything, `GroupStore.Unclaimed` for candidates, counts and sums.
- File store: approving what is already approved, under another expected status, drops the other changes of the request
  (`FileStore.ApprovalDropsTitle`). Exactly what a review does: `FileStore.ReviewGives`.
- Entities are counted under cluster, type and id joined by bars, so two of them may share a key
  (`EntityNames.BarCollides`) and a group may show fewer than it affects. Exact condition: `EntityNames.KeyIsOwnExactly`,
  `GroupFigures.EntitiesCounted`.
- Split: a bare `;` between statements fails exactly when a statement other than the last does not end in code
  (`SqlSplitLaws.BareJoinFails`, `SqlSplitLaws.BareJoinExactly`).
- Windows: before the epoch `int()` rounds up, so an event with a fraction may lie before its window
  (`Aggregation.BeforeTheEpoch`, `Aggregation.OwnWindow`).
- Mining: state file names replace `/` and blanks by `_` and join the parts of a shard key by `__`, so distinct shards
  may share a file: `["a/b","s","c"]` and `["a_b","s","c"]`, or `["a__b","s","c"]` and `["a","b__s","c"]`. Workers then
  read each other's states (`StateFiles.SharedFileBreaksIt`). Exact condition: `StateFiles.ParallelIsSequentialExactly`.

## Model

| member | source | states |
|---|---|---|
| `SqlScanners.QmarkToPyformat` | src/logrisk/database.py:121-190 | the scanner with its quote, comment and dollar-quote flags computes the rendering of the automaton's pieces |
| `SqlScanners.SplitSqlStatements` | src/logrisk/database.py:193-273 | the scanner emits the stripped non-empty stretches between code-mode `;` |
| `SqlLexer.LexSpells` | src/logrisk/database.py:121-190 | the automaton's pieces spell the script: no character is lost or read twice |
| `SqlScannerLaws.QmarkKeepsStructure` | src/logrisk/database.py:121-190 | reading the converted text finds the same pieces in the same modes, each code-mode `?` as `%s`, everything else verbatim |
| `SqlScannerLaws.QmarkIdempotent` | src/logrisk/database.py:121-190 | converting twice is converting once |
| `SqlScannerLaws.SplitQmarkCommute` | src/logrisk/database.py:121-273 | converting a script and splitting it gives the converted statements of the script |
| `SqlScannerLaws.SegmentsFaithful` | src/logrisk/database.py:193-273 | each stretch between delimiters lexes alone as it does inside the script |
| `SqlScannerLaws.SplitKeepsEveryCharacter` | src/logrisk/database.py:193-273 | the stretches joined by `;` are the script: only delimiters and trimmed white space are dropped |
| `SqlScannerLaws.StripQmark` | src/logrisk/database.py:121-273 | stripping and converting a statement commute |
| `SqlSplitLaws.SplitIsClean` | src/logrisk/database.py:193-273 | every statement is non-empty, stripped and free of code-mode `;` |
| `SqlSplitLaws.StatementsSplitToThemselves` | src/logrisk/database.py:193-273 | every statement splits to itself |
| `SqlSplitLaws.SplitRoundTrip` | src/logrisk/database.py:193-273 | joining the statements with newline and `;` and splitting again gives them back |
| `SqlSplitLaws.BareJoinExactly` | src/logrisk/database.py:193-273 | a bare `;` joins them back if and only if every statement but the last ends in code |
| `SqlSplitLaws.BareJoinFails` | src/logrisk/database.py:193-273 | the script `--a` newline `;b`: the newline that closed the comment is stripped, and the bare join swallows `b` |
| `SqlLiterals.QuotedIsCopied` | src/logrisk/database.py:150-164 | a quoted literal with doubled quotes inside is copied whole and ends where it is written to end |
| `SqlLiterals.LineCommentIsCopied` | src/logrisk/database.py:140-144 | a line comment runs to the end of its line and is copied |
| `SqlLiterals.BlockCommentIsCopied` | src/logrisk/database.py:145-150 | a block comment ends at the first closer: openers inside it mean nothing |
| `SqlLiterals.DollarQuotedIsCopied` | src/logrisk/database.py:131-140 | a dollar-quoted text ends at the first repetition of its own tag and is copied |
| `SqlLiterals.CopiedIsNotConverted` | src/logrisk/database.py:121-190 | question marks inside such an element stay, and the rest converts as if it stood alone |
| `SqlLiterals.CopiedIsNotSplit` | src/logrisk/database.py:193-273 | a `;` inside such an element does not cut the statement |
| `SqlPlain.TagExactly` | src/logrisk/database.py:181-187 | a dollar tag is found exactly where the text starts with one |
| `SqlPlain.PlainIsConverted` | src/logrisk/database.py:166-189 | text that opens nothing is converted at every question mark, and the rest as if it stood alone |
| `SqlPlain.PlainIsCut` | src/logrisk/database.py:193-273 | a semicolon after such text ends the statement, and the rest is split as if it stood alone |
| `JobObjects.IndexRecords` | src/logrisk/approval_service.py:100 | the present records by entity id: the last one of each id |
| `JobObjects.RebuildRecords` | src/logrisk/approval_service.py:101-108 | saved contents go into the surviving record objects, others are copies; the result equals what was saved if and only if no two saved records clash on a surviving id |
| `JobObjects.RestoreRecords` | src/logrisk/approval_service.py:100-111 | the same list object then holds surviving records first found by id, in the saved order |
| `JobObjects.RestoreListed` | src/logrisk/approval_service.py:99-113 | a listed job is back in the same list object and records, exactly as saved if and only if the saved records are unambiguous |
| `JobObjects.RestoreLoaded` | src/logrisk/approval_service.py:71-87 | loaded records and the active record keep their objects; contents are as saved if and only if the active record holds no other record's place |
| `JobObjects.RestorePaged` | src/logrisk/approval_service.py:70-98 | a paged job keeps its three collections and its records; its value is the saved one under the same exact condition |
| `JobObjects.RestoreJob` | src/logrisk/approval_service.py:67-113 | either kind of job is settled: same objects, saved value if and only if restorable |
| `JobObjects.RefilledIsSaved` | src/logrisk/approval_service.py:101-108 | filling records in saved order leaves the saved contents if and only if records with one surviving id agree |
| `JobObjects.LastSavedFound` | src/logrisk/approval_service.py:101-108 | of several saved records with one id the last one stays in the object |
| `JobObjects.RestoreTwins` | src/logrisk/approval_service.py:100-111 | two records of one entity id, nothing written in between: restoring them changes the first |
| `JobObjects.TwinsAreLost` | src/logrisk/approval_service.py:100-111 | such a job, built and restored to its own value at once, no longer has it |
| `JobObjects.RestoreStale` | src/logrisk/approval_service.py:71-87 | a loaded record beside an active record of the same entity that differs: restoring them overwrites the loaded one |
| `JobObjects.StaleIsLost` | src/logrisk/approval_service.py:71-87 | such a paged job, built and restored to its own value at once, no longer has it |
| `UnitOfWork.ApprovalUnit.constructor` | src/logrisk/approval_service.py:32-37 | outside a unit nothing is journaled, deferred or bound |
| `UnitOfWork.ApprovalUnit.Journal` | src/logrisk/approval_service.py:39-65 | only the first journal entry of a job is kept; its paged collections are bound once, remembering the manager's own store |
| `UnitOfWork.ApprovalUnit.BindCollections` | src/logrisk/approval_service.py:50-65 | exactly the job's unbound collections get the transaction's store |
| `UnitOfWork.ApprovalUnit.Begin` | src/logrisk/approval_service.py:126-142 | entry binds the three stores to the connection, journals exactly the named jobs at their present value, binds their paged readers and defers observations |
| `UnitOfWork.ApprovalUnit.JournalAll` | src/logrisk/approval_service.py:137-139 | exactly the named jobs are journaled, at their entry value, and their paged readers see the unit's transaction |
| `UnitOfWork.ApprovalUnit.Load` | src/logrisk/feature_jobs.py:1689-1706 | a job hydrated inside the unit is journaled and read through the unit's transaction, and the unit stays able to roll back |
| `UnitOfWork.ApprovalUnit.Evict` | src/logrisk/feature_jobs.py:1724-1728 | dropping a cached job inside the unit keeps the unit's invariant |
| `UnitOfWork.ApprovalUnit.Observe` | src/logrisk/feature_jobs.py:1765-1780 | an observation is deferred inside a unit and sent at once outside |
| `UnitOfWork.ApprovalUnit.JournaledMutation` | src/logrisk/approval_service.py:137-143 | the hypothesis: writes inside journaled jobs, whatever they are, keep the unit able to take them back |
| `UnitOfWork.ApprovalUnit.RestoreOne` | src/logrisk/approval_service.py:146-152 | one key of the failure loop: dropped when first cached inside, restored when journaled, left alone otherwise |
| `UnitOfWork.ApprovalUnit.RestoreStep` | src/logrisk/approval_service.py:145-152 | restoring one job disturbs no other job, though restoration allocates new records |
| `UnitOfWork.ApprovalUnit.RestoreAll` | src/logrisk/approval_service.py:145-152 | the loop leaves exactly the jobs cached at entry, the same objects, each settled |
| `UnitOfWork.ApprovalUnit.Reset` | src/logrisk/approval_service.py:154-162 | stores, collection handles, journal and deferral are back to what they were |
| `UnitOfWork.ApprovalUnit.Abort` | src/logrisk/approval_service.py:144-162 | a failed unit: jobs first cached inside are gone, every job cached since entry is the very object it was then, each is at its entry value exactly when recoverable, nothing is emitted, and all being recoverable the manager is idle again |
| `UnitOfWork.ApprovalUnit.Commit` | src/logrisk/approval_service.py:154-164 | a successful unit: jobs keep what was written, each deferred observation is sent exactly once, in order |
| `ReviewProtocol.TransactionIsAtomic` | src/logrisk/approval_service.py:207-237 | the locked part commits whole or changes nothing, commits only where no decision was taken, and answers in agreement with the row |
| `ReviewProtocol.TransactionAnswers` | src/logrisk/approval_service.py:208-237 | the locked part replays, conflicts, misses the candidate, finds another version, is refused or commits if and only if that answer's own condition holds of rows, candidates and the review; a commit has the review's candidates and the row |
| `ReviewProtocol.UndisturbedCall` | src/logrisk/approval_service.py:177-237 | lookup, location and transaction in a row give the same answer under the same conditions, whether the call names the job or only the candidate |
| `ReviewProtocol.StepKeepsInv` | src/logrisk/approval_service.py:177-237 | every region of every call keeps: candidates are the effect of the history, rows are exactly its reviews, finished calls point to their row |
| `ReviewProtocol.AnyInterleaving` | src/logrisk/approval_service.py:177-237 | over any interleaving with other writers each (request key, actor) holds one decision, present if and only if its review took effect, taken by one call |
| `ReviewProtocol.SameKeySameDecision` | src/logrisk/approval_service.py:190-201 | two finished calls of one key: not both commit; if neither fails they share payload and outcome; another payload conflicts |
| `ReviewProtocol.DecidedStays` | src/logrisk/approval_service.py:190-217 | once a request key is decided no run reviews under it again, its row stays, and each of its calls that finishes is replayed the decision or conflicts by payload, unless it finds its candidate gone while looking for it |
| `ReviewProtocol.DecidedAtExpectedVersion` | src/logrisk/approval_service.py:220-222 | each review of a history took effect on a candidate whose version was the one its caller named |
| `ReviewProtocol.ReviewDesk.LookUp` | src/logrisk/approval_service.py:190-201 | the unlocked lookup |
| `ReviewProtocol.ReviewDesk.LocateJob` | src/logrisk/approval_service.py:202-206 | finding the candidate's job, or failing when it is gone |
| `ReviewProtocol.ReviewDesk.TransactReview` | src/logrisk/approval_service.py:207-237 | the locked region as one step of the protocol |
| `ReviewProtocol.ReviewDesk.Decide` | src/logrisk/approval_service.py:208-237 | recheck, load, version check, apply, record the decision: equal to the specified transaction |
| `ReviewQueue.StepKeepsInv` | frontend/src/app.js:485-537 | each handler and callback keeps: a key waits exactly once iff queued, `active` counts saving plus settled-not-decremented and is at most 2, waiting work implies 2 active, submissions are sends plus the waiting line |
| `ReviewQueue.AnyRun` | frontend/src/app.js:485-537 | the same from an empty queue over every interleaving; sends leave in submission order |
| `ReviewQueue.RunFaithful` | frontend/src/app.js:503-511 | until the operator submits a key anew, every send of it carries the same request key, changes and version |
| `ReviewQueue.SavedStays` | frontend/src/app.js:504-535 | a saved review is never sent again until saved ones are cleared |
| `ReviewQueue.PhasesAreEarned` | frontend/src/app.js:494-530 | in every run an entry is saved only by its delivery or by a server decision that agrees with every change but the scope; it can be retried only after a failure other than 409 and only while no confirmation showed a decision or another version; a conflict comes from a 409 or such a confirmation; each cause is an action the queue carried out, and nothing submitted, took back or settled the key since |
| `ReviewQueue.Drains` | frontend/src/app.js:489-501 | without new submits the number of further callbacks is bounded by the work left |
| `ReviewQueue.UnfinishedCanMove` | frontend/src/app.js:489-501 | while any entry is queued or saving some callback is still due |
| `ReviewQueue.ConflictStays` | frontend/src/app.js:503-530 | in every run an entry in conflict is not sent, resubmitted, cleared or confirmed away until the operator takes it back for editing |
| `ReviewOutcomes.ConfirmOutcome` | frontend/src/app.js:518-530 | confirming a failed entry saves it if the server's feature is decided and shows every change but the scope, makes it a conflict if it is decided otherwise or has another version, and leaves it alone otherwise; a conflict stays one and shows the latest feature; no other entry changes |
| `ReviewOutcomes.SettleOutcome` | frontend/src/app.js:495-499 | a settled send is saved after a delivery, in conflict after a 409, failed after any other status, and carries that result or reason |
| `ReviewOutcomes.SubmitOutcome` | frontend/src/app.js:503-510 | a submit is refused while the key has an entry that did not fail; otherwise the review asked for is sent at once when a place is free and waits behind all others when none is |
| `ReviewOutcomes.RetryOutcome` | frontend/src/app.js:511 | a failed entry joins the line again as it is, under its own request key; any other stays |
| `ReviewOutcomes.EditOutcome` | frontend/src/app.js:512-517 | an entry is taken back if and only if it failed or is in conflict |
| `ReviewOutcomes.ClearOutcome` | frontend/src/app.js:532-535 | clearing removes the saved entries and no others |
| `ReviewOutcomes.FinishOutcome` | frontend/src/app.js:489-501 | a place given back goes to the first in the line, and to it alone |
| `ReviewQueue.ReviewSubmissionQueue.PumpWaiting` | frontend/src/app.js:489-501 | the pump loop equals its specification |
| `ReviewQueue.ReviewSubmissionQueue.SubmitEntry` | frontend/src/app.js:503-510 | submit as one step, refused unless the key is free or failed |
| `ReviewQueue.ReviewSubmissionQueue.RetryFailed` | frontend/src/app.js:511 | retry as one step, only of a failed key |
| `ReviewQueue.ReviewSubmissionQueue.DropFailed` | frontend/src/app.js:512-517 | editing removes a failed or conflicting entry only |
| `ReviewQueue.ReviewSubmissionQueue.ConfirmWith` | frontend/src/app.js:518-530 | confirm as one step |
| `ReviewQueue.ReviewSubmissionQueue.HasUnfinished` | frontend/src/app.js:531 | no unfinished entry means nothing waits and nothing is in flight |
| `ReviewQueue.ReviewSubmissionQueue.DropSaved` | frontend/src/app.js:532-535 | clearing removes exactly the saved entries |
| `ReviewQueue.ReviewSubmissionQueue.OnSettled` | frontend/src/app.js:494-498 | the settle callback of one send |
| `ReviewQueue.ReviewSubmissionQueue.OnFinally` | frontend/src/app.js:499 | the finally callback gives the place back and pumps |
| `JobCache.TrimIsShortest` | src/logrisk/feature_jobs.py:1708-1728 | a trim evicts the shortest prefix of the unpinned jobs after which the rest fit, and keeps all else in place |
| `JobCache.AccessMakesLast` | src/logrisk/feature_jobs.py:1689-1706 | an access puts its job behind all others, with the cached object or a new one, and leaves the others in their order; it fails exactly when the job is neither cached nor stored |
| `JobRecency.OrderIsLastUse` | src/logrisk/feature_jobs.py:1703-1705 | over every run the cache lists its jobs in the order in which they were last found, hydrated or inserted |
| `JobRecency.EvictsLeastRecentlyUsed` | src/logrisk/feature_jobs.py:1708-1728 | over every run a job dropped from the cache was last used before every job kept that nobody works on, but for one just refreshed in place |
| `JobRecency.RegionTrimsToFit` | src/logrisk/feature_jobs.py:1708-1728 | each lock region that comes to a trim drops the shortest least-recently-used run after which the jobs it may drop fit, and nothing more |
| `JobRecency.WithoutPersistenceNothingGoes` | src/logrisk/feature_jobs.py:1709-1710 | without persistence no cached job is ever dropped |
| `JobRecency.ComesAndGoes` | src/logrisk/feature_jobs.py:1849-1863 | a run or a wait gets inside exactly when its job is found or stored and its own condition holds, with the cached object; leaving takes out that thread alone |
| `JobCache.StepKeepsInv` | src/logrisk/feature_jobs.py:1689-1728 | every lock region keeps pinned threads' objects cached and reference counts equal to the threads inside |
| `JobCache.PinnedIsLive` | src/logrisk/feature_jobs.py:1849-1863 | over every run a running or waiting thread's object is the cached one, and counts are positive exactly while someone is inside |
| `JobCache.BuildIsLiveIffKept` | src/logrisk/feature_jobs.py:1013-1034 | a build works with the cached object for all of its pin if and only if no turn between its insertion and its pin drops the job |
| `JobCache.BuildIsLiveIff` | src/logrisk/feature_jobs.py:1020-1034 | while the pin lasts nothing changes whether the build's object is the cached one |
| `JobCache.GapParts` | src/logrisk/feature_jobs.py:1013-1025 | a trim between insertion and pin, then another access: the build and the cache hold different objects |
| `JobCache.FailedUnitIsSteady` | src/logrisk/approval_service.py:144-152 | the rollback takes back jobs first cached inside the unit and no object pinned before |
| `JobCache.CountedInside` | src/logrisk/feature_jobs.py:1856-1862 | a thread that leaves finds its count |
| `JobCache.LiveJobs.TrimHistory` | src/logrisk/feature_jobs.py:1708-1728 | the two trim loops equal the specified eviction |
| `JobCache.LiveJobs.Job` | src/logrisk/feature_jobs.py:1689-1706 | lookup or hydration, then the job behind all others in their order, then the trim |
| `JobCache.LiveJobs.BeginRun` | src/logrisk/feature_jobs.py:1849-1853 | the gated pin of a run as one step |
| `JobCache.LiveJobs.FinishRun` | src/logrisk/feature_jobs.py:1856-1863 | the release of a run as one step |
| `FileStore.SavesKeepOwned` | src/logrisk/feature_jobs.py:155-162 | snapshot and generated saves never alter a review-owned field that is present |
| `FileStore.StepMoves` | src/logrisk/feature_jobs.py:222-253 | any event keeps a candidate's stamp together with its fields, or stamps it now |
| `FileStore.StepKeepsDecision` | src/logrisk/feature_jobs.py:390-405 | no event changes an approved or rejected status but a rollback naming the exact version |
| `FileStore.DecisionsStand` | src/logrisk/feature_jobs.py:352-453 | the same over every run |
| `FileStore.RejectionsStand` | src/logrisk/feature_jobs.py:428-453 | a rejection stands over every run, rollbacks included |
| `FileStore.StampNamesVersion` | src/logrisk/feature_jobs.py:165-169 | over every run an unchanged stamp means unchanged fields |
| `FileStore.ReviewSeesWhatItRead` | src/logrisk/feature_jobs.py:376-426 | a review naming the version it read, with or without a job id, commits only in the job it read from and on exactly the fields it read, and leaves the other jobs alone |
| `FileStore.ReviewGives` | src/logrisk/feature_jobs.py:393-424 | a review applies all its changes in the expected status; re-approving under another one changes nothing |
| `FileStore.ApprovalDropsTitle` | src/logrisk/feature_jobs.py:403-407 | an approval of an approved candidate, expecting it pending, succeeds and drops the new title it came with |
| `FileStore.RunKeepsApart` | src/logrisk/feature_jobs.py:226-253 | over every run candidates of different jobs never share a stamp |
| `FileStore.RollbackUndoes` | src/logrisk/feature_jobs.py:428-453 | a rollback of the version an approval wrote hits the job the approval wrote, wherever the id is found by then, and restores every field |
| `FileWrites.SnapshotFiles` | src/logrisk/feature_jobs.py:226-253 | after a save the candidate that came last under a name has, field by field, the stored value where review owns it and what came otherwise, and a new stamp exactly when a field changed; all else stays |
| `FileWrites.StepKeepsNames` | src/logrisk/feature_jobs.py:222-253 | every event leaves every candidate filed under the id it carries |
| `FileWrites.GeneratedFiles` | src/logrisk/feature_jobs.py:352-374 | a generated candidate is refused without an id or its job; otherwise it is merged the same way and every other candidate stays |
| `FileWrites.HomeIsFirst` | src/logrisk/feature_jobs.py:340-350 | the job a lookup takes is the first in directory order, among those allowed, that has the candidate |
| `FileWrites.ReviewFiles` | src/logrisk/feature_jobs.py:376-426 | each refusal of a review exactly when its own condition holds; an accepted one writes its changes, all and only them, into the one candidate |
| `FileWrites.RollbackFiles` | src/logrisk/feature_jobs.py:428-453 | a rollback is accepted exactly for an approved candidate at the version it names; owned fields are as given, absent where not given, the others stay |
| `FileStore.FeatureJobFileStore.SaveJob` | src/logrisk/feature_jobs.py:226-253 | the merge loop over the incoming candidates in order, each filed under its own id |
| `FileStore.FeatureJobFileStore.SaveGeneratedCandidate` | src/logrisk/feature_jobs.py:352-374 | merging one generated candidate |
| `FileStore.FeatureJobFileStore.LocateHome` | src/logrisk/feature_jobs.py:340-350 | the first job in directory order that has the candidate |
| `FileStore.FeatureJobFileStore.ReviewCandidate` | src/logrisk/feature_jobs.py:376-426 | the compare-and-set review |
| `FileStore.FeatureJobFileStore.RollbackCandidate` | src/logrisk/feature_jobs.py:428-453 | the exact-version rollback |
| `GroupStore.RegisterKeepsInv` | src/logrisk/feature_jobs.py:1196-1337 | a registration keeps every group equal to what its attached candidates brought if and only if it is clean |
| `GroupStore.JoinIsExact` | src/logrisk/feature_jobs.py:1274-1284 | a new candidate adds itself, its occurrences and its entity once |
| `GroupStore.RejoinIsExact` | src/logrisk/feature_jobs.py:1274-1284 | a known candidate changes nothing exactly when its entity was counted |
| `GroupStore.CoherentIsClean` | src/logrisk/feature_jobs.py:1216-1230 | carried ids that match their key and steady entities make every registration clean |
| `GroupStore.RegisterKeepsCounts` | src/logrisk/feature_jobs.py:1274-1284 | whatever entity a candidate brings, a registration keeps ids, candidate count and occurrence sum equal to the attached set's if and only if a founded group does not take another group's id |
| `GroupStore.RunKeepsInv` | src/logrisk/feature_jobs.py:1196-1352 | every store of a run shows each candidate in exactly one group and count, ids, occurrences and entities equal to the attached set's, if and only if each registration was clean |
| `GroupStore.CoherentRunIsClean` | src/logrisk/feature_jobs.py:1216-1230 | runs of registrations whose carried ids fit their keys and whose entities stay are clean |
| `GroupStore.RunKeepsCounts` | src/logrisk/feature_jobs.py:1196-1352 | ids, candidate counts and occurrence sums equal the attached set's over every run in which no founded group takes another's id, with any entities |
| `GroupStore.AgainChangesNothing` | src/logrisk/feature_jobs.py:1239 | registering again what is registered changes nothing |
| `GroupStore.RebuildNeverDoubles` | src/logrisk/feature_jobs.py:1379-1403 | a rebuild after a restart counts each candidate and its occurrences once, and another counts nothing more, even when entities drift |
| `GroupStore.CoherentRebuild` | src/logrisk/feature_jobs.py:1379-1403 | with steady entities and fitting ids another rebuild changes nothing at all |
| `GroupMembership.JoinsGroup` | src/logrisk/feature_jobs.py:1214-1239 | a known candidate stays in its group; a new one joins the group it carries, else that of the key it wants, else founds one, whose primary candidate it is; no other group changes |
| `GroupMembership.GroupOfFirstKey` | src/logrisk/feature_jobs.py:1214-1239 | over runs whose carried ids fit their keys every candidate ends in the group of the key it first wanted |
| `GroupMembership.GroupedExactly` | src/logrisk/feature_jobs.py:1214-1239 | two candidates are then in one group if and only if they first wanted one key |
| `GroupStore.EntityDrifts` | src/logrisk/feature_jobs.py:1280-1283 | one candidate registered under two entities: two entities counted |
| `GroupStore.ForeignIdOverwrites` | src/logrisk/approval_dedup.py:677-686 | a group founded under the id another key carries takes that group's place |
| `GroupStore.InMemoryApprovalGroupStore.SaveGroup` | src/logrisk/approval_dedup.py:677-686 | a group whose key is known under another id is stored under that id |
| `GroupStore.InMemoryApprovalGroupStore.AttachCandidate` | src/logrisk/approval_dedup.py:692-698 | attaching is refused when the candidate belongs to another group |
| `GroupStore.InMemoryApprovalGroupStore.GroupFor` | src/logrisk/feature_jobs.py:1239-1337 | the group found or founded, with the figures the registration gives it |
| `GroupStore.InMemoryApprovalGroupStore.RegisterCandidate` | src/logrisk/feature_jobs.py:1196-1352 | registration through the store equals its specification and keeps counts when the id is free, everything when clean |
| `Staging.FeedKeeps` | src/logrisk/feature_jobs.py:1109-1119 | one source record lands in order on a page that stays within 100 records and 1 MiB |
| `Staging.NothingBeforeComplete` | src/logrisk/feature_jobs.py:1134-1137 | over every interleaving nothing is started, retried or annotated unless the pages are the complete source in order |
| `Staging.FailedNeverRuns` | src/logrisk/feature_jobs.py:1124-1130 | a failed or abandoned build never becomes runnable |
| `Staging.BadSourceNeverRuns` | src/logrisk/feature_jobs.py:1111-1113 | a source that breaks off or holds an oversized record never becomes runnable |
| `Staging.RegionDecides` | src/logrisk/feature_jobs.py:1107-1131 | taking a record fails, publishing makes the job ready and a gated action takes effect, each exactly when its own condition holds |
| `Staging.CompleteOpens` | src/logrisk/feature_jobs.py:1107-1124 | a source that does not break off and holds no oversized record becomes runnable, whole and in order, from any point of its building |
| `Staging.PagesAreFull` | src/logrisk/feature_jobs.py:1114-1119 | over every run each page but the last holds a hundred records or had no room for the next one |
| `Staging.ReferencedBuild.BuildJob` | src/logrisk/feature_jobs.py:1086-1131 | the paging loop: bounded, full pages; ready only with the whole source accepted and committed, failed only for a stated cause |
| `JobCursor.PageIsNextStretch` | src/logrisk/sqlite_stores.py:219-261 | a page bounded in rows and bytes is the next stretch of keys and empty only at the end |
| `JobCursor.PageIsFull` | src/logrisk/sqlite_stores.py:219-261 | a page stays within its rows and its bytes and is as long as both allow; it fails exactly where a row over the whole budget comes next |
| `JobCursor.PreviewAdvances` | src/logrisk/feature_jobs.py:2148-2163 | one preview returns the next stretches of both collections; a next cursor is given exactly when keys are left, and leaves fewer |
| `JobCursor.WalkYieldsAll` | src/logrisk/feature_jobs.py:2134-2163 | a walk that ends yields every remaining key of both collections in order |
| `JobCursor.WholeWalk` | src/logrisk/feature_jobs.py:2134-2163 | while the tables stay, the walk from the start yields each entity and each candidate exactly once, if and only if no row is over the byte budget |
| `JobWalk.WholeWalk` | src/logrisk/feature_jobs.py:2134-2163 | over tables that change between any two reads: the keys of both collections increase, each was there when read, and a finished walk has every entity and candidate that stayed throughout exactly once |
| `JobWalk.StretchMissesNothing` | src/logrisk/feature_jobs.py:2148-2156 | a key present in every snapshot is on one of the pages or ahead of the cursor |
| `JobWalk.FollowSucceeds` | src/logrisk/sqlite_stores.py:248-249 | while every row fits the byte budget no request of such a walk fails |
| `JobCursor.ReadPage` | src/logrisk/sqlite_stores.py:219-261 | the reading loop computes the bounded page |
| `RuleChains.ShapedIsValid` | src/logrisk/approved_rules.py:286-361 | a rule of the shape the writer produces passes the strict validator |
| `RuleChains.ValidExactly` | src/logrisk/approved_rules.py:394-420 | a semantic rule of a safe code is valid exactly with a named type, no blank part, a version, the code's own key or one grown from it and no other canonical key |
| `RuleChains.FoundByCode` | src/logrisk/approved_rules.py:715-747 | matching finds exactly the active rule of the feature's code, and the retired rules by code |
| `RuleChains.CreatedForm` | src/logrisk/approved_rules.py:980-1046 | a created rule's key, id, signature and links, and that it validates exactly when its type has a name |
| `RuleChains.RewrittenForm` | src/logrisk/approved_rules.py:980-1068 | a rewritten rule keeps its identity, and gets a new version exactly when a versioned field changed |
| `RuleChains.KeyDecidesPlace` | src/logrisk/approved_rules.py:841-852 | keys and ids decide code and predecessor |
| `RuleChains.UpsertKeepsBase` | src/logrisk/approved_rules.py:922-1081 | an approval keeps ids, keys, signatures distinct and links sound if and only if its type has a name and the predecessor it needs has no successor |
| `RuleChains.ChangeStatusKeeps` | src/logrisk/rule_governance.py:457-480 | any status change keeps identities sound, and one active rule per code exactly when no second is made active |
| `RuleRuns.UpsertKeepsOneActive` | src/logrisk/approved_rules.py:944-978 | an approval leaves one active rule per code, the one it wrote |
| `RuleRuns.UpsertCarries` | src/logrisk/approved_rules.py:1012-1081 | an accepted approval writes description, components, anchors, templates, type and lineage of the feature, signed by its evidence; over the active rule of its code, which keeps identity, age, figures and review date and whose version grows exactly when a content changed, or as a rule of its own; all other rules stay |
| `RuleRuns.UpsertAccepts` | src/logrisk/approved_rules.py:922-953 | a sound store accepts an approval if and only if it names a type and brings an identified template |
| `RuleRuns.StatusChanges` | src/logrisk/rule_governance.py:457-480 | a status changes if and only if the caller names a rule and its present version; then that rule alone, in status, version and stamp |
| `RuleRuns.ReuseCounts` | src/logrisk/approved_rules.py:1149-1170 | a reuse is counted if and only if the rule is there and active; nothing but its figures changes |
| `RuleRuns.UpsertThenMatch` | src/logrisk/approved_rules.py:1106-1147 | after any approval, restamped stores included, the same problem matches exactly the rule written, which says what was approved, if the type has a name, and nothing otherwise |
| `RuleRuns.NamelessBlocksCode` | src/logrisk/approved_rules.py:931-953 | a rule stored under a type without a name is malformed, and every later approval of its code is refused |
| `RuleRuns.NamelessIsStored` | src/logrisk/approved_rules.py:922-1081 | an empty store accepts such a feature, and then refuses a proper one of the same code |
| `RuleRuns.ReuseKeeps` | src/logrisk/approved_rules.py:1149-1170 | recording a reuse keeps the store sound |
| `RuleRuns.StepKeepsSound` | src/logrisk/approved_rules.py:922-1081 | one event keeps the store sound if and only if it was permitted |
| `RuleRuns.RunKeepsSound` | src/logrisk/approved_rules.py:922-1147 | over every permitted run: valid rules, distinct ids, keys, signatures and stamps, sound links, one active rule per code |
| `RuleRuns.RetiringRunIsPermitted` | src/logrisk/approved_rules.py:922-1147 | approvals and retirements alone are always permitted |
| `RuleRuns.ChainDescends` | src/logrisk/approved_rules.py:993-998 | predecessors lead back in time through the same code to its first rule |
| `RuleRuns.OneChain` | src/logrisk/approved_rules.py:993-998 | of any two rules of a code one descends from the other |
| `RuleRuns.UnclearCollides` | src/logrisk/approved_rules.py:999-1001 | when the guard fails the approval repeats an id and a key of the store |
| `RuleRuns.RestampReachesIt` | src/logrisk/rule_governance.py:205-225 | permitted events alone reach that state: approve, disable, approve, disable, archive the first |
| `RuleStore.ApprovedRuleStore.UpsertFeature` | src/logrisk/approved_rules.py:922-1081 | the upsert step by step equals its specification; a refusal writes nothing |
| `RuleStore.ApprovedRuleStore.Reuse` | src/logrisk/approved_rules.py:1149-1170 | reuse counts on active, intact rules only |
| `ReviewGroups.KeyDecidesSemantic` | src/logrisk/approval_queue.py:188-193 | the review key alone decides whether a group is semantic and then its problem code |
| `ReviewGroups.FiguresGrow` | src/logrisk/approval_queue.py:226-237 | how one more member changes sums, entities, bounds and the representative |
| `ReviewGroups.GroupPending` | src/logrisk/approval_queue.py:169-220 | the first loop: pending candidates by key, first of each id |
| `ReviewGroups.Figure` | src/logrisk/approval_queue.py:224-237 | one pass over a group's members computes its figures and its minimal representative |
| `ReviewGroups.Summarize` | src/logrisk/approval_queue.py:222-274 | a group's title, summary, counts, bounds, sorted ids and representative are those its members define |
| `ReviewGroups.BuildReviewGroups` | src/logrisk/approval_queue.py:166-275 | one group per key, keys in order, each as its members define it, whatever duplicates arrive |
| `GroupFigures.TogetherExactly` | src/logrisk/approval_queue.py:180-193 | two candidates are reviewed together if and only if both are of one safely resolved problem, or neither is and they have one approval key |
| `GroupFigures.TakesFirstPending` | src/logrisk/approval_queue.py:172-179 | the batch takes the pending candidates with an id, and of each id the first |
| `GroupFigures.RepresentativeIsFirst` | src/logrisk/approval_queue.py:144-157 | no member is more important than the representative, of those as important none is riskier, then none older, then none of a smaller id |
| `GroupFigures.ImportanceOrder` | src/logrisk/approval_queue.py:11 | critical, high, medium, low, anything else; none given counts as medium |
| `GroupFigures.OccurrencesAddUp` | src/logrisk/approval_queue.py:87-102 | an explicit count, else the counts of the source templates added up, nothing below zero |
| `GroupFigures.EntitiesCounted` | src/logrisk/approval_queue.py:105-111 | affected entities are counted one by one where no name has a bar, and never twice |
| `GroupFigures.SeenFrom` | src/logrisk/approval_queue.py:114-121 | first and last times come from the range, else the window, else the creation or the first time |
| `GroupFigures.BoundsEnclose` | src/logrisk/approval_queue.py:226-262 | a group's bounds are times of members, and no member lies outside |
| `GroupFigures.GroupShownAs` | src/logrisk/approval_queue.py:238-274 | a semantic group is titled by the problem all its members have, any other by its representative; ids are the members in order |
| `EntityNames.KeyIsOwnExactly` | src/logrisk/approval_queue.py:105-111 | an entity has its key to itself if and only if no name has a bar in it |
| `EntityNames.CountedApart` | src/logrisk/approval_queue.py:236 | distinct plain entities are counted apart |
| `Projection.IncrementalIsRebuilt` | src/logrisk/approval_projection.py:11-43 | after any sequence of candidate updates the projection equals a rebuild |
| `Projection.ServedIsDefined` | src/logrisk/approval_projection.py:63-75 | a served group is the one its pending members define, ids cut at 500 |
| `Projection.ServedAgreesWithBatch` | src/logrisk/approval_projection.py:46-83 | a served group agrees with the batch on key, representative, title, summary, counts, bounds and the first 500 ids |
| `Projection.TotalsAgree` | src/logrisk/approval_projection.py:76-80 | the totals of a page equal those of the pending candidates |
| `Projection.ApprovalProjection.Update` | src/logrisk/approval_projection.py:11-25 | an update writes the row the candidate alone defines, or deletes it |
| `Projection.ApprovalProjection.Rebuild` | src/logrisk/approval_projection.py:28-43 | the paged rebuild equals the projection of the table and starts a new generation |
| `Keyset.PageTakesLeast` | src/logrisk/approval_projection.py:59-62 | a page is the least keys after the cursor, in order |
| `Keyset.PageCuts` | src/logrisk/approval_projection.py:59-62 | what lies after a page is exactly what it did not take |
| `ReviewPaging.PageGives` | src/logrisk/approval_projection.py:46-83 | one request: least keys beyond the cursor; a next cursor exactly when keys are left out, all of them beyond it |
| `ReviewPaging.WholeWalk` | src/logrisk/approval_projection.py:46-83 | over any changes without a rebuild a walk's keys increase strictly, and a finished walk has every key that stayed pending exactly once |
| `ReviewPaging.WalkMissesNothing` | src/logrisk/approval_projection.py:46-83 | a key pending throughout is returned or still lies ahead of the cursor |
| `ReviewPaging.WalkFinishes` | src/logrisk/approval_projection.py:46-83 | with the keys from one set the walk ends |
| `ReviewPaging.WalkStopsAtRebuild` | src/logrisk/approval_projection.py:46-58 | a walk succeeds if and only if every request of it saw the generation it started in |
| `ReviewPaging.ItemsAreServed` | src/logrisk/approval_projection.py:81-83 | every item of a page is a group pending then, as its members defined it |
| `Repair.RepairKeepsFigures` | src/logrisk/approval_repair.py:164-195 | a repair keeps every group's figures equal to a recomputation over its members |
| `Repair.RepairMoves` | src/logrisk/approval_repair.py:116-201 | each child is in the one group of its key; the groups of the planned rows and of the children's keys show their members' figures and keep their primary candidate while it is a member, an emptied pending one is superseded, no other group changes; the lists of the planned jobs' entities have every planned id replaced where it stood by its children's, other lists stay |
| `Repair.ReplaceAllAffects` | src/logrisk/approval_repair.py:118-163 | the groups recorded as touched are exactly those |
| `Repair.RepairKeepsOthers` | src/logrisk/approval_repair.py:116-163 | candidates outside the plan keep row and membership, and only children join groups |
| `Repair.StaleChangesNothing` | src/logrisk/approval_repair.py:143-150 | one planned candidate changed since it was read: nothing is written |
| `RepairCommits.CommitsExactly` | src/logrisk/approval_repair.py:118-163 | the repair commits if and only if every planned row is pending at the version read and every child, in order, brings an id nobody has and a key that has a group or can found one |
| `RepairFigures.ListsMembers` | src/logrisk/approval_repair.py:172-183 | a group's figures list its members in order and count plain entities one by one |
| `RepairFigures.OccurrencesAdd` | src/logrisk/approval_repair.py:184 | occurrences add up member by member |
| `RepairFigures.BoundsEnclose` | src/logrisk/approval_repair.py:177-185 | the bounds are times of members, and no member lies outside |
| `Repair.ExpansionIsInPlace` | src/logrisk/approval_repair.py:197-201 | a planned id gives way to its children's ids between what becomes of the ids before and after it; unplanned ids stay |
| `Repair.ExpansionOf` | src/logrisk/approval_repair.py:199 | a planned id stands for its children's ids in order, any other for itself |
| `Repair.ExpandsToMembers` | src/logrisk/approval_repair.py:197-201 | an id is in the new list if and only if it was in the old one unplanned, or is a child of a planned one that was |
| `Repair.Compute` | src/logrisk/approval_repair.py:172-184 | one pass over the member rows computes the figures |
| `Repair.ApprovalTables.ReplaceRow` | src/logrisk/approval_repair.py:120-163 | placing the children of one planned row |
| `Repair.ApprovalTables.RecomputeGroups` | src/logrisk/approval_repair.py:164-195 | the loop over the touched groups |
| `Repair.ApprovalTables.ExpandLists` | src/logrisk/approval_repair.py:196-201 | the loop over the entities of the planned jobs leaves exactly the expanded lists |
| `Repair.ApprovalTables.RepairPending` | src/logrisk/approval_repair.py:88-220 | the whole repair as one transaction, rolled back when refused |
| `Mining.SharedIsExpected` | src/logrisk/drain_miner.py:65-80 | one shared manager yields for each record the event its shard's state gives there |
| `Mining.StepKeepsInv` | src/logrisk/drain_miner.py:233-259 | every worker step keeps its shard's state, fills only its own slots and never lowers a counter |
| `Mining.ParallelIsSequential` | src/logrisk/drain_miner.py:173-264 | whatever the interleaving, event i is the shared manager's, no slot is empty and the counters end at the totals |
| `ShardFiles.FilesAreSequential` | src/logrisk/drain_miner.py:173-264 | whatever the interleaving, the state files are at the end those the shared manager leaves: each shard's as of its last record that saved, no other touched |
| `ShardFiles.SameShardExactly` | src/logrisk/drain_miner.py:144-151 | two records go to one shard exactly when they agree on cluster, source type, component and, when partitioned by node, node, missing names counting as their defaults |
| `Mining.SharedFilesAfter` | src/logrisk/drain_miner.py:35-57 | one shared manager leaves each shard's file as that shard's records alone do |
| `Mining.SomeoneCanGo` | src/logrisk/drain_miner.py:235-250 | until every partition is collected some worker can go on |
| `StateFiles.ParallelIsSequentialExactly` | src/logrisk/drain_miner.py:35-57 | for given files and records: every miner over every completing interleaving yields the shared manager's events if and only if no two shards share a state file |
| `StateFiles.Diverges` | src/logrisk/drain_miner.py:50-51 | whenever two shards share a file, a completing run whose events are not the shared manager's |
| `StateFiles.OpenedTogether` | src/logrisk/drain_miner.py:233-250 | two records of such shards, both workers opening the file before either writes: what the run and the shared manager yield |
| `StateFiles.NamesCollide` | src/logrisk/drain_miner.py:50-51 | slashes and blanks become underscores and underscores join the parts: two pairs of shards with one file |
| `StateFiles.SharedFileBreaksIt` | src/logrisk/drain_miner.py:50-51 | a concrete input and run that yields other events than the shared manager |
| `Mining.ShardManager.MineEvent` | src/logrisk/drain_miner.py:35-57 | one event through the manager's miners and files |
| `Mining.MinePartition` | src/logrisk/drain_miner.py:154-170 | a manager of its own mines one shard to the expected events, leaves its file as its last saving record does and every other file alone |
| `Mining.PartitionRecords` | src/logrisk/drain_miner.py:187-190 | positions grouped by shard, in input order |
| `Mining.CollectEvents` | src/logrisk/drain_miner.py:219-224 | events are written into their own slots |
| `Mining.MineTemplateEvents` | src/logrisk/drain_miner.py:173-264 | partition after partition, events in input order and state files are the shared manager's, and progress rises to the totals |
| `IsoTimes.DaysAreOrdered` | src/logrisk/aggregator.py:132 | day numbers of the Gregorian calendar increase with year, month and day |
| `IsoTimes.DateOf` | src/logrisk/aggregator.py:132 | every day number has a valid date, of a four-digit year for the days of years 1 to 9999 |
| `IsoTimes.SecondsAreOrdered` | src/logrisk/aggregator.py:132 | the padded texts of seconds are equally long and ordered as the seconds |
| `IsoTimes.EpochAndEnd` | src/logrisk/aggregator.py:132 | the calendar puts the epoch on 1 January 1970 and ends on 31 December 9999 |
| `IsoTimes.IsoIsChronological` | src/logrisk/aggregator.py:132-137 | comparing the ISO texts is comparing the times, with and without fractions |
| `IsoReading.IsoReadsBack` | src/logrisk/aggregator.py:16-23 | reading the ISO text of a time gives the time back |
| `Aggregation.OwnWindow` | src/logrisk/aggregator.py:45-48 | a time lies in its window if and only if it is not before the epoch, or whole, or its whole second opens no window |
| `Aggregation.BeforeTheEpoch` | src/logrisk/aggregator.py:45-48 | half a second before the epoch falls before its own window |
| `WindowContents.SameStartExactly` | src/logrisk/aggregator.py:45-48 | from the epoch on a time belongs to another's window exactly when it lies in it |
| `WindowContents.ShareWindowExactly` | src/logrisk/aggregator.py:74-88 | two events share a window exactly when they agree on window start, cluster, entity, component, template, source, extractor, dictionaries, risk and, for systemd, unit |
| `WindowContents.WindowOf` | src/logrisk/aggregator.py:90-128 | a window is there exactly when an event falls into it, and holds what its own events make of it in order |
| `WindowContents.WindowCounts` | src/logrisk/aggregator.py:129-173 | it counts its events, each severity, each field value and each whole typed parameter as often as they came |
| `WindowContents.WindowNames` | src/logrisk/aggregator.py:144-163 | it names the namespaces, pods, entities, tags and whole relations its events bring, and no others |
| `WindowContents.WindowArrival` | src/logrisk/aggregator.py:138-142 | it keeps its first event's own fields, the severity text of the first of its worst events and the first three samples |
| `WindowContents.SeverityOrder` | src/logrisk/aggregator.py:138 | the ranks of the nine known severities, every other text below |
| `WindowContents.CaseDoesNotMatter` | src/logrisk/aggregator.py:130-139 | severities that differ in the case of letters rank and count alike |
| `Aggregation.OrderDoesNotMatter` | src/logrisk/aggregator.py:128-173 | counts, severities, bounds, entity and tag sets are the same for the events in any order |
| `Aggregation.EventsAreConserved` | src/logrisk/aggregator.py:129-131 | window counts sum to the events, severity distributions to the window counts |
| `Aggregation.BoundsAreChronological` | src/logrisk/aggregator.py:132-137 | first and last seen are the chronological minimum and maximum of the window's times |
| `Aggregation.BoundsLieInside` | src/logrisk/aggregator.py:71-72 | first and last seen of a window none of whose events is before the epoch lie inside it |
| `Aggregation.TemplateEventAggregator.Extend` | src/logrisk/aggregator.py:128-173 | one event into one window |
| `Aggregation.TemplateEventAggregator.AddEvent` | src/logrisk/aggregator.py:68-173 | the windows are always the aggregation of everything added |

## Left out

- UnitOfWork.ApprovalUnit: the `store` attribute of a paged collection is a map from collections to handles; units that join an open transaction or run without a database are not modelled.
- JobObjects.RestoreLoaded: a saved active record that shared its copy with a saved loaded record is treated as a copy of its own.
- ReviewProtocol.Transaction: `_review_feature_in_transaction` is a function of the candidates that may refuse; observability, rule writes and identity locks inside it are not modelled.
- ReviewQueue.Step: the send of an entry starts in the pump's order; the microtask between is not a step of its own. Browser rendering is not modelled.
- JobCache.Access: sizes are whatever each lock region measures; job contents are not modelled, nor the jobs cached at start-up (`JobRecency.RunByUse` takes any cache in order of use).
- FileStore.FeatureJobFileStore.SaveGeneratedCandidate: the job's own candidates are saved again in the order of their ids, not of its dictionary, which matters only when two of them carry one inner id; in a store written by these operations none do (`FileWrites.StepKeepsNames`).
- FileStore.Save: sanitising of payloads, events, file locks and atomic renames are not modelled.
- GroupStore.Register: group status, rule resolution, titles and first/last seen are not modelled, only membership and its figures.
- Staging.Job: entities that share an id share a row of the staging table; pages are compared with the source, not rows.
- JobCursor.ReadPage: a page sees the rows of one moment; a payload that grows between the reading of its size and its own reading fails the request in the source. While rows keep coming between a request's page and its look ahead a walk need not end.
- RuleStore.ApprovedRuleStore.UpsertFeature: features without a safe semantic identity, legacy V1 rules and `template_set` replacements, where writer and validator disagree, are not modelled; nor is the stored order by id, which decides nothing while stamps are distinct. In the SQL store the repeated id of `RuleRuns.UnclearCollides` overwrites the successor's row.
- RuleStore.MatchFeature: `match_entity` and its component and template conditions are not modelled.
- ReviewGroups.BuildReviewGroups: which member lends a group its resolution details is stated only as some member; sanitising of the representative is not modelled, nor trimming and case of the importance.
- Repair.Repair: which children a candidate gets is the plan's; the check for running jobs, the job snapshot, its event and the projection rows are not modelled.
- Mining.Miner: a deterministic state transformer; template hashes, routes and parameters are part of the event it yields.
- Aggregation.TemplateEventAggregator.AddEvent: rounding of floating-point timestamps and the final sort are not modelled, the number of samples kept is the default one; what depends on the order of arrival is in `WindowContents.WindowArrival`.
- SqlScanners.QmarkToPyformat: a literal percent sign is copied as it is; the paramstyle's escaping of percent signs is not part of this code.
- `same_approval_identity`, the regex and Unicode normal forms of `approval_dedup.py`, `_merge_templates` and problem resolution: taken as given or not needed by the properties above.
- HTTP, rendering, provider calls, traces, migrations, the SQL engine and the operational ledgers: plumbing around the modelled state.
