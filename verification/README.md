# Verification model of the batch pipeline

The pipeline copies a relational source into an object store and publishes a warehouse file. Its
correctness lies in protocols kept in database rows. This project models five of them and proves what
they promise, for every input and every run:

- **Source lease, generator commit, ingestion** (`SourceLease`, `SourceSystem`, `GeneratorService`,
  `BronzeSystem`, `BronzeSafety`, `BronzeGuarantees`, `BronzeGuards`, `BronzeControl`, `IngestionService`,
  `RewindWitnesses`). One state joins
  the lease row, the source tables and commit markers, the watermarks with their table leases, the run rows,
  the object store, the catalog and all processes. A step is one transaction, one storage write, one read or
  one crash; a step whose guard fails changes nothing. An inductive invariant over all steps gives
  `NoSilentLoss`, `OneTenureOneSource`, `Fencing`, `ExactlyOnce`, `WatermarkHistory` and
  `AtMostOneCommitPerBatch`.
- **Keyset extraction and validation** (`Cursors`, `Extraction`, `Validation`). The SQL order of cursors and
  Python's order agree; the paging loop is one ordered scan; the validator's verdicts do not depend on page
  boundaries.
- **Subscription billing** (`Billing`, `SubscriptionRuns`). The scan over contracts, with retries, grace
  period, profiles and runs: closed form, tiling, retry bound, idempotence.
- **Publication** (`Publish`, `PublishRecovery`). Status rows and a file swap that share no transaction, with
  crashes between any two steps and a recovery that reads file identities.
- **Order progress** (`OrderProgress`, `OrderRuns`). Scaled delays with half-even rounding and linked payment
  transitions, under scales that change from run to run.

## How to read the model

- A table is a set of records with unique primary keys. SQL range predicates, `ORDER BY` and `LIMIT` are
  functions on that set. Rows are inserted or replaced, never deleted.
- `now` is a free parameter of every step, so no theorem about the lease, the watermarks or the catalog relies
  on clocks that agree or move forward. A heartbeat is a renewal step that may or may not happen.
- The share lock of the fenced commit is a set of holders: while it is not empty, lease updates wait. The
  model assumes that a process keeps its pipeline connection, and with it the lock, until its source
  transaction is decided: losing that connection while the process lives, or a source COMMIT that takes effect
  after the lock was dropped, is not a step.
- Each table has one pipeline. The start is the seeded source with empty control tables.
- Functions and transitions follow the code. Beside each stands a description that does not use it: which fields
  must hold what for the operation to take effect, and what the fields hold afterwards (`BronzeGuards`,
  `VisitFollowsTheFields`, `CodesMean`, `PublishSucceeds`, `AdvanceFollowsTheFields`), with a theorem that the
  two agree.
- Identifiers derived by hashing (batch, contract, payment and object ids) are injective and appear as the
  tuples they are derived from. Hash-based choices (billing outcomes, order draws, selected candidates) are
  arbitrary parameters.
- Instants are whole microseconds; decimals are counted in cents. The reject rate is compared over the reals;
  double precision decides the same way for any batch below 10^15 rows.
- A file identity is the run that wrote the file with a count of its writes, so every write is fresh.
- Classes follow the functions that update rows step by step; their methods are proved against functions,
  and the theorems are about those functions. Methods of `IngestionService`, `GeneratorService` and
  `PublishRecovery` run without interference; the interleaved behaviour is that of the transition systems.

## Findings

- **A rewind is not always exact.** A rewind promises that the next range is everything at or after its
  boundary. `RewoundRangeIsExact` gives the exact condition: the snapshot behind the range has no row between
  the target and the boundary. Two families of runs violate it. The target is resolved before the table lease
  is taken, so a boundary beyond the newest row lets in rows that arrive later and are stamped before it
  (`LateRowAfterRewind`; `RewindExactness` says when a target is safe from them). And a reconciliation compares
  cursors but no versions, so an orphan older than the rewind lands on the rewound watermark with rows that
  have been superseded since (`OlderOrphanAfterRewind`). Before the call, a rewind can check that the table has
  a row no earlier than one microsecond before the boundary (`CommitAfterRewind`), and a reconciliation that no
  row of the stored object is stamped before it (`ReconcileAfterRewind`).
- **A recovery can misjudge a swap.** The row is read before it is closed, and neither the move to PUBLISHING
  nor the swap refreshes the heartbeat. If a run was read as BUILDING, then marked, swapped and crashed, the
  conditional update still matches and closes as FAILED the run whose file is published
  (`LateVerdictLosesSwap`). Even a right verdict does harm when the process is past its own status check and
  has yet to swap (`LiveRunSwapsAfterClose`). `CloseIsHarmless` shows that nothing else can go wrong: the file
  stays accounted for if and only if the verdict still holds at the close and the process is not at that point.
- **The churn profile cannot succeed.** The expiry scan of the same run has already ended every contract the
  profile would pick (`ChurnProfileAlwaysRaises`).
- **The realignment branch of the scan is never taken** by contracts the generator itself created
  (`RenewalIsUncovered`, `VisitKeeps`).
- **An approval can be planned at the creation time** under a large scale; `ApprovalCanVanish` says when.
- "Newest PUBLISHED run" is read as the run closed last. The repository orders by the recorded finishing time,
  which is the same order as long as clocks do not run backwards.

## Model

| member | source | states |
|---|---|---|
| `BronzeGuarantees.NoSilentLoss` | src/ingestion/control/metadata.py:289-395 | Over every interleaving of generator runs, ingestion attempts, takeovers, crashes, rewinds and reconciliations, each row now at or below a watermark is, in its current version, in a committed object |
| `BronzeGuarantees.CommittedObjectIsImage` | src/ingestion/service.py:181-262 | A committed object is exactly the rows after its lower bound of one source state, valid and rejected rows apart, at most one in twenty rejected |
| `BronzeGuarantees.LaterChecksSeeNoCommit` | src/ingestion/service.py:222-246 | An attempt gets past a lease check after its snapshot only if no source commit happened since its first check: the newest source state is the one it checked and the one it read |
| `BronzeGuarantees.OneTenureOneSource` | src/ingestion/service.py:171-246 | All attempts that passed the second check under one warehouse token, committed or not, read one and the same source state, the one their first check saw |
| `BronzeGuarantees.ObjectsOfOneTenure` | src/ingestion/service.py:181-262 | All objects committed under one warehouse token are images of one source state |
| `BronzeGuarantees.CommittedObjectIsStored` | src/ingestion/service.py:239-262 | In every run what the catalog lists is in storage: object, manifest and, when rows were rejected, quarantine object hold what the entry says |
| `BronzeGuarantees.EachStepMovesAtMostOnce` | src/ingestion/control/metadata.py:205-471 | Each step either leaves watermarks, history and catalog alone or makes one forward commit or one backward rewind from the current position, version plus one, with at most one new catalog key |
| `BronzeGuarantees.OtherStepsKeepControl` | src/ingestion/control/metadata.py:398-471 | Failed, empty and skipped runs, checks, uploads and crashes change no watermark position, no version and no catalog entry |
| `BronzeGuarantees.WatermarkHistory` | src/ingestion/control/metadata.py:289-395 | The watermark is the end of an unbroken chain of events whose count is its version; commits move it forward, rewinds backward |
| `BronzeGuarantees.AdvancesTile` | src/ingestion/control/metadata.py:359-395 | Between rewinds the committed ranges cover every cursor between the first lower and the last upper bound exactly once |
| `BronzeGuarantees.AtMostOneCommitPerBatch` | src/ingestion/service.py:161-169 | Two commits of a table never carry the same batch, and commits and catalog entries correspond bound for bound |
| `BronzeGuarantees.RewoundRangeIsExact` | src/ingestion/reprocess.py:72-126 | An object landed on a rewound watermark holds exactly its snapshot's rows at or after the boundary if and only if that snapshot has no row between target and boundary; so it is for the snapshot the rewind saw, and for later ones when the rewind saw a row no earlier than one microsecond before the boundary |
| `BronzeGuarantees.FirstRangeAfterRewind` | src/ingestion/reprocess.py:72-126 | In every run the range committed right after a rewind, by an attempt or a reconciliation, starts at the rewind's target and is exact under the same conditions |
| `BronzeGuarantees.CommitAfterRewind` | src/ingestion/control/metadata.py:323-352 | A commit right after a rewind read the watermark after the rewind and a snapshot no older; it is exact when the boundary was covered, and otherwise exactly when no extracted row is stamped before the boundary |
| `BronzeGuarantees.ReconcileAfterRewind` | src/ingestion/bronze/orphan.py:96-120 | A reconciliation right after a rewind, which compares cursors and no versions, lands an exact range if and only if no row of the stored object is stamped before the boundary |
| `RewindWitnesses.LateRowAfterRewind` | src/ingestion/reprocess.py:82-113 | A run from the start in which a row stamped before the boundary arrives after the target was resolved, the rewind is accepted, and the next committed range holds the row |
| `RewindWitnesses.OlderOrphanAfterRewind` | src/ingestion/bronze/orphan.py:96-120 | A run from the start in which the boundary is covered, the rewind is accepted, and reconciling an orphan older than the rewind lands a superseded row stamped before the boundary |
| `BronzeGuarantees.ValidatedSnapshotIsExtracted` | src/ingestion/service.py:222-238 | What the validator writes for a snapshot is the split the attempt records, and both reject-rate gates agree |
| `BronzeSafety.ExecuteInv` | src/ingestion/service.py:146-291 | Every sequence of steps keeps the joint invariant over lease, source, watermarks, storage, catalog and attempts |
| `BronzeSafety.LandKeeps` | src/ingestion/control/metadata.py:289-395 | A commit or reconciliation whose lower bound is the current watermark keeps the invariant: nothing appeared below its upper bound since the snapshot |
| `BronzeSafety.CatalogKeyNeverRefuses` | src/ingestion/control/metadata.py:323-352 | An attempt that still holds its watermark version never meets its own catalog key, so the primary key cannot refuse the commit |
| `BronzeSafety.OrphanEntry` | src/ingestion/bronze/orphan.py:63-113 | An inspected orphan without quarantine object is, object for object, what its attempt extracted |
| `IngestionService.Service.IngestTable` | src/ingestion/service.py:146-291 | An undisturbed attempt, under a given source lease or one it acquires and gives up, commits everything after the watermark, rejects as the validator must, leaves the watermark at the table's last cursor and the table lease free, or says truthfully why nothing moved, with a run row that tells the ending; it ends for a lost source lease or a held table lease exactly when the rows say so; storage only gains objects of its batch, and on a failure only when an upload met an existing object |
| `IngestionService.Service.Reuse` | src/ingestion/service.py:477-530 | A batch already in the catalog is reused exactly when its schema version is the requested one and the watermark stands at its upper bound; otherwise it is refused as a conflict; either way the run row says so and nothing moves |
| `IngestionService.Service.Upload` | src/ingestion/service.py:239-262 | The attempt commits unless storage already holds its batch |
| `IngestionService.NewEntryIsImage` | src/ingestion/service.py:248-261 | The new entry covers the whole rest of the table, and no row lies beyond its upper bound |
| `BronzeControl.ControlTables.CommitTableRun` | src/ingestion/control/metadata.py:289-395 | The commit succeeds exactly when the table lease is held by the attempt past the commit time, its run row is RUNNING and the watermark has the version and cursor it saw; the new watermark, run row, entry and event are told on their fields, and a refusal names the first guard that failed and changes nothing |
| `BronzeControl.ControlTables.RewindWatermark` | src/ingestion/control/metadata.py:205-256 | The rewind succeeds exactly when the watermark has the leased version, the target is earlier and the lease is held and live; the cursor moves to the target, the version rises by one, and a refusal names the first guard that failed |
| `BronzeControl.ControlTables.RecordEnd` | src/ingestion/control/metadata.py:398-471 | Only a RUNNING run can be closed, and nothing but its status changes |
| `BronzeControl.ControlTables.AcquireTableLease` | src/ingestion/control/lease.py:123-153 | Granted exactly when free, expired or already held by the same owner, with the version it fences |
| `BronzeControl.ControlTables.RenewTableLease` | src/ingestion/control/lease.py:156-190 | Renewal only by the live owner at the fenced version |
| `BronzeControl.ControlTables.AssertTableLease` | src/ingestion/control/lease.py:193-212 | Accepts exactly the live owner at the fenced version |
| `BronzeControl.ControlTables.ReleaseTableLease` | src/ingestion/control/lease.py:215-231 | Only the owner releases |
| `BronzeControl.ControlTables.ReconcileOrphan` | src/ingestion/bronze/orphan.py:96-190 | The reconciliation succeeds exactly when the run of the manifest is RUNNING with its bounds, the watermark stands at the lower bound and the key is free; it lands the stored rows, and a refusal says why and changes nothing |
| `BronzeControl.ControlTables.RewindTables` | src/ingestion/reprocess.py:72-126 | Each table is rewound on the source state and at the time it meets, in order, and reported; the first table whose lease is held or whose target is not earlier stops the rewind, with the tables before it rewound and itself where it was; a dry run reports the targets and writes nothing |
| `BronzeControl.VisitsLeave` | src/ingestion/reprocess.py:82-125 | After a rewind an unnamed table is untouched, and a named one stands, with a free lease, at the target of its last visit with its version raised once per visit |
| `BronzeControl.ControlTables.RewindTable` | src/ingestion/reprocess.py:99-115 | A table is rewound exactly when its lease can be had and the target is earlier; the lease is given back either way |
| `BronzeGuards.CommitNeeds` | src/ingestion/control/metadata.py:293-361 | A commit step takes effect exactly when the attempt passed its last check and its lease row, run row, version and cursor are as required at its own time; its whole effect is named |
| `BronzeGuards.EntryNeeds` | src/ingestion/control/metadata.py:303-340 | In every state, reachable or not, a catalog entry appears only by a commit whose attempt holds the table lease past the commit time, or by a reconciliation that finds its rows as required |
| `BronzeGuards.RewindNeeds` | src/ingestion/control/metadata.py:224-250 | A rewind step moves the watermark exactly when the leased version stands, the target is earlier and the lease is its own and live |
| `BronzeGuards.ReconcileNeeds` | src/ingestion/bronze/orphan.py:96-190 | A reconciliation step lands exactly when run, bounds, cursor and free key are as required |
| `BronzeGuards.VerifyNeeds` | src/ingestion/service.py:234-237 | The check after the snapshot passes exactly under both leases, live at its time, and at most one rejected row in twenty |
| `BronzeGuards.RecheckNeeds` | src/ingestion/service.py:244-247 | The last check before the commit passes exactly under both leases, live at its time |
| `BronzeGuards.SourceCheckNeeds` | src/ingestion/service.py:174-181 | An attempt goes past its first check only with a warehouse token that is current and live |
| `BronzeGuards.LeaseMovesOnlySo` | src/ingestion/control/lease.py:123-231 | Over all steps a table lease changes only when somebody takes it free or expired, or its live holder renews it, or its holder gives it back |
| `BronzeGuards.FreeLeaseIsHadForIngest` | src/ingestion/control/lease.py:123-153 | An attempt that finds the lease free, expired or its own gets it, to now plus its duration |
| `BronzeGuards.FreeLeaseIsHadForRewind` | src/ingestion/control/lease.py:123-153 | So does a rewind |
| `SourceSystem.Fencing` | src/common/lease.py:69-148 | Each lease version has one owner, and a source commit under a token follows its grant with no grant or release in between, whatever the clocks say |
| `SourceSystem.ExactlyOnce` | src/generator/service.py:96-190 | At most one source transaction commits per deterministic input, and every call that returned reported that commit |
| `SourceSystem.MarkerIndexNeverRefuses` | src/generator/core/commits.py:50-71 | A run that reached the fence finds no marker of its input, so the unique index cannot refuse its commit |
| `SourceSystem.SourceOnlyMovesForward` | src/generator/service.py:210-221 | Every row added to a table in any run is newer than all rows the table had before |
| `SourceSystem.VersionNeverDecreases` | src/common/lease.py:69-97 | No step lowers the lease version |
| `SourceSystem.LeaseMovesOnlySo` | src/common/lease.py:46-173 | Over all steps the lease row changes only by a taking while it is free or expired, a renewal by its live holder or a release by its holder, and never while a fenced commit has it locked |
| `SourceSystem.HolderChangesAfterExpiry` | src/common/lease.py:69-91 | When a step changes the holder from one owner to another, the earlier hold has expired at the time of the step, and the new one runs to now plus its duration under the next version |
| `SourceSystem.AcquisitionIsAnswered` | src/common/lease.py:69-91 | A live lease stays as it is whoever asks; a free or expired one is granted with the next version to now plus the duration; a generator goes on exactly when it was granted |
| `SourceSystem.CurrentTokenIsAnswered` | src/common/lease.py:100-173 | A current token renews its live lease to now plus the duration, and releases it with the next version |
| `SourceSystem.FenceNeedsLiveLease` | src/common/lease.py:140-148 | The fence opens exactly for the live token of the row |
| `SourceSystem.ExecuteInv` | src/generator/service.py:86-207 | Every interleaving of generator, warehouse and lease steps keeps the invariant |
| `SourceLease.LeaseTable.Acquire` | src/common/lease.py:46-97 | Grants a free or expired lease with the next version to now plus the duration, answers its active owner with the same token, and refuses every other owner while the lease is live, leaving the row as it is |
| `SourceLease.LeaseTable.Renew` | src/common/lease.py:100-127 | Sets the expiry of the current live token's lease to now plus the duration, and refuses every other token |
| `SourceLease.LeaseTable.Assert` | src/common/lease.py:130-137 | Accepts exactly a current, unexpired token |
| `SourceLease.LeaseTable.Release` | src/common/lease.py:151-173 | Frees the row and raises the version, for the matching owner and version only |
| `GeneratorService.Service.RunGenerator` | src/generator/service.py:86-207 | An undisturbed run reports the one commit of its input: that of an earlier successful run without touching the lease, that of a marker it found, or its own; otherwise the source is untouched. It ends busy exactly when no success is recorded and the lease is live for another owner, and refuses its date exactly when that is not forward; its run row says how it ended, and its lease is free afterwards |
| `GeneratorService.Service.ReuseRun` | src/generator/service.py:96-98 | With a successful run of the input in the history its result is returned, which is the one commit of the input, and nothing but the report changes |
| `GeneratorService.Service.CommitNew` | src/generator/service.py:123-177 | Without a marker the run commits its rows and marker together, or refuses a date that is not forward |
| `GeneratorService.Service.ReuseCommit` | src/generator/service.py:107-122 | With a marker the earlier commit is reported and the source untouched |
| `Extraction.Pages` | src/ingestion/extraction/extract.py:89-112 | The concatenated pages are one ordered scan of the fixed range; only the last page may be short; the loop terminates |
| `Extraction.ScanIsWholeSnapshot` | src/ingestion/extraction/extract.py:166-242 | The scan holds exactly the rows after the watermark, ascending, and ends at the fixed upper bound |
| `Extraction.ResumeAfter` | src/ingestion/extraction/extract.py:202-242 | Restarting after the last cursor of a page leaves exactly the rest of the scan |
| `Extraction.UpperBoundClosesRange` | src/ingestion/extraction/extract.py:166-185 | Nothing lies beyond the upper bound, and it is absent exactly when nothing is new |
| `Extraction.OrderedContents` | src/ingestion/extraction/extract.py:267-272 | The ordered rows are the rows of the set, strictly ascending |
| `Extraction.CursorBeforeSplits` | src/ingestion/extraction/extract.py:141-163 | Extraction after the last cursor before a boundary takes exactly the rows at or after it |
| `Extraction.RewindExactness` | src/ingestion/extraction/extract.py:141-163 | The target stays exact in every later state if and only if the table already had a row at or after one microsecond before the boundary |
| `Extraction.AcceptedRewindIsExact` | src/ingestion/control/metadata.py:228-230 | A target resolved on a state that holds the watermark's row stays exact when the rewind is accepted |
| `Cursors.OrdersAgree` | src/ingestion/extraction/extract.py:188-272 | Python's comparison of normalized cursors is the SQL order, and normalization loses nothing |
| `Cursors.TextOrderAgrees` | src/ingestion/extraction/extract.py:245-259 | UTF-8 byte order of text keys is code-point order |
| `Cursors.Utf8Increasing` | src/ingestion/extraction/extract.py:245-259 | Encoding is increasing and neither encoding is a prefix of the other |
| `Cursors.UuidOrderAgrees` | src/ingestion/extraction/extract.py:188-199 | Order of canonical UUID text is order of the sixteen octets |
| `Cursors.LessTrichotomy` | src/ingestion/extraction/extract.py:245-272 | The cursor order is total |
| `Cursors.LessTransitive` | src/ingestion/extraction/extract.py:245-272 | The cursor order is transitive |
| `Cursors.UpToMonotone` | src/ingestion/control/metadata.py:508-514 | What lies at or below an earlier position lies at or below the later one |
| `Cursors.LessMeans` | src/ingestion/extraction/extract.py:245-272 | One cursor precedes another by time, and at the same time by the first key column in which they differ: numbers by value, text by code point, UUIDs by octet |
| `Cursors.BoundsMean` | src/ingestion/extraction/extract.py:202-242 | The lower bound is exclusive and the upper one inclusive, everything is after the initial position, and an earlier position is one before in that order |
| `Validation.ValidationPipeline.ValidatePage` | src/ingestion/extraction/validation.py:51-67 | Verdicts continue those of all earlier pages; on a contract failure the state stops at the first refused row |
| `Validation.ValidationPipeline.ValidateRecord` | src/ingestion/extraction/validation.py:69-89 | Codes of one row given everything seen before it, or the batch failure: a schema mismatch exactly when the column names differ |
| `Validation.SchemaAndTypeErrors` | src/ingestion/extraction/validation.py:92-105 | A schema mismatch exactly when the column names differ; otherwise one null code for each column with a forbidden null, one type code for each with a value of another kind, and no other code |
| `Validation.DomainAndNumericErrors` | src/ingestion/extraction/validation.py:108-119 | One domain code for each status column whose value is not null and not a text of its domain, one range code for each number below its minimum, and no other code |
| `Validation.FindBrokenParentReferences` | src/ingestion/extraction/references.py:41-66 | Exactly the cursors of rows that hold a key the snapshot lacks, or the type error exactly when such a key is neither text nor integer |
| `Validation.WriteLocalArtifacts` | src/ingestion/service.py:320-382 | Fails exactly when some row of the scan fails the batch; otherwise the artifacts are the page-free verdicts on the whole scan |
| `Validation.ExtractTable` | src/ingestion/service.py:339-375 | No row is out of range; every row after the watermark ends up valid or rejected, once, as the reference verdict says |
| `Validation.ValidIffConforming` | src/ingestion/extraction/validation.py:69-89 | A row is valid if and only if no cell is a forbidden null, of a wrong type, outside its domain, below its minimum or a null key, no earlier row has an equal key, and no reference is broken |
| `Validation.CodesMean` | src/ingestion/extraction/validation.py:69-119 | Each of the seven codes is reported exactly when its rule is broken, told on the cells of the row, the configuration and the earlier rows |
| `Validation.ValidKeysAreDistinct` | src/ingestion/extraction/validation.py:79-85 | Valid rows have pairwise distinct, non-null keys across the batch |
| `Validation.CodesInRuleOrder` | src/ingestion/contract/rules.py:20-41 | Codes come in rule order; null and type codes are not ordered between themselves |
| `Validation.VerdictsConserveRows` | src/ingestion/service.py:346-375 | Valid and rejected rows together are the scan, each row once |
| `Validation.OrdinalsArePositions` | src/ingestion/extraction/validation.py:59-66 | Rejects carry their position in the scan as ordinal, ascending, with their codes |
| `Validation.RangeChecksAgree` | src/ingestion/extraction/validation.py:142-149 | The range check in Python accepts exactly the rows SQL selects |
| `Validation.NothingOutOfRange` | src/ingestion/extraction/validation.py:77-78 | No extracted row fails the range check |
| `Validation.ArtifactsSplitRange` | src/ingestion/service.py:339-375 | Counts and contents of the artifacts split the extraction range |
| `Validation.RejectRateMeans` | src/ingestion/extraction/quarantine.py:115-120 | The gate accepts exactly when 20 times the rejects do not exceed the rows, and calls the rate exceeded exactly when they do |
| `Billing.VisitKeeps` | src/generator/customers/subscription_scan.py:98-163 | A visit never raises, keeps the account sound, only appends payments, never touches an ended contract and never realigns |
| `Billing.VisitFollowsTheFields` | src/generator/customers/subscription_scan.py:107-163 | On a sound contract: exactly a due renewal, or a due retry before the grace end, is billed; exactly a cancelled or failed contract past its end is ended; any other is left as it is; only a renewal can be forced to fail |
| `Billing.BillFollowsOutcome` | src/generator/customers/subscription_scan.py:166-250 | The appended payment is completed if and only if its attempt succeeds and is not forced to fail; then the contract is ACTIVE for exactly that cycle's period, and otherwise PAYMENT_FAILED until seven days after the cycle's first attempt; log and counts record it |
| `Billing.FirstAttemptStands` | src/generator/customers/subscription_payments.py:124-136 | Counted back from the last payment by its attempt number stands the only first attempt of its cycle |
| `Billing.RetryRecovers` | src/generator/customers/subscription_scan.py:204-207 | A concrete run: billed in vain on day 30 and with success on day 32, the contract is ACTIVE again from day 30 to day 60 |
| `Billing.PlannerAccepts` | src/generator/customers/customers.py:580-644 | Which transitions the planner makes of a sound contract, for every target and date, and that it raises for every other |
| `Billing.StoreOnlyMovesForward` | src/generator/customers/customers.py:350-395 | A contract row is refused exactly when it differs and does not move its time forward, and keeps person, start and creation time |
| `Billing.CancellationFollowsTheFields` | src/generator/customers/customers.py:621-630 | A cancelled contract keeps its period and is never due for billing again |
| `Billing.BillingClosedForm` | src/generator/customers/subscription_scan.py:166-250 | Cycle n covers contract start plus 30n days and has at most four attempts |
| `Billing.PlannedIsOk` | src/generator/customers/subscription_scan.py:115-163 | A retry before the grace end is at most the fourth attempt of its cycle |
| `Billing.FourAttemptsHappen` | src/generator/customers/subscription_scan.py:208-217 | The bound is reached by a concrete run of failures |
| `Billing.CompletedPeriodsTile` | src/generator/customers/subscription_scan.py:223-250 | Completed periods follow each other without gap or overlap |
| `Billing.EarlierCyclesEndOnce` | src/generator/customers/subscription_payments.py:111-136 | Every earlier cycle ends in exactly one completed attempt, its last |
| `Billing.CyclesHaveNoGaps` | src/generator/customers/subscription_payments.py:111-121 | Cycles are numbered without gaps |
| `Billing.RetriesAreSpaced` | src/generator/customers/subscription_scan.py:208-214 | Attempts of a cycle are consecutive and two days or more apart |
| `Billing.RenewalIsUncovered` | src/generator/customers/subscription_scan.py:131-147 | A renewal is never billed, or realigned, while a completed period covers the run date |
| `Billing.BilledIsUncovered` | src/generator/customers/subscription_scan.py:111-163 | Whenever a visit adds a payment, for a renewal or a retry, every completed period has ended by the run date |
| `Billing.AtMostFourAttempts` | src/generator/customers/subscription_scan.py:208-217 | No cycle has more than four payments |
| `Billing.ActiveContractShape` | src/generator/customers/customers.py:82-127 | An ACTIVE contract ends, is due and is next tried 30 days after its period start, which counts its completed cycles |
| `Billing.QueriesReadTheEnd` | src/generator/customers/subscription_payments.py:111-136 | The sequence queries return the cycle and attempt of the last payment |
| `Billing.LatestCompletedAtEnd` | src/generator/customers/subscription_payments.py:139-153 | The latest completed period is the last payment's when it completed |
| `Billing.NextPaymentIsNew` | src/generator/customers/subscription_payments.py:156-166 | The planned payment has an id of its own and continues the sequence |
| `Billing.PlannedFollows` | src/generator/customers/subscription_scan.py:166-191 | The planned payment is the next of the sequence and starts where its cycle must |
| `Billing.RetryFailureKeeps` | src/generator/customers/subscription_scan.py:208-217 | A failed retry keeps the account sound and does not move the grace end |
| `Billing.SecondVisitIsNoOp` | src/generator/customers/subscription_scan.py:107-113 | A second visit at the same date changes nothing |
| `Billing.VisitedIsNotExpired` | src/generator/customers/subscription_scan.py:115-123 | After a visit no failed or cancel-requested contract has reached its end |
| `SubscriptionRuns.SubscriptionStore.RunExpiryScan` | src/generator/customers/subscription_scan.py:98-163 | The filtered scan leaves contracts, payments, log and counts as the scan body over all contracts would, and raises when that would |
| `SubscriptionRuns.SubscriptionStore.BillAndTransition` | src/generator/customers/subscription_scan.py:166-220 | One billing: for a sound due account the payment, the contract, the log and the counts are those its attempt's outcome demands, told on the fields, and no other account changes; for any account they equal the modelled step |
| `SubscriptionRuns.SubscriptionStore.VisitContract` | src/generator/customers/subscription_scan.py:111-163 | One pass of the scan body: a sound account is billed, ended or left alone as its fields say, with its log and counts, and no other account changes |
| `SubscriptionRuns.SubscriptionStore.Persist` | src/generator/customers/customers.py:350-395 | Insert-free persistence of a contract: it fails exactly when the record is invalid, or differs and does not move its time forward |
| `SubscriptionRuns.DueScanIsFullScan` | src/generator/customers/subscription_scan.py:40-61 | Running the scan body over the due contracts equals running it over all |
| `SubscriptionRuns.FilterSelects` | src/generator/customers/subscription_scan.py:40-61 | Which contracts the filter selects, told on their fields |
| `SubscriptionRuns.ScanTellsWhatChanged` | src/generator/customers/subscription_scan.py:98-220 | The log of a scan is the new payments and new statuses of the accounts, in listing order, and the counts are those of the payments added and the contracts changed |
| `SubscriptionRuns.SecondScanIsNoOp` | src/generator/customers/subscription_scan.py:107-113 | A second scan at the same date finds nothing due and changes nothing |
| `SubscriptionRuns.ScanVisitsEach` | src/generator/customers/subscription_scan.py:111-163 | The scan never raises and visits each listed contract once |
| `SubscriptionRuns.ChurnProfileAlwaysRaises` | src/generator/customers/profile_mutations.py:59-84 | A run with the churn profile always raises, because its own scan ended every candidate |
| `SubscriptionRuns.ScanLeavesNoChurnCandidate` | src/generator/customers/profile_mutations.py:74-82 | After the scan no contract meets the churn profile's conditions |
| `SubscriptionRuns.RunSucceedsExactly` | src/generator/customers/profile_mutations.py:53-137 | A run succeeds if and only if every contract is older, the listing is complete and its profile finds what it asks for among the contracts as they were before the run |
| `SubscriptionRuns.RunFollowsTheFields` | src/generator/customers/profile_mutations.py:53-137 | A successful run bills by outcome, ends what expired, cancels the picked contract, starts the new one, and leaves every other as it was |
| `SubscriptionRuns.RunKeeps` | src/generator/customers/profile_mutations.py:53-137 | One run keeps every account sound, one open contract per person and ended contracts untouched |
| `SubscriptionRuns.RunsKeep` | src/generator/customers/profile_mutations.py:104-131 | Over every sequence of runs the same holds |
| `SubscriptionRuns.EveryPaymentObeys` | src/generator/customers/subscription_scan.py:166-250 | From no contracts, every payment of every run has the closed form, its attempt is at most the fourth, and its cycle has at most four payments |
| `SubscriptionRuns.EveryHistoryTiles` | src/generator/customers/subscription_payments.py:111-153 | From no contracts, every history has gapless cycles, one completion per earlier cycle and tiling periods |
| `Publish.PublishedFileIsAccounted` | src/warehouse/publish.py:199-237 | In every run whose recoveries close soundly at most one run is active, and the published file is the one recorded by the swapped PUBLISHING run or else by the run closed last as PUBLISHED |
| `Publish.PublishSucceeds` | src/warehouse/publish.py:145-237 | From every sound state without an active run the stages of a new run end with its row PUBLISHED, its file published with the recorded identity, the run published last as its predecessor, and no active run |
| `Publish.FailedBuildIsClosed` | src/warehouse/publish.py:170-196 | A failed dbt run ends FAILED with the published file as it was and no active run |
| `Publish.FailureBeforeSwapIsClosed` | src/warehouse/publish.py:225-228 | An exception at any stage before the swap, followed by the failure handler, ends FAILED with the published file as it was, the build file gone and no active run |
| `Publish.LossAfterSwapIsRecovered` | src/warehouse/publish.py:126-142 | A process lost after its swap is closed as PUBLISHED by the next recovery |
| `Publish.RecoveryFollowsTheSwap` | src/warehouse/publish.py:126-142 | A recovery closes a PUBLISHING row as PUBLISHED exactly when its swap happened if and only if what it read still tells whether the published file is the recorded one; so it is when it read after the process stopped |
| `Publish.CloseIsHarmless` | src/warehouse/publish.py:126-142 | Closing a row keeps the published file accounted for in every continuation if and only if that verdict still holds and the process is not between marking and swapping |
| `Publish.TimelyCloseIsSound` | src/warehouse/publish.py:126-142 | A recovery that read the row after its process stopped meets the condition |
| `Publish.PublishGate` | src/warehouse/publish.py:170-224 | Only a build whose dbt run passed and whose row was never closed while BUILDING is swapped in |
| `Publish.ClosedForever` | src/warehouse/publish_metadata.py:257-274 | PUBLISHED and FAILED rows never change status or identity again |
| `Publish.ClosedRowsStay` | src/warehouse/publish_metadata.py:206-274 | No single step changes a closed row, whatever the recovery judged |
| `Publish.IdentityTellsSwap` | src/warehouse/publish.py:262-264 | The published file has a PUBLISHING row's identity exactly when that run swapped |
| `Publish.LateVerdictLosesSwap` | src/warehouse/publish.py:127-140 | A run from the start in which a recovery closes as FAILED the run whose file is published, although its process has stopped |
| `Publish.LiveRunSwapsAfterClose` | src/warehouse/publish.py:218-224 | A run from the start in which a recovery rightly closes an unswapped run as FAILED and the live process publishes its file afterwards |
| `PublishRecovery.Warehouse.RecoverIncompletePublishes` | src/warehouse/publish.py:114-142 | When no stale run is between marking and swapping, the whole pass ends every BUILDING row of the DAG run FAILED and every stale active row PUBLISHED or FAILED as its swap happened or not, leaves every other row, returns exactly the closed runs and leaves none of their build files |
| `PublishRecovery.Warehouse.CloseStaleRun` | src/warehouse/publish.py:127-141 | One stale row is closed as its swap demands and its build file removed |
| `PublishRecovery.Warehouse.ReclaimDagRun` | src/warehouse/publish_metadata.py:225-237 | Exactly the BUILDING rows of the DAG run are closed as FAILED and their build files removed |
| `OrderProgress.DivideHalfEvenIsNearest` | src/generator/orders/order_progress.py:46-48 | Scaled delays are the nearest microsecond, ties to even, and no other number is |
| `OrderProgress.ScaledDelays` | src/generator/orders/order_progress.py:26-49 | Under every scale shipping and delivery delays stay positive, and the approval delay vanishes exactly when twice the delay does not exceed the scale |
| `OrderProgress.ApprovalCanVanish` | src/generator/orders/order_progress.py:46-46 | An approval is planned at the creation time exactly when twice its delay does not exceed the scale; at the largest scale exactly for delays below eighteen minutes |
| `OrderProgress.OrderStepKeeps` | src/generator/orders/order_progress.py:52-78 | The planned step of an order is never refused, keeps its times in order and names the linked payment status |
| `OrderProgress.PlanFollowsTheFields` | src/generator/orders/order_progress.py:52-78 | An order is planned a transition exactly when the time of its next stage has come, and its draw alone decides between the stage and the cancellation |
| `OrderProgress.NextEventMeans` | src/generator/orders/order_progress.py:26-49 | An unfinished order has exactly one time for its next stage: a rounded, scaled delay of the stage's range after the recorded time of the stage before |
| `OrderProgress.AdvanceFollowsTheFields` | src/generator/orders/existing_orders.py:50-99 | A due order enters its next stage at exactly that time, or is canceled, with all its payments moved and dated; without the lease the run raises; an order that is not due is left as it is |
| `OrderProgress.AdvanceShows` | src/generator/orders/existing_orders.py:92-99 | The logged plan and the counts are what the rows before and after show |
| `OrderProgress.AdvanceKeeps` | src/generator/orders/existing_orders.py:50-91 | One run keeps an order and all its payments sound under any draw and scale, and raises exactly when a transition is planned and the lease is lost |
| `OrderRuns.OrderStore.RunExistingOrderTransitions` | src/generator/orders/existing_orders.py:50-100 | The loop advances each candidate once, with counts and log, asserting the lease before each persisted transition |
| `OrderRuns.OrderStore.AdvanceOrder` | src/generator/orders/existing_orders.py:51-99 | One order's transition, lease assertion, payments, counts and log |
| `OrderRuns.OrderStore.AdvancePaymentRows` | src/generator/orders/existing_orders.py:81-91 | All payments of the order move, or the run raises |
| `OrderRuns.AdvanceAllKeeps` | src/generator/orders/existing_orders.py:50-100 | The loop raises exactly when the lease is lost at an order with a planned transition, and otherwise leaves every order sound |
| `OrderRuns.AdvanceAllShows` | src/generator/orders/existing_orders.py:50-100 | The loop advances every listed order that is due and no other, and its log and counts are the changes that the rows show |
| `OrderRuns.RunFollowsTheFields` | src/generator/orders/existing_orders.py:21-100 | Exactly when a run succeeds, and what it leaves of every order: due ones in their next stage, new ones pending, the rest as they were |
| `OrderRuns.RunKeeps` | src/generator/orders/existing_orders.py:21-100 | A run on sound orders raises exactly when the guard refuses, the lease is lost where it is asserted, or a new order id is taken or has no payment |
| `OrderRuns.RecordedByRun` | src/generator/orders/transitions.py:12-24 | Whatever a run records about an order lies at or before that run's own date; orders it does not write stay as they are |
| `OrderRuns.RunsKeep` | src/generator/orders/existing_orders.py:21-100 | Over every sequence of runs, with any seeds and scales, orders stay sound and recorded values never change |
| `OrderRuns.EveryOrderInOrder` | src/generator/orders/transitions.py:12-24 | Created, approved, shipped and delivered times are in order, also the approval of an order canceled afterwards, and payments are pending, completed, failed or refunded exactly as the order's status says |

## Left out

- S3-compatible storage, Parquet, DuckDB, the database driver and the scheduler: storage is an insert-only map and each SQL transaction one atomic step.
- Hash bits, UUID derivation and batch identifier formatting, including the checks of the batch name: identifiers are injective.
- Run rows written for failures before a run has started: they touch no watermark, catalog or storage row.
- Checksums, sizes, row counts and logical hashes of objects and manifests: an object is the set of its rows.
- Corruption injection: it rewrites rows in memory on request and changes no source or control row.
- dbt models and the marts they build; the result of a dbt run is a parameter.
- The catalog synchronization that edits the published file in place, outside the publish protocol.
- The WAL check, pruning of failed builds and target directories: they concern no status and no published file.
- Membership tiers, new order contents, prices and installments; a new order is its id, its creation time and its number of payments.
- Products and sellers are never written by the generator and enter only as tables with a fixed content.
- Serving, snapshots, capture scripts, the benchmark harness and reporting: no protocol state.
- A numeric minimum on a text or timestamp column, which would raise in Python: no table contract has one.
- BronzeControl.ControlTables.RewindTable: acquires, rewinds and releases at one instant, and nobody else moves the table in between; the interleaved steps are those of `BronzeSystem`.
- Publish: one process per run; a second process started for the same run, for instance when a stage is retried, is not modelled.
