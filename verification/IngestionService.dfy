/**
 One ingestion attempt from end to end, with nobody else interfering.

 The method carries out the transitions of `BronzeSystem` in the order of the service, with
 the paging loop and the validator in the middle, and is proved to say truthfully how the
 attempt ended: what a success committed, and why nothing moved otherwise.
 */
module IngestionService {
  import opened Cursors
  import opened Extraction
  import opened SourceLease
  import opened BronzeSystem
  import opened BronzeSafety
  import G = BronzeGuarantees
  import S = SourceSystem
  import V = Validation

  datatype Reason =
    | SchemaConflict | BatchConflict | SourceLeaseLost | TableLeaseHeld | RowsRefused | TooManyRejects | ObjectExists

  datatype Ending = Success | NoData | AlreadyCommitted | Failure(reason: Reason)

  /** What the service is asked to ingest; an attempt under a source lease of its own ignores the given token. */
  datatype Request = Request(table: Table, batch: string, schema: nat, token: Token, now: int, ttl: int, pageSize: nat,
                             config: V.TableConfig, references: seq<V.Reference>)
  {
    function BatchKey(): Key {
      Key(batch, table)
    }
  }

  /** The object store is as it was. */
  ghost predicate SameStorage(j: State, k: State) {
    k.data == j.data && k.manifests == j.manifests && k.quarantine == j.quarantine
  }

  function Seen(j: State, q: Request): Position {
    Mark(j.marks, q.table).cursor
  }

  function Rows(j: State, q: Request): set<Record> {
    Now(j.src.sources, q.table)
  }

  // ---------------------------------------------------------------------------------------
  // The steps up to the registered run
  // ---------------------------------------------------------------------------------------

  /** The attempt after its first steps. */
  function Started(j: State, p: nat, q: Request): Ingest {
    var m := Mark(j.marks, q.table);
    Ingest(q.table, q.batch, m.cursor, m.version, Token(Owner(Warehouse, 0), 0), 0, 0, 0, Initial, {}, {}, Fresh, false)
  }

  predicate SourceHeld(j: State, q: Request) {
    q.token.owner.kind.Warehouse? && CheckCurrent(j.src.row, q.token, q.now).Granted?
  }

  /** The attempt once its run row is recorded. */
  function Registration(j: State, p: nat, q: Request): Ingest
    requires Keyed(Rows(j, q)) && j.src.sources != []
  {
    var m := Mark(j.marks, q.table);
    Ingest(q.table, q.batch, m.cursor, m.version, q.token, |j.src.sources| - 1, m.version, |j.src.sources| - 1,
           FetchUpperBound(Rows(j, q), m.cursor), {}, {}, Registered, false)
  }

  function Lookup(j: State, p: nat, q: Request): State {
    DoLookUp(DoReadWatermark(j, p, q.table, q.batch), p)
  }

  function Leasing(j: State, p: nat, q: Request): State {
    DoLeaseForIngest(DoCheckSource(Lookup(j, p, q), p, q.token, q.now), p, q.now, q.ttl)
  }

  function Registering(j: State, p: nat, q: Request): State {
    DoRegister(DoOpenSnapshot(Leasing(j, p, q), p), p)
  }

  /** Nothing but the attempt has changed. */
  ghost predicate Untouched(j: State, k: State, p: nat, x: Ingest) {
    && k.src == j.src && SameTables(j, k) && k.runs == j.runs
    && k.data == j.data && k.manifests == j.manifests && k.quarantine == j.quarantine
    && p in k.ingests && k.ingests[p] == x
  }

  lemma StartIsFresh(j: State, p: nat, q: Request)
    requires p !in j.ingests
    ensures Untouched(j, DoReadWatermark(j, p, q.table, q.batch), p, Started(j, p, q))
  {
  }

  lemma LookupIsClear(j: State, p: nat, q: Request)
    requires p !in j.ingests && q.BatchKey() !in j.catalog
    ensures Untouched(j, Lookup(j, p, q), p, Started(j, p, q).(stage := Clear))
  {
    hide Mark, DoReadWatermark;
    StartIsFresh(j, p, q);
  }

  lemma CheckIsChecked(j: State, p: nat, q: Request)
    requires p !in j.ingests && q.BatchKey() !in j.catalog && SourceHeld(j, q) && j.src.sources != []
    ensures Untouched(j, DoCheckSource(Lookup(j, p, q), p, q.token, q.now), p,
                      Started(j, p, q).(stage := Checked, token := q.token, checkEpoch := |j.src.sources| - 1))
  {
    hide Mark, Lookup, CheckCurrent;
    LookupIsClear(j, p, q);
  }

  /** The attempt holds its table lease; source, cursors, catalog and storage are untouched. */
  ghost predicate Holds(j: State, k: State, p: nat, q: Request, x: Ingest) {
    && k.src == j.src && p in k.ingests && k.ingests[p] == x
    && k.catalog == j.catalog && k.history == j.history && SameMarks(j.marks, k.marks)
    && k.data == j.data && k.manifests == j.manifests && k.quarantine == j.quarantine
    && Mark(k.marks, q.table).lease == HeldBy(Ingestion(p), q.now + q.ttl)
  }

  lemma SetLeaseHolds(j: State, k: State, p: nat, q: Request, x: Ingest)
    requires k.src == j.src && k.marks == j.marks && k.catalog == j.catalog && k.history == j.history
    requires k.data == j.data && k.manifests == j.manifests && k.quarantine == j.quarantine
    requires p in k.ingests && k.ingests[p] == x
    ensures Holds(j, SetLease(k, q.table, HeldBy(Ingestion(p), q.now + q.ttl)), p, q, x)
    ensures SetLease(k, q.table, HeldBy(Ingestion(p), q.now + q.ttl)).runs == k.runs
  {
  }

  /** The attempt as it stands with its table lease. */
  function LeasedAttempt(j: State, p: nat, q: Request): Ingest
    requires j.src.sources != []
  {
    Started(j, p, q).(stage := Leased, token := q.token, checkEpoch := |j.src.sources| - 1,
                      leaseVersion := Mark(j.marks, q.table).version)
  }

  lemma LeasingHolds(j: State, p: nat, q: Request)
    requires p !in j.ingests && q.BatchKey() !in j.catalog && SourceHeld(j, q) && j.src.sources != [] && q.ttl > 0
    requires Leasable(Mark(j.marks, q.table), Ingestion(p), q.now)
    ensures Holds(j, Leasing(j, p, q), p, q, LeasedAttempt(j, p, q)) && Leasing(j, p, q).runs == j.runs
  {
    hide Lookup, Leasable, Mark, SetLease, Holds, DoCheckSource, SourceHeld;
    CheckIsChecked(j, p, q);
    var checked := DoCheckSource(Lookup(j, p, q), p, q.token, q.now);
    SetLeaseHolds(j, Put(checked, p, LeasedAttempt(j, p, q)), p, q, LeasedAttempt(j, p, q));
  }

  lemma SnapshotHolds(j: State, k: State, p: nat, q: Request)
    requires j.src.sources != [] && Keyed(Rows(j, q)) && Holds(j, k, p, q, LeasedAttempt(j, p, q))
    ensures Holds(j, DoOpenSnapshot(k, p), p, q, Registration(j, p, q).(stage := Opened))
    ensures DoOpenSnapshot(k, p).runs == k.runs
  {
    hide Keyed, FetchUpperBound, Now, Mark, SameMarks;
  }

  lemma RegisterHolds(j: State, k: State, p: nat, q: Request)
    requires j.src.sources != [] && Keyed(Rows(j, q)) && Holds(j, k, p, q, Registration(j, p, q).(stage := Opened))
    requires p !in k.runs
    ensures Holds(j, DoRegister(k, p), p, q, Registration(j, p, q))
    ensures var x := Registration(j, p, q);
      DoRegister(k, p).runs == k.runs[p := RunRow(q.table, x.seen, x.upper, Running)]
  {
    hide Keyed, FetchUpperBound, Now, Mark, SameMarks;
  }

  lemma RegisteringHolds(j: State, p: nat, q: Request)
    requires p !in j.ingests && p !in j.runs && q.BatchKey() !in j.catalog && SourceHeld(j, q) && j.src.sources != []
    requires q.ttl > 0 && Leasable(Mark(j.marks, q.table), Ingestion(p), q.now) && Keyed(Rows(j, q))
    ensures var k := Registering(j, p, q);
      var x := Registration(j, p, q);
      Holds(j, k, p, q, x) && k.runs == j.runs[p := RunRow(q.table, x.seen, x.upper, Running)]
  {
    hide Leasing, Leasable, Mark, Keyed, FetchUpperBound, SourceHeld, Now, DoOpenSnapshot, DoRegister, Holds;
    LeasingHolds(j, p, q);
    SnapshotHolds(j, Leasing(j, p, q), p, q);
    RegisterHolds(j, DoOpenSnapshot(Leasing(j, p, q), p), p, q);
  }

  // ---------------------------------------------------------------------------------------
  // The steps after it
  // ---------------------------------------------------------------------------------------

  /** Only the attempt itself and the object storage have changed. */
  ghost predicate Underway(j: State, k: State, p: nat) {
    && k.src == j.src && SameTables(j, k) && k.runs == j.runs
    && p in j.ingests && p in k.ingests && k.ingests == j.ingests[p := k.ingests[p]]
    && k.ingests[p] == j.ingests[p].(stage := k.ingests[p].stage)
  }

  lemma VerifyAdvances(j: State, p: nat, now: int)
    requires AtStage(j, p, Extracted) && LeasesCurrent(j, p, now)
    requires RejectRateAccepted(|j.ingests[p].valid|, |j.ingests[p].rejected|)
    ensures AtStage(DoVerify(j, p, now), p, Verified) && Underway(j, DoVerify(j, p, now), p)
  {
    hide LeasesCurrent, RejectRateAccepted;
  }

  lemma QuarantineAdvances(j: State, p: nat)
    requires AtStage(j, p, Verified) && (j.ingests[p].rejected == {} || j.ingests[p].BatchKey() !in j.quarantine)
    ensures AtStage(DoStoreQuarantine(j, p), p, QuarantineStored) && Underway(j, DoStoreQuarantine(j, p), p)
    ensures DoStoreQuarantine(j, p).data == j.data && DoStoreQuarantine(j, p).manifests == j.manifests
  {
  }

  lemma DataAdvances(j: State, p: nat)
    requires AtStage(j, p, QuarantineStored) && j.ingests[p].BatchKey() !in j.data
    ensures AtStage(DoStoreData(j, p), p, DataStored) && Underway(j, DoStoreData(j, p), p)
    ensures DoStoreData(j, p).manifests == j.manifests
  {
  }

  lemma ManifestAdvances(j: State, p: nat)
    requires AtStage(j, p, DataStored) && j.ingests[p].BatchKey() !in j.manifests
    ensures AtStage(DoStoreManifest(j, p), p, ManifestStored) && Underway(j, DoStoreManifest(j, p), p)
  {
  }

  lemma RecheckAdvances(j: State, p: nat, now: int)
    requires AtStage(j, p, ManifestStored) && LeasesCurrent(j, p, now)
    ensures AtStage(DoRecheck(j, p, now), p, Rechecked) && Underway(j, DoRecheck(j, p, now), p)
  {
    hide LeasesCurrent;
  }

  predicate NothingStored(j: State, key: Key) {
    key !in j.data && key !in j.manifests && key !in j.quarantine
  }

  /** The attempt after its pages were read, at some later stage. */
  function ReadAttempt(j: State, p: nat, q: Request, valid: set<Record>, rejected: set<Record>, s: Stage): Ingest
    requires Keyed(Rows(j, q)) && j.src.sources != []
  {
    Registration(j, p, q).(stage := s, valid := valid, rejected := rejected)
  }

  /** The attempt is under way with its leases; cursors, catalog and source are untouched. */
  ghost predicate Live(j: State, k: State, p: nat, q: Request, x: Ingest) {
    && k.src == j.src && p in k.ingests && k.ingests[p] == x && !x.closed
    && k.catalog == j.catalog && k.history == j.history && SameMarks(j.marks, k.marks)
    && Mark(k.marks, q.table).lease == HeldBy(Ingestion(p), q.now + q.ttl)
    && k.runs == j.runs[p := RunRow(q.table, x.seen, x.upper, Running)]
  }

  lemma HoldsIsLive(j: State, k: State, p: nat, q: Request, x: Ingest)
    requires Holds(j, k, p, q, x) && k.runs == j.runs[p := RunRow(q.table, x.seen, x.upper, Running)] && !x.closed
    ensures Live(j, k, p, q, x)
  {
    hide SameMarks, Mark;
  }

  lemma UnderwayIsLive(j: State, k: State, l: State, p: nat, q: Request, x: Ingest, s: Stage)
    requires Live(j, k, p, q, x) && Underway(k, l, p) && AtStage(l, p, s)
    ensures Live(j, l, p, q, x.(stage := s))
  {
    hide SameMarks, Mark;
  }

  lemma LiveLeases(j: State, k: State, p: nat, q: Request, x: Ingest)
    requires Live(j, k, p, q, x) && SourceHeld(j, q) && q.ttl > 0
    requires x.token == q.token && x.table == q.table && x.leaseVersion == Mark(j.marks, q.table).version
    ensures LeasesCurrent(k, p, q.now)
  {
    hide CheckCurrent;
  }

  lemma LiveExtracts(j: State, k: State, p: nat, q: Request, valid: set<Record>, rejected: set<Record>)
    requires Keyed(Rows(j, q)) && j.src.sources != []
    requires Live(j, k, p, q, Registration(j, p, q)) && Registration(j, p, q).upper.At?
    requires valid !! rejected && valid + rejected == InRange(Rows(j, q), Seen(j, q), Registration(j, p, q).upper)
    ensures Live(j, DoExtract(k, p, valid, rejected), p, q, ReadAttempt(j, p, q, valid, rejected, Extracted))
    ensures SameStorage(k, DoExtract(k, p, valid, rejected))
  {
    hide SameMarks, Mark, FetchUpperBound, Keyed, InRange;
    assert RowsAt(k.src.sources, |j.src.sources| - 1, q.table) == Rows(j, q);
  }

  // ---------------------------------------------------------------------------------------
  // The commit
  // ---------------------------------------------------------------------------------------

  /** The rows after the watermark, in scan order. */
  function NewRows(j: State, q: Request): seq<Record>
    requires Keyed(Beyond(Rows(j, q), Seen(j, q)))
  {
    Ordered(Beyond(Rows(j, q), Seen(j, q)))
  }

  /** What the validator must reject of them. */
  function Rejects(j: State, q: Request): seq<V.Rejected>
    requires Keyed(Beyond(Rows(j, q), Seen(j, q)))
  {
    var scan := NewRows(j, q);
    V.RejectedRows(q.config, scan, V.Breaking(q.references), 0, |scan|)
  }

  /** The attempt committed everything after the watermark it found, and gave up its lease. */
  ghost predicate Committed(j: State, k: State, p: nat, q: Request)
    requires Keyed(Rows(j, q))
  {
    var rows, seen, key := Rows(j, q), Seen(j, q), q.BatchKey();
    var upper := FetchUpperBound(rows, seen);
    && upper.At? && Mark(k.marks, q.table) == Watermark(upper, Mark(j.marks, q.table).version + 1, Unheld)
    && (forall r :: r in rows ==> UpTo(r.cursor, upper))
    && key !in j.catalog && key in k.catalog && k.catalog == j.catalog[key := k.catalog[key]]
    && k.catalog[key].before == seen && k.catalog[key].upper == upper
    && G.IsImage(k.catalog[key], rows)
    && Keyed(Beyond(rows, seen)) && k.catalog[key].rejected == Elements(V.Records(Rejects(j, q)))
  }

  /** The source, every watermark, the history and the catalog stand as before. */
  ghost predicate NothingMoved(j: State, k: State) {
    k.src == j.src && G.SameControl(j, k)
  }

  /** The run row tells how the attempt ended, no other run row moved, and the table lease is free again. */
  ghost predicate Recorded(j: State, k: State, p: nat, q: Request, status: RunStatus)
    requires Keyed(Rows(j, q))
  {
    && k.runs == j.runs[p := RunRow(q.table, Seen(j, q), FetchUpperBound(Rows(j, q), Seen(j, q)), status)]
    && Mark(k.marks, q.table).lease == Unheld
  }

  /** An attempt whose run row is recorded, on the range it registered. */
  ghost predicate Ranges(j: State, q: Request, x: Ingest)
    requires Keyed(Rows(j, q))
  {
    x.seen == Seen(j, q) && x.upper == FetchUpperBound(Rows(j, q), Seen(j, q))
  }

  /** The run row of every ending; an attempt that failed before its run row was recorded leaves none. */
  ghost predicate RunTells(j: State, k: State, p: nat, q: Request, outcome: Ending)
    requires Keyed(Rows(j, q))
  {
    match outcome
    case Success => Recorded(j, k, p, q, RunStatus.Success)
    case NoData => Recorded(j, k, p, q, RunStatus.NoData)
    case Failure(RowsRefused) => Recorded(j, k, p, q, RunStatus.Failed)
    case Failure(TooManyRejects) => Recorded(j, k, p, q, RunStatus.Failed)
    case Failure(ObjectExists) => Recorded(j, k, p, q, RunStatus.Failed)
    case Failure(SourceLeaseLost) => k.runs == j.runs
    case Failure(TableLeaseHeld) => k.runs == j.runs
    case _ => true
  }

  /** The table lease is held by somebody else and has not expired. */
  predicate TableTaken(j: State, p: nat, q: Request) {
    var lease := Mark(j.marks, q.table).lease;
    lease.HeldBy? && lease.expiresAt > q.now && lease.holder != Ingestion(p)
  }

  lemma RecordedTells(j: State, k: State, p: nat, q: Request, outcome: Ending, status: RunStatus)
    requires Keyed(Rows(j, q)) && Recorded(j, k, p, q, status)
    requires || (outcome.Success? && status.Success?) || (outcome.NoData? && status.NoData?)
             || (outcome.Failure? && status.Failed? && outcome.reason in {RowsRefused, TooManyRejects, ObjectExists})
    ensures RunTells(j, k, p, q, outcome)
  {
    hide Recorded, Keyed, Now;
  }

  lemma UnrecordedTells(j: State, k: State, p: nat, q: Request, outcome: Ending)
    requires Keyed(Rows(j, q)) && k.runs == j.runs
    requires outcome == Failure(SourceLeaseLost) || outcome == Failure(TableLeaseHeld)
    ensures RunTells(j, k, p, q, outcome)
  {
    hide Recorded, Keyed, Now;
  }

  lemma ReusedTells(j: State, k: State, p: nat, q: Request, outcome: Ending)
    requires Keyed(Rows(j, q))
    requires outcome.AlreadyCommitted? || outcome == Failure(BatchConflict) || outcome == Failure(SchemaConflict)
    ensures RunTells(j, k, p, q, outcome)
  {
    hide Recorded, Keyed, Now;
  }

  lemma RegistrationRanges(j: State, p: nat, q: Request, valid: set<Record>, rejected: set<Record>, s: Stage)
    requires Keyed(Rows(j, q)) && j.src.sources != []
    ensures Ranges(j, q, Registration(j, p, q)) && Ranges(j, q, ReadAttempt(j, p, q, valid, rejected, s))
  {
    hide Keyed, FetchUpperBound, Now, Mark;
  }

  lemma RegistrationStage(j: State, p: nat, q: Request)
    requires Keyed(Rows(j, q)) && j.src.sources != []
    ensures Registration(j, p, q).stage == Registered
  {
    hide Keyed, FetchUpperBound, Now, Mark;
  }

  lemma StatusIsRecorded(j: State, k: State, p: nat, q: Request, x: Ingest, status: RunStatus)
    requires Live(j, k, p, q, x) && Keyed(Rows(j, q)) && Ranges(j, q, x)
    ensures SetStatus(k.runs, p, status)
      == j.runs[p := RunRow(q.table, Seen(j, q), FetchUpperBound(Rows(j, q), Seen(j, q)), status)]
  {
    hide SameMarks, Mark, Keyed, FetchUpperBound, Now;
    var running := RunRow(q.table, x.seen, x.upper, Running);
    assert j.runs[p := running][p := running.(status := status)] == j.runs[p := running.(status := status)];
  }

  lemma ReleaseRecords(j: State, k: State, p: nat, q: Request, status: RunStatus)
    requires Keyed(Rows(j, q))
    requires k.runs == j.runs[p := RunRow(q.table, Seen(j, q), FetchUpperBound(Rows(j, q), Seen(j, q)), status)]
    requires Mark(k.marks, q.table).lease.HeldBy? && Mark(k.marks, q.table).lease.holder == Ingestion(p)
    ensures Recorded(j, DoReleaseLease(k, Ingestion(p), q.table), p, q, status)
  {
    hide Keyed, FetchUpperBound, Now;
  }

  lemma LiveLease(j: State, k: State, p: nat, q: Request, x: Ingest)
    requires Live(j, k, p, q, x)
    ensures Mark(k.marks, q.table).lease == HeldBy(Ingestion(p), q.now + q.ttl) && p in k.ingests && k.ingests[p] == x
    ensures !x.closed
  {
    hide SameMarks, Mark;
  }

  lemma FailureIsRecorded(j: State, k: State, p: nat, q: Request, x: Ingest)
    requires Live(j, k, p, q, x) && Keyed(Rows(j, q)) && Ranges(j, q, x)
    ensures Recorded(j, DoReleaseLease(DoFailRun(k, p), Ingestion(p), q.table), p, q, RunStatus.Failed)
  {
    hide Live, Keyed, FetchUpperBound, Now, Mark, SetStatus, Recorded, DoReleaseLease, Ranges;
    LiveLease(j, k, p, q, x);
    StatusIsRecorded(j, k, p, q, x, RunStatus.Failed);
    ReleaseRecords(j, DoFailRun(k, p), p, q, RunStatus.Failed);
  }

  lemma NoDataIsRecorded(j: State, k: State, p: nat, q: Request, x: Ingest)
    requires Live(j, k, p, q, x) && Keyed(Rows(j, q)) && Ranges(j, q, x) && x.stage == Registered && x.upper.Initial?
    ensures Recorded(j, DoReleaseLease(DoFinishNoData(k, p), Ingestion(p), q.table), p, q, RunStatus.NoData)
  {
    hide Live, Keyed, FetchUpperBound, Now, Mark, SetStatus, Recorded, DoReleaseLease, Ranges;
    LiveLease(j, k, p, q, x);
    StatusIsRecorded(j, k, p, q, x, RunStatus.NoData);
    ReleaseRecords(j, DoFinishNoData(k, p), p, q, RunStatus.NoData);
  }

  /** Before its run row is recorded a failing attempt changes no run row. */
  lemma EarlyFailureIsUnrecorded(j: State, k: State, p: nat, q: Request, x: Ingest)
    requires Untouched(j, k, p, x) && p !in j.runs
    ensures DoReleaseLease(DoFailRun(k, p), Ingestion(p), q.table).runs == j.runs
  {
    hide Mark;
  }

  /** What a failure says about the state it met. */
  ghost predicate Explains(reason: Reason, j: State, q: Request) {
    match reason
    case SchemaConflict => q.BatchKey() in j.catalog
    case BatchConflict => q.BatchKey() in j.catalog && j.catalog[q.BatchKey()].upper != Seen(j, q)
    case SourceLeaseLost => !SourceHeld(j, q)
    case TableLeaseHeld =>
      var m := Mark(j.marks, q.table); m.lease.HeldBy? && m.lease.expiresAt > q.now
    case RowsRefused =>
      exists r :: r in Beyond(Rows(j, q), Seen(j, q))
        && (V.SchemaDiffers(q.config, r) || V.HasBadKey(q.references, r))
    case TooManyRejects =>
      Keyed(Beyond(Rows(j, q), Seen(j, q))) && 20 * |Rejects(j, q)| > |NewRows(j, q)|
    case ObjectExists => !NothingStored(j, q.BatchKey())
  }

  lemma FailureMovesNothing(start: State, j: State, p: nat, t: Table)
    requires NothingMoved(start, j)
    ensures NothingMoved(start, DoReleaseLease(DoFailRun(j, p), Ingestion(p), t))
    ensures DoReleaseLease(DoFailRun(j, p), Ingestion(p), t).src == start.src
  {
    hide SetStatus;
    var k := DoFailRun(j, p);
    G.SetLeaseKeeps(k, k, t, Unheld);
  }

  lemma SnapshotReady(j: State, q: Request)
    requires Inv(j)
    ensures j.src.sources != [] && Keyed(Rows(j, q))
  {
    hide VersionsOk, TenuresOk, EpochsAgree, SnapshotsOk, UploadsOk, CatalogOk, StorageOk, HistoryOk,
         RewindsOk, WithinReach, NothingLost, S.LeaseOk, S.GensOk, S.MarkersOk, S.RunsOk, S.EventsOk,
         S.SourceEvolved, Keyed;
    assert S.SourceKeyed(j.src.sources[|j.src.sources| - 1]);
  }

  lemma UntouchedMovesNothing(j: State, k: State, p: nat, x: Ingest)
    requires Untouched(j, k, p, x)
    ensures NothingMoved(j, k)
  {
  }

  lemma SourceLost(j: State, k: State, q: Request)
    requires NothingMoved(j, k) && !SourceHeld(k, q)
    ensures Explains(SourceLeaseLost, j, q)
  {
    hide CheckCurrent;
  }

  lemma TableHeld(j: State, k: State, p: nat, q: Request)
    requires k.marks == j.marks && !Leasable(Mark(k.marks, q.table), Ingestion(p), q.now)
    ensures Explains(TableLeaseHeld, j, q)
  {
    hide Mark;
  }

  /** What the attempt needs to know of the state it met, once its leases are granted. */
  ghost predicate MayStart(j: State, p: nat, q: Request) {
    && p !in j.ingests && p !in j.runs && q.BatchKey() !in j.catalog && SourceHeld(j, q) && j.src.sources != []
    && q.ttl > 0 && q.pageSize >= 1 && Leasable(Mark(j.marks, q.table), Ingestion(p), q.now) && Keyed(Rows(j, q))
    && V.UniformCursors(Rows(j, q), Seen(j, q))
  }

  /** The rows after the watermark, split as the validator split them. */
  ghost predicate SplitsNew(j: State, q: Request, valid: set<Record>, rejected: set<Record>) {
    && valid !! rejected && valid + rejected == Beyond(Rows(j, q), Seen(j, q))
    && Keyed(Beyond(Rows(j, q), Seen(j, q))) && rejected == Elements(V.Records(Rejects(j, q)))
  }

  lemma LiveMovesNothing(j: State, k: State, p: nat, q: Request, x: Ingest)
    requires Live(j, k, p, q, x)
    ensures NothingMoved(j, k)
  {
    hide SameMarks, Mark;
  }

  lemma UpperIsWhole(j: State, p: nat, q: Request)
    requires Keyed(Rows(j, q)) && j.src.sources != []
    ensures var upper := Registration(j, p, q).upper;
      && upper == FetchUpperBound(Rows(j, q), Seen(j, q))
      && (upper.Initial? <==> Beyond(Rows(j, q), Seen(j, q)) == {})
      && InRange(Rows(j, q), Seen(j, q), upper) == Beyond(Rows(j, q), Seen(j, q))
  {
    hide Keyed, FetchUpperBound, Beyond, InRange, Mark, Now;
    UpperBoundClosesRange(Rows(j, q), Seen(j, q));
  }

  lemma ReleaseMovesNothing(j: State, k: State, p: nat, t: Table)
    requires NothingMoved(j, k)
    ensures NothingMoved(j, DoReleaseLease(k, Ingestion(p), t))
  {
    G.SetLeaseKeeps(k, k, t, Unheld);
  }

  lemma SameControlAfter(j: State, k: State, l: State)
    requires G.SameControl(j, k) && SameTables(k, l)
    ensures G.SameControl(j, l)
  {
  }

  lemma NoDataMovesNothing(j: State, k: State, p: nat, q: Request, x: Ingest)
    requires Live(j, k, p, q, x)
    ensures NothingMoved(j, DoReleaseLease(DoFinishNoData(k, p), Ingestion(p), q.table))
  {
    hide SetStatus, SameMarks, Mark, SetLease, DoReleaseLease;
    var l := DoFinishNoData(k, p);
    LiveMovesNothing(j, k, p, q, x);
    SameControlAfter(j, k, l);
    ReleaseMovesNothing(j, l, p, q.table);
  }

  /** An upload either advances the attempt or meets an object under its batch. */
  lemma QuarantineOrExists(j: State, p: nat)
    requires AtStage(j, p, Verified)
    ensures var k := DoStoreQuarantine(j, p);
      && k.data == j.data && k.manifests == j.manifests
      && (if AtStage(k, p, QuarantineStored) then Underway(j, k, p)
          else k == j && j.ingests[p].BatchKey() in j.quarantine)
  {
    if j.ingests[p].rejected == {} || j.ingests[p].BatchKey() !in j.quarantine {
      QuarantineAdvances(j, p);
    }
    hide Underway;
  }

  lemma DataOrExists(j: State, p: nat)
    requires AtStage(j, p, QuarantineStored)
    ensures var k := DoStoreData(j, p);
      && k.manifests == j.manifests
      && (if AtStage(k, p, DataStored) then Underway(j, k, p) else k == j && j.ingests[p].BatchKey() in j.data)
  {
    if j.ingests[p].BatchKey() !in j.data {
      DataAdvances(j, p);
    }
    hide Underway;
  }

  lemma ManifestOrExists(j: State, p: nat)
    requires AtStage(j, p, DataStored)
    ensures var k := DoStoreManifest(j, p);
      if AtStage(k, p, ManifestStored) then Underway(j, k, p) else k == j && j.ingests[p].BatchKey() in j.manifests
  {
    if j.ingests[p].BatchKey() !in j.manifests {
      ManifestAdvances(j, p);
    }
    hide Underway;
  }

  lemma RegisteredIsLive(j: State, p: nat, q: Request, k: State)
    requires MayStart(j, p, q)
    requires
      var checked := DoCheckSource(Lookup(j, p, q), p, q.token, q.now);
      k == DoRegister(DoOpenSnapshot(DoLeaseForIngest(checked, p, q.now, q.ttl), p), p)
    ensures j.src.sources != [] && Keyed(Rows(j, q))
    ensures Live(j, k, p, q, Registration(j, p, q)) && p in k.ingests && k.ingests[p] == Registration(j, p, q)
    ensures SameStorage(j, k)
  {
    hide Lookup, DoCheckSource, DoLeaseForIngest, DoOpenSnapshot, DoRegister, Keyed, SourceHeld, Leasable, Mark,
         SameMarks, V.UniformCursors, FetchUpperBound, Now;
    RegisteringHolds(j, p, q);
    HoldsIsLive(j, k, p, q, Registration(j, p, q));
  }

  lemma ReadyToExtract(j: State, k: State, p: nat, q: Request)
    requires MayStart(j, p, q) && Live(j, k, p, q, Registration(j, p, q)) && Registration(j, p, q).upper.At?
    ensures p in k.ingests && k.ingests[p] == Registration(j, p, q) && q.pageSize >= 1
    ensures Now(k.src.sources, q.table) == Rows(j, q) && Keyed(Rows(j, q)) && j.src.sources != []
    ensures V.UniformCursors(Rows(j, q), k.ingests[p].seen) && k.ingests[p].seen == Seen(j, q)
  {
    hide Keyed, V.UniformCursors, FetchUpperBound, Mark, SameMarks, SourceHeld, Leasable;
  }

  lemma RefusedExplains(j: State, q: Request)
    requires exists r ::
      r in Beyond(Rows(j, q), Seen(j, q)) && (V.SchemaDiffers(q.config, r) || V.HasBadKey(q.references, r))
    ensures Explains(RowsRefused, j, q)
  {
    hide Beyond, V.SchemaDiffers, V.HasBadKey, Now, Mark;
  }

  lemma SplitIsNew(j: State, p: nat, q: Request, a: V.Artifacts)
    requires Keyed(Rows(j, q)) && j.src.sources != []
    requires V.SplitsRange(a, Rows(j, q), Seen(j, q), Registration(j, p, q).upper)
    requires V.HoldsVerdicts(a, q.config, q.references,
                             Ordered(InRange(Rows(j, q), Seen(j, q), Registration(j, p, q).upper)))
    ensures var valid, rejected := Elements(a.valid), Elements(V.Records(a.rejected));
      && SplitsNew(j, q, valid, rejected)
      && valid !! rejected && valid + rejected == InRange(Rows(j, q), Seen(j, q), Registration(j, p, q).upper)
      && |valid| + |rejected| == a.extracted && |rejected| == a.rejectedCount
    ensures a.extracted == |NewRows(j, q)| && a.rejectedCount == |Rejects(j, q)|
  {
    hide Keyed, Beyond, InRange, Elements, Now, Mark, FetchUpperBound, Registration, Ordered, V.RejectedRows,
         V.ValidRows;
    UpperIsWhole(j, p, q);
    V.RangeKeyed(Rows(j, q), Seen(j, q), Registration(j, p, q).upper);
  }

  lemma RejectsExplain(j: State, q: Request, a: V.Artifacts)
    requires Keyed(Beyond(Rows(j, q), Seen(j, q)))
    requires a.extracted == |NewRows(j, q)| && a.rejectedCount == |Rejects(j, q)|
    requires !(0 <= a.rejectedCount <= a.extracted && 20 * a.rejectedCount <= a.extracted)
    requires a.rejectedCount <= a.extracted
    ensures Explains(TooManyRejects, j, q)
  {
    hide Keyed, Beyond, Now, Mark, NewRows, Rejects;
  }

  lemma SplitKeyed(j: State, q: Request, valid: set<Record>, rejected: set<Record>)
    requires SplitsNew(j, q, valid, rejected)
    ensures Keyed(Beyond(Rows(j, q), Seen(j, q))) && rejected == Elements(V.Records(Rejects(j, q)))
  {
    hide Keyed, Beyond, Now, Mark, Elements, Rejects;
  }

  lemma VerifyStoresNothing(j: State, p: nat, now: int)
    ensures SameStorage(j, DoVerify(j, p, now))
  {
    hide LeasesCurrent, RejectRateAccepted;
  }

  lemma VerifyPasses(j: State, k: State, p: nat, q: Request, valid: set<Record>, rejected: set<Record>, a: V.Artifacts)
    requires MayStart(j, p, q) && Live(j, k, p, q, ReadAttempt(j, p, q, valid, rejected, Extracted))
    requires |valid| + |rejected| == a.extracted && |rejected| == a.rejectedCount && 20 * a.rejectedCount <= a.extracted
    ensures RejectRateAccepted(|valid|, |rejected|)
    ensures Live(j, DoVerify(k, p, q.now), p, q, ReadAttempt(j, p, q, valid, rejected, Verified))
    ensures SameStorage(k, DoVerify(k, p, q.now))
  {
    hide Keyed, SourceHeld, Leasable, Mark, SameMarks, V.UniformCursors, FetchUpperBound, Now, LeasesCurrent, DoVerify,
         Underway;
    var x := ReadAttempt(j, p, q, valid, rejected, Extracted);
    LiveLeases(j, k, p, q, x);
    VerifyAdvances(k, p, q.now);
    VerifyStoresNothing(k, p, q.now);
    UnderwayIsLive(j, k, DoVerify(k, p, q.now), p, q, x, Verified);
  }

  lemma LiveIs(j: State, k: State, p: nat, q: Request, x: Ingest)
    requires Live(j, k, p, q, x)
    ensures p in k.ingests && k.ingests[p] == x && !x.closed && k.src == j.src
  {
    hide SameMarks, Mark;
  }

  /** One upload of a live attempt: it stays live, or the object store already held its batch. */
  lemma LiveQuarantine(j: State, k: State, p: nat, q: Request, x: Ingest)
    requires Live(j, k, p, q, x) && x.BatchKey() == q.BatchKey() && x.stage == Verified
    requires SameStorage(j, k)
    ensures var l := DoStoreQuarantine(k, p);
      && l.data == j.data && l.manifests == j.manifests
      && (if AtStage(l, p, QuarantineStored) then Live(j, l, p, q, x.(stage := QuarantineStored))
          else l == k && Explains(ObjectExists, j, q))
  {
    hide SameMarks, Mark, DoStoreQuarantine, Underway, Live;
    LiveIs(j, k, p, q, x);
    QuarantineOrExists(k, p);
    if AtStage(DoStoreQuarantine(k, p), p, QuarantineStored) {
      UnderwayIsLive(j, k, DoStoreQuarantine(k, p), p, q, x, QuarantineStored);
    }
  }

  lemma LiveData(j: State, k: State, p: nat, q: Request, x: Ingest)
    requires Live(j, k, p, q, x) && x.BatchKey() == q.BatchKey() && x.stage == QuarantineStored
    requires k.data == j.data && k.manifests == j.manifests
    ensures var l := DoStoreData(k, p);
      && l.manifests == j.manifests
      && (if AtStage(l, p, DataStored) then Live(j, l, p, q, x.(stage := DataStored))
          else l == k && Explains(ObjectExists, j, q))
  {
    hide SameMarks, Mark, DoStoreData, Underway, Live;
    LiveIs(j, k, p, q, x);
    DataOrExists(k, p);
    if AtStage(DoStoreData(k, p), p, DataStored) {
      UnderwayIsLive(j, k, DoStoreData(k, p), p, q, x, DataStored);
    }
  }

  lemma LiveManifest(j: State, k: State, p: nat, q: Request, x: Ingest)
    requires Live(j, k, p, q, x) && x.BatchKey() == q.BatchKey() && x.stage == DataStored
    requires k.manifests == j.manifests
    ensures var l := DoStoreManifest(k, p);
      if AtStage(l, p, ManifestStored) then Live(j, l, p, q, x.(stage := ManifestStored))
      else l == k && Explains(ObjectExists, j, q)
  {
    hide SameMarks, Mark, DoStoreManifest, Underway, Live;
    LiveIs(j, k, p, q, x);
    ManifestOrExists(k, p);
    if AtStage(DoStoreManifest(k, p), p, ManifestStored) {
      UnderwayIsLive(j, k, DoStoreManifest(k, p), p, q, x, ManifestStored);
    }
  }

  lemma AttemptFacts(j: State, p: nat, q: Request, valid: set<Record>, rejected: set<Record>, s: Stage)
    requires MayStart(j, p, q)
    ensures j.src.sources != [] && Keyed(Rows(j, q))
    ensures var x := ReadAttempt(j, p, q, valid, rejected, s);
      && x.BatchKey() == q.BatchKey() && x.stage == s && x.token == q.token && x.table == q.table
      && x.leaseVersion == Mark(j.marks, q.table).version
      && x == ReadAttempt(j, p, q, valid, rejected, Verified).(stage := s)
  {
    hide Keyed, SourceHeld, Leasable, Mark, V.UniformCursors, Now, FetchUpperBound;
  }

  lemma RecheckPasses(j: State, k: State, p: nat, q: Request, x: Ingest)
    requires MayStart(j, p, q) && Live(j, k, p, q, x) && x.stage == ManifestStored
    requires x.token == q.token && x.table == q.table && x.leaseVersion == Mark(j.marks, q.table).version
    ensures Live(j, DoRecheck(k, p, q.now), p, q, x.(stage := Rechecked))
  {
    hide Keyed, SourceHeld, Leasable, Mark, SameMarks, V.UniformCursors, Now, LeasesCurrent, DoRecheck, Underway;
    LiveLeases(j, k, p, q, x);
    RecheckAdvances(k, p, q.now);
    UnderwayIsLive(j, k, DoRecheck(k, p, q.now), p, q, x, Rechecked);
  }

  lemma CommitLands(j: State, k: State, p: nat, q: Request, x: Ingest)
    requires Live(j, k, p, q, x) && x.stage == Rechecked && q.ttl > 0 && x.BatchKey() == q.BatchKey()
    requires x.seen == Mark(j.marks, q.table).cursor && x.seenVersion == Mark(j.marks, q.table).version
    ensures var l := DoCommitRun(k, p, q.now);
      && l.catalog == j.catalog[q.BatchKey() := Entry(p, x.seen, x.upper, x.valid, x.rejected)]
      && Mark(l.marks, q.table)
           == Watermark(x.upper, Mark(j.marks, q.table).version + 1, HeldBy(Ingestion(p), q.now + q.ttl))
      && l.runs == SetStatus(k.runs, p, RunStatus.Success)
  {
    hide SetStatus;
    assert p in k.runs && k.runs[p].status.Running?;
  }

  lemma Releases(k: State, p: nat, t: Table)
    requires Mark(k.marks, t).lease.HeldBy? && Mark(k.marks, t).lease.holder == Ingestion(p)
    ensures var l := DoReleaseLease(k, Ingestion(p), t);
      l.catalog == k.catalog && Mark(l.marks, t) == Mark(k.marks, t).(lease := Unheld)
  {
  }

  lemma UpToTheEnd(rows: set<Record>, seen: Position, upper: Position)
    requires Keyed(rows) && upper == FetchUpperBound(rows, seen) && upper.At?
    ensures Earlier(seen, upper) && forall r :: r in rows ==> UpTo(r.cursor, upper)
  {
    UpperBoundClosesRange(rows, seen);
    hide FetchUpperBound, Less;
    RangeMovesForward(rows, seen, upper);
    forall r | r in rows ensures UpTo(r.cursor, upper) {
      if After(r.cursor, seen) {
        assert r in InRange(rows, seen, upper);
      } else {
        UpToIsNotAfter(r.cursor, seen);
        UpToMonotone(r.cursor, seen, upper);
      }
    }
  }

  lemma NewEntryIsImage(j: State, p: nat, q: Request, valid: set<Record>, rejected: set<Record>)
    requires Keyed(Rows(j, q)) && j.src.sources != [] && SplitsNew(j, q, valid, rejected)
    requires RejectRateAccepted(|valid|, |rejected|) && Registration(j, p, q).upper.At?
    ensures var upper := Registration(j, p, q).upper;
      && G.IsImage(Entry(p, Seen(j, q), upper, valid, rejected), Rows(j, q))
      && upper == FetchUpperBound(Rows(j, q), Seen(j, q))
      && forall r :: r in Rows(j, q) ==> UpTo(r.cursor, upper)
  {
    UpperIsWhole(j, p, q);
    hide Keyed, FetchUpperBound, Beyond, InRange, Now, Mark, RejectRateAccepted, Registration, UpTo, Earlier;
    UpToTheEnd(Rows(j, q), Seen(j, q), Registration(j, p, q).upper);
  }

  lemma CommitCommits(j: State, k: State, p: nat, q: Request, valid: set<Record>, rejected: set<Record>)
    requires MayStart(j, p, q) && SplitsNew(j, q, valid, rejected) && RejectRateAccepted(|valid|, |rejected|)
    requires Registration(j, p, q).upper.At?
    requires Live(j, k, p, q, ReadAttempt(j, p, q, valid, rejected, Rechecked))
    ensures Keyed(Rows(j, q))
    ensures Committed(j, DoReleaseLease(DoCommitRun(k, p, q.now), Ingestion(p), q.table), p, q)
    ensures Recorded(j, DoReleaseLease(DoCommitRun(k, p, q.now), Ingestion(p), q.table), p, q, RunStatus.Success)
  {
    hide Keyed, SourceHeld, Leasable, V.UniformCursors, Now, FetchUpperBound, Live, SplitsNew, RejectRateAccepted,
         G.IsImage, Mark, DoCommitRun, DoReleaseLease, Rejects, Elements, Beyond, Recorded, SetStatus;
    var x := ReadAttempt(j, p, q, valid, rejected, Rechecked);
    CommitLands(j, k, p, q, x);
    StatusIsRecorded(j, k, p, q, x, RunStatus.Success);
    ReleaseRecords(j, DoCommitRun(k, p, q.now), p, q, RunStatus.Success);
    Releases(DoCommitRun(k, p, q.now), p, q.table);
    NewEntryIsImage(j, p, q, valid, rejected);
    SplitKeyed(j, q, valid, rejected);
  }

  lemma UntouchedMayStart(j: State, k: State, p: nat, q: Request, x: Ingest)
    requires Untouched(j, k, p, x) && j.src.sources != [] && Keyed(Rows(j, q))
    requires p !in j.ingests && p !in j.runs && q.BatchKey() !in j.catalog && q.ttl > 0 && q.pageSize >= 1
    requires SourceHeld(k, q) && Leasable(Mark(k.marks, q.table), Ingestion(p), q.now)
    requires V.UniformCursors(Rows(j, q), Seen(j, q))
    ensures MayStart(j, p, q)
  {
    hide Keyed, CheckCurrent, Leasable, Mark, V.UniformCursors;
  }

  // ---------------------------------------------------------------------------------------
  // The object store
  // ---------------------------------------------------------------------------------------

  /** No object was overwritten or removed, and new objects carry the batch. */
  ghost predicate StoresOnly(j: State, k: State, key: Key) {
    && Extends(j.data, k.data) && k.data.Keys <= j.data.Keys + {key}
    && Extends(j.manifests, k.manifests) && k.manifests.Keys <= j.manifests.Keys + {key}
    && Extends(j.quarantine, k.quarantine) && k.quarantine.Keys <= j.quarantine.Keys + {key}
  }

  lemma SameIsOnly(j: State, k: State, key: Key)
    requires SameStorage(j, k)
    ensures StoresOnly(j, k, key)
  {
  }

  lemma SameStorageTransitive(a: State, b: State, c: State)
    requires SameStorage(a, b) && SameStorage(b, c)
    ensures SameStorage(a, c)
  {
  }

  lemma StoresOnlyTransitive(a: State, b: State, c: State, key: Key)
    requires StoresOnly(a, b, key) && StoresOnly(b, c, key)
    ensures StoresOnly(a, c, key)
  {
  }

  predicate Quarantines(j: State, p: nat) {
    AtStage(j, p, Verified) && j.ingests[p].rejected != {} && j.ingests[p].BatchKey() !in j.quarantine
  }

  lemma QuarantineGrows(j: State, p: nat)
    requires Quarantines(j, p)
    ensures var k, x := DoStoreQuarantine(j, p), j.ingests[p];
      && k.data == j.data && k.manifests == j.manifests
      && k.quarantine == j.quarantine[x.BatchKey() := DataObject(p, x.rejected)]
  {
  }

  lemma QuarantineStays(j: State, p: nat)
    requires !Quarantines(j, p)
    ensures SameStorage(j, DoStoreQuarantine(j, p))
  {
    if AtStage(j, p, Verified) {
    }
  }

  lemma QuarantineStoresOnly(start: State, j: State, p: nat, key: Key)
    requires StoresOnly(start, j, key) && p in j.ingests && j.ingests[p].BatchKey() == key
    ensures StoresOnly(start, DoStoreQuarantine(j, p), key)
  {
    hide Extends, DoStoreQuarantine;
    var k := DoStoreQuarantine(j, p);
    ExtendsSame(j.data);
    ExtendsSame(j.manifests);
    ExtendsSame(j.quarantine);
    if Quarantines(j, p) {
      QuarantineGrows(j, p);
      Extended(j.quarantine, key, DataObject(p, j.ingests[p].rejected));
    } else {
      QuarantineStays(j, p);
    }
    assert StoresOnly(j, k, key);
    hide StoresOnly;
    StoresOnlyTransitive(start, j, k, key);
  }

  lemma DataStoresOnly(start: State, j: State, p: nat, key: Key)
    requires StoresOnly(start, j, key) && p in j.ingests && j.ingests[p].BatchKey() == key
    ensures StoresOnly(start, DoStoreData(j, p), key)
  {
    hide Extends;
    var k := DoStoreData(j, p);
    ExtendsSame(j.data);
    ExtendsSame(j.manifests);
    ExtendsSame(j.quarantine);
    if k.data != j.data {
      Extended(j.data, key, DataObject(p, j.ingests[p].valid));
    }
    assert StoresOnly(j, k, key);
    hide StoresOnly, DoStoreData;
    StoresOnlyTransitive(start, j, k, key);
  }

  lemma ManifestStoresOnly(start: State, j: State, p: nat, key: Key)
    requires StoresOnly(start, j, key) && p in j.ingests && j.ingests[p].BatchKey() == key
    ensures StoresOnly(start, DoStoreManifest(j, p), key)
  {
    hide Extends;
    var k := DoStoreManifest(j, p);
    ExtendsSame(j.data);
    ExtendsSame(j.manifests);
    ExtendsSame(j.quarantine);
    if k.manifests != j.manifests {
      Extended(j.manifests, key, Manifest(p, j.ingests[p].seen, j.ingests[p].upper));
    }
    assert StoresOnly(j, k, key);
    hide StoresOnly, DoStoreManifest;
    StoresOnlyTransitive(start, j, k, key);
  }

  /** Storage and source stand still. */
  ghost predicate OutsideStands(j: State, k: State) {
    SameStorage(j, k) && k.src == j.src
  }

  lemma ReleaseStoresNothing(j: State, p: nat, t: Table)
    ensures OutsideStands(j, DoReleaseLease(j, Ingestion(p), t))
  {
    hide Mark;
    if DoReleaseLease(j, Ingestion(p), t) != j {
      assert DoReleaseLease(j, Ingestion(p), t) == SetLease(j, t, Unheld);
    }
  }

  lemma ClosingStoresNothing(j: State, p: nat)
    ensures OutsideStands(j, DoFailRun(j, p)) && OutsideStands(j, DoFinishNoData(j, p))
  {
    hide SetStatus;
  }

  lemma CommitRunStoresNothing(j: State, p: nat, now: int)
    ensures OutsideStands(j, DoCommitRun(j, p, now)) && OutsideStands(j, DoRecheck(j, p, now))
  {
    hide Mark, SetStatus, HoldsLease, LeasesCurrent, Events;
  }

  lemma FailureStoresNothing(j: State, p: nat, t: Table)
    ensures SameStorage(j, DoReleaseLease(DoFailRun(j, p), Ingestion(p), t))
  {
    hide DoReleaseLease, DoFailRun, DoFinishNoData;
    ClosingStoresNothing(j, p);
    ReleaseStoresNothing(DoFailRun(j, p), p, t);
  }

  lemma NoDataStoresNothing(j: State, p: nat, t: Table)
    ensures OutsideStands(j, DoReleaseLease(DoFinishNoData(j, p), Ingestion(p), t))
    ensures SameStorage(j, DoReleaseLease(DoFinishNoData(j, p), Ingestion(p), t))
  {
    hide DoReleaseLease, DoFailRun, DoFinishNoData;
    ClosingStoresNothing(j, p);
    ReleaseStoresNothing(DoFinishNoData(j, p), p, t);
  }

  /** The steps after the uploads store nothing. */
  lemma EndStoresNothing(start: State, j: State, p: nat, q: Request)
    requires StoresOnly(start, j, q.BatchKey())
    ensures var k := DoReleaseLease(DoCommitRun(DoRecheck(j, p, q.now), p, q.now), Ingestion(p), q.table);
      StoresOnly(start, k, q.BatchKey()) && k.src == DoRecheck(j, p, q.now).src
  {
    hide DoReleaseLease, DoCommitRun, DoRecheck, StoresOnly;
    var l := DoRecheck(j, p, q.now);
    var committed := DoCommitRun(l, p, q.now);
    var k := DoReleaseLease(committed, Ingestion(p), q.table);
    CommitRunStoresNothing(j, p, q.now);
    CommitRunStoresNothing(l, p, q.now);
    ReleaseStoresNothing(committed, p, q.table);
    SameIsOnly(j, k, q.BatchKey());
    StoresOnlyTransitive(start, j, k, q.BatchKey());
  }

  // ---------------------------------------------------------------------------------------
  // Before the leases
  // ---------------------------------------------------------------------------------------

  /** Nothing is recorded under the attempt or its batch, and the request makes sense. */
  ghost predicate CanBegin(j: State, p: nat, q: Request) {
    && p !in j.ingests && p !in j.runs && q.BatchKey() !in j.catalog && j.src.sources != [] && Keyed(Rows(j, q))
    && q.ttl > 0 && q.pageSize >= 1 && V.UniformCursors(Rows(j, q), Seen(j, q))
  }

  /** The source lease is refused to the attempt. */
  predicate MayNotAcquire(j: State, p: nat, q: Request) {
    S.DoAcquire(j.src, Owner(Warehouse, p), q.now, q.ttl).1.Refused?
  }

  /** How a batch that is already in the catalog ends. */
  ghost predicate Reused(j: State, k: State, p: nat, q: Request, sameSchema: bool, outcome: Ending)
    requires q.BatchKey() in j.catalog
  {
    var e := j.catalog[q.BatchKey()];
    && k.src == j.src && G.SameControl(j, k) && SameStorage(j, k) && p in k.runs
    && if sameSchema && e.upper == Seen(j, q)
       then outcome.AlreadyCommitted? && k.runs[p] == RunRow(q.table, e.before, e.upper, Skipped)
       else outcome == Failure(if sameSchema then BatchConflict else SchemaConflict)
            && k.runs[p] == RunRow(q.table, Seen(j, q), Initial, RunStatus.Failed)
  }

  lemma ReuseEnds(j: State, k: State, p: nat, q: Request, sameSchema: bool)
    requires Untouched(j, k, p, Started(j, p, q)) && q.BatchKey() in k.catalog && p !in j.runs
    ensures q.BatchKey() in j.catalog
    ensures var outcome := if !sameSchema then Failure(SchemaConflict)
                           else if k.catalog[q.BatchKey()].upper == Seen(k, q) then AlreadyCommitted
                           else Failure(BatchConflict);
      Reused(j, DoReuseBatch(k, p, sameSchema), p, q, sameSchema, outcome)
  {
    hide Mark;
  }

  /** A reused batch in the terms of the whole attempt. */
  lemma ReusedEnds(j: State, k: State, p: nat, q: Request, sameSchema: bool, outcome: Ending)
    requires q.BatchKey() in j.catalog && Reused(j, k, p, q, sameSchema, outcome)
    ensures G.SameControl(j, k) && k.catalog.Keys == j.catalog.Keys && k.src == j.src && SameStorage(j, k)
    ensures outcome.AlreadyCommitted? || outcome == Failure(BatchConflict) || outcome == Failure(SchemaConflict)
    ensures outcome.Failure? ==> Explains(outcome.reason, j, q)
    ensures StoresOnly(j, k, q.BatchKey())
  {
    hide Mark;
  }

  lemma FreshStart(j: State, k: State, p: nat, q: Request)
    requires k == DoReadWatermark(j, p, q.table, q.batch) && p !in j.ingests
    ensures Untouched(j, k, p, Started(j, p, q)) && (q.BatchKey() in k.catalog <==> q.BatchKey() in j.catalog)
  {
    hide Mark;
  }

  lemma LookupIs(j: State, p: nat, q: Request)
    requires p !in j.ingests && p !in j.runs && q.BatchKey() !in j.catalog && j.src.sources != [] && Keyed(Rows(j, q))
    requires q.ttl > 0 && q.pageSize >= 1 && V.UniformCursors(Rows(j, q), Seen(j, q))
    ensures DoLookUp(DoReadWatermark(j, p, q.table, q.batch), p) == Lookup(j, p, q) && CanBegin(j, p, q)
  {
    hide Mark, DoLookUp, DoReadWatermark, Keyed, V.UniformCursors;
  }

  lemma LookupKeeps(j: State, p: nat, q: Request)
    requires CanBegin(j, p, q)
    ensures var k := Lookup(j, p, q);
      && Untouched(j, k, p, Started(j, p, q).(stage := Clear)) && NothingMoved(j, k) && SameStorage(j, k)
      && k.marks == j.marks && k.src == j.src
  {
    hide Mark, Keyed, V.UniformCursors, Lookup;
    LookupIsClear(j, p, q);
    UntouchedMovesNothing(j, Lookup(j, p, q), p, Started(j, p, q).(stage := Clear));
  }

  lemma BeginsToStart(j: State, k: State, p: nat, q: Request)
    requires CanBegin(j, p, q) && k == Lookup(j, p, q)
    requires SourceHeld(k, q) && Leasable(Mark(k.marks, q.table), Ingestion(p), q.now)
    ensures MayStart(j, p, q)
  {
    hide Mark, Keyed, V.UniformCursors, Lookup, SourceHeld, Leasable, MayStart;
    LookupKeeps(j, p, q);
    UntouchedMayStart(j, k, p, q, Started(j, p, q).(stage := Clear));
  }

  lemma FailedOnly(j: State, k: State, l: State, q: Request)
    requires SameStorage(j, k) && SameStorage(k, l) && NothingMoved(j, l)
    ensures SameStorage(j, l) && StoresOnly(j, l, q.BatchKey()) && G.SameControl(j, l) && l.src == j.src
  {
  }

  lemma MovedNothing(j: State, k: State)
    requires G.SameControl(j, k)
    ensures k.catalog.Keys == j.catalog.Keys
  {
  }

  lemma CommittedKeys(j: State, k: State, p: nat, q: Request)
    requires Keyed(Rows(j, q)) && Committed(j, k, p, q)
    ensures q.BatchKey() in k.catalog && k.catalog.Keys == j.catalog.Keys + {q.BatchKey()}
  {
    hide Mark, Keyed, FetchUpperBound, Beyond, G.IsImage, Elements, Rejects, UpTo, Now;
  }

  // ---------------------------------------------------------------------------------------
  // A source lease of its own
  // ---------------------------------------------------------------------------------------

  lemma RefusedLease(j: State, p: nat, q: Request)
    requires CanBegin(j, p, q) && S.DoAcquire(Lookup(j, p, q).src, Owner(Warehouse, p), q.now, q.ttl).1.Refused?
    ensures MayNotAcquire(j, p, q)
  {
    hide S.DoAcquire, Lookup, Keyed, V.UniformCursors, Mark;
    LookupKeeps(j, p, q);
  }

  lemma AcquiredIsHeld(s: S.State, p: nat, now: int, ttl: int)
    requires ttl > 0
    ensures var (t, granted) := S.DoAcquire(s, Owner(Warehouse, p), now, ttl);
      granted.Granted? ==>
        && granted.value.owner == Owner(Warehouse, p) && CheckCurrent(t.row, granted.value, now).Granted?
        && t.sources == s.sources && t.fences == {} && Matches(t.row, granted.value)
  {
  }

  lemma ReadIgnoresSource(j: State, p: nat, q: Request, source: S.State)
    ensures var k := DoReadWatermark(j, p, q.table, q.batch);
      DoReadWatermark(j.(src := source), p, q.table, q.batch) == k.(src := source) && k.src == j.src
  {
    hide Mark;
    if p in j.ingests {
      assert DoReadWatermark(j, p, q.table, q.batch) == j;
    } else {
      assert DoReadWatermark(j, p, q.table, q.batch) == Put(j, p, Started(j, p, q));
    }
  }

  lemma LookUpIgnoresSource(j: State, p: nat, source: S.State)
    ensures DoLookUp(j.(src := source), p) == DoLookUp(j, p).(src := source) && DoLookUp(j, p).src == j.src
  {
    if AtStage(j, p, Fresh) && j.ingests[p].BatchKey() !in j.catalog {
      assert DoLookUp(j, p) == Advanced(j, p, Clear);
    } else {
      assert DoLookUp(j, p) == j;
    }
  }

  lemma LookupIgnoresSource(j: State, p: nat, q: Request, source: S.State)
    ensures Lookup(j.(src := source), p, q) == Lookup(j, p, q).(src := source)
    ensures Lookup(j, p, q).src == j.src
  {
    hide Mark, DoReadWatermark, DoLookUp;
    ReadIgnoresSource(j, p, q, source);
    LookUpIgnoresSource(DoReadWatermark(j, p, q.table, q.batch), p, source);
  }

  /** The granted lease is current, and the attempt begins as it would have without it. */
  lemma GrantedLease(j: State, p: nat, q: Request)
    requires CanBegin(j, p, q)
    ensures Lookup(j, p, q).src == j.src
    ensures var (source, granted) := S.DoAcquire(j.src, Owner(Warehouse, p), q.now, q.ttl);
      granted.Granted? ==>
        var begun, held := j.(src := source), q.(token := granted.value);
        && CanBegin(begun, p, held) && SourceHeld(begun, held) && source.sources == j.src.sources
        && Lookup(j, p, q).(src := source) == Lookup(begun, p, held)
        && source.fences == {} && Matches(source.row, granted.value)
  {
    hide Mark, Keyed, V.UniformCursors;
    AcquiredIsHeld(j.src, p, q.now, q.ttl);
    LookupIgnoresSource(j, p, q, S.DoAcquire(j.src, Owner(Warehouse, p), q.now, q.ttl).0);
  }

  lemma AcquireIsStep(j: State, p: nat, q: Request)
    ensures S.Apply(j.src, S.WarehouseAcquire(p, q.now, q.ttl))
      == S.DoAcquire(j.src, Owner(Warehouse, p), q.now, q.ttl).0
  {
    hide S.DoAcquire;
  }

  lemma ReleasedIsFree(s: S.State, token: Token)
    requires s.fences == {} && Matches(s.row, token)
    ensures var t := S.DoRelease(s, token); t.row.hold.Free? && t.sources == s.sources
    ensures S.Apply(s, S.Release(token)) == S.DoRelease(s, token)
  {
  }

  lemma SameImageOfSource(j: State, b: State, k: State, p: nat, q: Request, h: Request, source: S.State)
    requires b == j.(src := b.src) && b.src.sources == j.src.sources && h == q.(token := h.token)
    requires Keyed(Rows(b, h)) && Committed(b, k, p, h)
    ensures Keyed(Rows(j, q)) && Committed(j, k.(src := source), p, q)
  {
    hide Mark, Keyed, FetchUpperBound, Beyond, G.IsImage, Elements, UpTo, Now, V.RejectedRows, Ordered;
  }

  lemma SameReason(j: State, b: State, reason: Reason, q: Request, h: Request)
    requires b == j.(src := b.src) && b.src.sources == j.src.sources && h == q.(token := h.token)
    requires Explains(reason, b, h) && !reason.SourceLeaseLost?
    ensures Explains(reason, j, q)
  {
    hide Mark, Keyed, Beyond, Now, V.RejectedRows, Ordered, V.SchemaDiffers, V.HasBadKey;
  }

  lemma HeldEnds(j: State, k: State, q: Request, outcome: Ending)
    requires !outcome.Success? ==> NothingMoved(j, k)
    requires outcome.Failure? ==> Explains(outcome.reason, j, q)
    ensures !outcome.Success? ==> G.SameControl(j, k)
  {
    hide CheckCurrent;
  }

  /** What an attempt under its own lease did, seen from before it acquired the lease. */
  lemma OwnedEnds(j: State, b: State, k: State, p: nat, q: Request, h: Request, outcome: Ending)
    requires b == j.(src := b.src) && b.src.sources == j.src.sources && h == q.(token := h.token) && k.src == b.src
    requires outcome.Success? ==> Keyed(Rows(b, h)) && Committed(b, k, p, h)
    requires !outcome.Success? ==> NothingMoved(b, k)
    requires outcome.NoData? ==> Beyond(Rows(b, h), Seen(b, h)) == {}
    requires outcome.Failure? ==> Explains(outcome.reason, b, h)
    requires outcome != Failure(SourceLeaseLost)
    requires StoresOnly(b, k, h.BatchKey())
    requires !outcome.Success? && outcome != Failure(ObjectExists) ==> SameStorage(b, k)
    requires Keyed(Rows(b, h)) && RunTells(b, k, p, h, outcome)
    ensures Keyed(Rows(j, q)) && RunTells(j, k.(src := S.DoRelease(k.src, h.token)), p, q, outcome)
    ensures var released := k.(src := S.DoRelease(k.src, h.token));
      && (outcome.Success? ==> Keyed(Rows(j, q)) && Committed(j, released, p, q))
      && (!outcome.Success? ==> G.SameControl(j, released))
      && (outcome.NoData? ==> Beyond(Rows(j, q), Seen(j, q)) == {})
      && (outcome.Failure? ==> Explains(outcome.reason, j, q))
      && StoresOnly(j, released, q.BatchKey())
      && (!outcome.Success? && outcome != Failure(ObjectExists) ==> SameStorage(j, released))
  {
    hide Keyed, Committed, Explains, Beyond, Mark, Now, Extends, S.DoRelease, FetchUpperBound;
    var source := S.DoRelease(k.src, h.token);
    if outcome.Success? {
      SameImageOfSource(j, b, k, p, q, h, source);
    }
    if outcome.Failure? {
      SameReason(j, b, outcome.reason, q, h);
    }
  }

  lemma BeginsKeyed(j: State, p: nat, q: Request)
    requires CanBegin(j, p, q)
    ensures Keyed(Rows(j, q)) && p !in j.runs && q.BatchKey() !in j.catalog
  {
    hide Keyed, V.UniformCursors;
  }

  /** The lease the attempt meets after its first steps is the one it met before them. */
  lemma LookupTaken(j: State, k: State, p: nat, q: Request)
    requires k.marks == j.marks && k.src == j.src
    ensures Leasable(Mark(k.marks, q.table), Ingestion(p), q.now) <==> !TableTaken(j, p, q)
    ensures SourceHeld(k, q) <==> SourceHeld(j, q)
  {
    hide Mark, CheckCurrent;
  }

  lemma MayAcquireIs(j: State, p: nat, q: Request)
    ensures MayNotAcquire(j, p, q) <==> S.DoAcquire(j.src, Owner(Warehouse, p), q.now, q.ttl).1.Refused?
  {
    hide S.DoAcquire;
  }

  /** Which failure an attempt that found no committed batch meets first, and what every failure says. */
  ghost predicate FailsTruthfully(j: State, p: nat, q: Request, owned: bool, outcome: Ending) {
    var refused := if owned then MayNotAcquire(j, p, q) else !SourceHeld(j, q);
    && (outcome.Failure? && outcome.reason != SourceLeaseLost ==> Explains(outcome.reason, j, q))
    && (q.BatchKey() !in j.catalog ==>
          && (outcome == Failure(SourceLeaseLost) <==> refused)
          && (outcome == Failure(TableLeaseHeld) <==> !refused && TableTaken(j, p, q)))
  }

  lemma IsTruthful(j: State, p: nat, q: Request, owned: bool, outcome: Ending)
    requires outcome.Failure? && outcome.reason != SourceLeaseLost ==> Explains(outcome.reason, j, q)
    requires q.BatchKey() !in j.catalog ==>
      (outcome == Failure(SourceLeaseLost) <==> if owned then MayNotAcquire(j, p, q) else !SourceHeld(j, q))
    requires q.BatchKey() !in j.catalog ==>
      (outcome == Failure(TableLeaseHeld) <==>
       (if owned then !MayNotAcquire(j, p, q) else SourceHeld(j, q)) && TableTaken(j, p, q))
    ensures FailsTruthfully(j, p, q, owned, outcome)
  {
    hide Explains, MayNotAcquire, SourceHeld, TableTaken;
  }

  lemma TakenIgnoresSource(j: State, p: nat, q: Request, source: S.State, h: Request)
    requires h == q.(token := h.token)
    ensures TableTaken(j.(src := source), p, h) == TableTaken(j, p, q)
  {
    hide Mark;
  }

  class Service {
    var state: State
    var schemas: map<Key, nat>        // schema versions of the catalog rows

    constructor (state: State, schemas: map<Key, nat>)
      ensures this.state == state && this.schemas == schemas
    {
      this.state, this.schemas := state, schemas;
    }

    /** Records the failure and gives up the table lease. */
    method Fail(p: nat, q: Request, ghost start: State, reason: Reason) returns (outcome: Ending)
      requires Inv(state) && NothingMoved(start, state)
      modifies `state
      ensures Inv(state) && NothingMoved(start, state) && outcome == Failure(reason)
      ensures SameStorage(old(state), state) && state.src == start.src
      ensures state == DoReleaseLease(DoFailRun(old(state), p), Ingestion(p), q.table)
    {
      hide *;
      ClosingSteps(state, p);
      FailureMovesNothing(start, state, p, q.table);
      FailureStoresNothing(state, p, q.table);
      state := DoFailRun(state, p);
      ReleaseLeaseInv(state, Ingestion(p), q.table);
      state := DoReleaseLease(state, Ingestion(p), q.table);
      outcome := Failure(reason);
    }

    /** An upload met an object of the batch. */
    method FailUpload(p: nat, q: Request, ghost start: State, ghost x: Ingest) returns (outcome: Ending)
      requires Inv(state) && NothingMoved(start, state) && StoresOnly(start, state, q.BatchKey())
      requires Live(start, state, p, q, x) && Keyed(Rows(start, q)) && Ranges(start, q, x)
      modifies `state
      ensures Inv(state) && NothingMoved(start, state) && outcome == Failure(ObjectExists)
      ensures StoresOnly(start, state, q.BatchKey()) && state.src == start.src
      ensures Recorded(start, state, p, q, RunStatus.Failed)
    {
      hide *;
      ghost var before := state;
      FailureIsRecorded(start, state, p, q, x);
      outcome := Fail(p, q, start, ObjectExists);
      SameIsOnly(before, state, q.BatchKey());
      StoresOnlyTransitive(start, before, state, q.BatchKey());
    }

    /** The attempt from its uploads to its commit. */
    method Upload(p: nat, q: Request, ghost start: State, ghost valid: set<Record>, ghost rejected: set<Record>)
      returns (outcome: Ending)
      requires Inv(state) && MayStart(start, p, q) && SplitsNew(start, q, valid, rejected)
      requires Registration(start, p, q).upper.At? && RejectRateAccepted(|valid|, |rejected|)
      requires Live(start, state, p, q, ReadAttempt(start, p, q, valid, rejected, Verified))
      requires SameStorage(start, state)
      modifies `state
      ensures Keyed(Rows(start, q)) && RunTells(start, state, p, q, outcome)
      ensures Inv(state) && state.src == start.src
      ensures StoresOnly(start, state, q.BatchKey())
      ensures !outcome.Success? && outcome != Failure(ObjectExists) ==> SameStorage(start, state)
      ensures outcome.Success? ==> Keyed(Rows(start, q)) && Committed(start, state, p, q)
      ensures !outcome.Success? ==> NothingMoved(start, state)
      ensures outcome.Success? || outcome == Failure(ObjectExists)
      ensures outcome.Failure? ==> Explains(outcome.reason, start, q)
    {
      hide *;
      AttemptFacts(start, p, q, valid, rejected, Verified);
      AttemptFacts(start, p, q, valid, rejected, QuarantineStored);
      AttemptFacts(start, p, q, valid, rejected, DataStored);
      AttemptFacts(start, p, q, valid, rejected, ManifestStored);
      AttemptFacts(start, p, q, valid, rejected, Rechecked);
      ghost var x := ReadAttempt(start, p, q, valid, rejected, Verified);
      ghost var key := q.BatchKey();
      RegistrationRanges(start, p, q, valid, rejected, Verified);
      RegistrationRanges(start, p, q, valid, rejected, QuarantineStored);
      RegistrationRanges(start, p, q, valid, rejected, DataStored);
      LiveMovesNothing(start, state, p, q, x);
      LiveIs(start, state, p, q, x);
      SameIsOnly(start, state, key);
      QuarantineStoresOnly(start, state, p, key);
      StoreQuarantineInv(state, p);
      LiveQuarantine(start, state, p, q, x);
      state := DoStoreQuarantine(state, p);
      if !AtStage(state, p, QuarantineStored) {
        outcome := FailUpload(p, q, start, x);
        RecordedTells(start, state, p, q, outcome, RunStatus.Failed);
        return;
      }
      LiveMovesNothing(start, state, p, q, x.(stage := QuarantineStored));
      LiveIs(start, state, p, q, x.(stage := QuarantineStored));
      DataStoresOnly(start, state, p, key);
      StoreDataInv(state, p);
      LiveData(start, state, p, q, x.(stage := QuarantineStored));
      state := DoStoreData(state, p);
      if !AtStage(state, p, DataStored) {
        outcome := FailUpload(p, q, start, x.(stage := QuarantineStored));
        RecordedTells(start, state, p, q, outcome, RunStatus.Failed);
        return;
      }
      LiveMovesNothing(start, state, p, q, x.(stage := DataStored));
      LiveIs(start, state, p, q, x.(stage := DataStored));
      ManifestStoresOnly(start, state, p, key);
      StoreManifestInv(state, p);
      LiveManifest(start, state, p, q, x.(stage := DataStored));
      state := DoStoreManifest(state, p);
      if !AtStage(state, p, ManifestStored) {
        outcome := FailUpload(p, q, start, x.(stage := DataStored));
        RecordedTells(start, state, p, q, outcome, RunStatus.Failed);
        return;
      }
      RecheckPasses(start, state, p, q, x.(stage := ManifestStored));
      RecheckInv(state, p, q.now);
      EndStoresNothing(start, state, p, q);
      state := DoRecheck(state, p, q.now);
      LiveIs(start, state, p, q, x.(stage := Rechecked));
      CommitCommits(start, state, p, q, valid, rejected);
      CommitRunInv(state, p, q.now);
      state := DoCommitRun(state, p, q.now);
      ReleaseLeaseInv(state, Ingestion(p), q.table);
      state := DoReleaseLease(state, Ingestion(p), q.table);
      outcome := Ending.Success;
      RecordedTells(start, state, p, q, outcome, RunStatus.Success);
    }

    /** The attempt from its snapshot to its second lease check. */
    method IngestRows(p: nat, q: Request, ghost start: State) returns (outcome: Ending)
      requires Inv(state) && MayStart(start, p, q) && Live(start, state, p, q, Registration(start, p, q))
      requires Registration(start, p, q).upper.At?
      requires SameStorage(start, state)
      modifies `state
      ensures outcome.Failure? ==> outcome.reason in {RowsRefused, TooManyRejects, ObjectExists}
      ensures Keyed(Rows(start, q)) && RunTells(start, state, p, q, outcome)
      ensures Inv(state) && state.src == start.src
      ensures StoresOnly(start, state, q.BatchKey())
      ensures !outcome.Success? && outcome != Failure(ObjectExists) ==> SameStorage(start, state)
      ensures outcome.Success? ==> Keyed(Rows(start, q)) && Committed(start, state, p, q)
      ensures !outcome.Success? ==> NothingMoved(start, state)
      ensures outcome.Success? || outcome.Failure?
      ensures outcome.Failure? ==> Explains(outcome.reason, start, q)
    {
      hide *;
      ReadyToExtract(start, state, p, q);
      UpperIsWhole(start, p, q);
      LiveMovesNothing(start, state, p, q, Registration(start, p, q));
      var x := state.ingests[p];
      var scope := V.Scope(q.config, x.seen, x.upper.cursor);
      var result := V.ExtractTable(Now(state.src.sources, q.table), scope, q.references, q.pageSize);
      if result.Failed? {
        RefusedExplains(start, q);
        ghost var unread := state;
        RegistrationRanges(start, p, q, {}, {}, Registered);
        FailureIsRecorded(start, state, p, q, Registration(start, p, q));
        outcome := Fail(p, q, start, RowsRefused);
        FailedOnly(start, unread, state, q);
        RecordedTells(start, state, p, q, outcome, RunStatus.Failed);
        return;
      }
      var a := result.value;
      var valid, rejected := Elements(a.valid), Elements(V.Records(a.rejected));
      SplitIsNew(start, p, q, a);
      LiveExtracts(start, state, p, q, valid, rejected);
      ExtractInv(state, p, valid, rejected);
      SameStorageTransitive(start, state, DoExtract(state, p, valid, rejected));
      state := DoExtract(state, p, valid, rejected);
      ghost var extracted := ReadAttempt(start, p, q, valid, rejected, Extracted);
      LiveMovesNothing(start, state, p, q, extracted);
      var rate := V.AssertRejectRate(a.extracted, a.rejectedCount);
      V.RejectRateMeans(a.extracted, a.rejectedCount);
      if !rate.Accepted? {
        SplitKeyed(start, q, valid, rejected);
        RejectsExplain(start, q, a);
        ghost var unchecked := state;
        RegistrationRanges(start, p, q, valid, rejected, Extracted);
        FailureIsRecorded(start, state, p, q, extracted);
        outcome := Fail(p, q, start, TooManyRejects);
        FailedOnly(start, unchecked, state, q);
        RecordedTells(start, state, p, q, outcome, RunStatus.Failed);
        return;
      }
      VerifyPasses(start, state, p, q, valid, rejected, a);
      VerifyInv(state, p, q.now);
      SameStorageTransitive(start, state, DoVerify(state, p, q.now));
      state := DoVerify(state, p, q.now);
      outcome := Upload(p, q, start, valid, rejected);
    }

    /** The attempt from its leases on. */
    method IngestLeased(p: nat, q: Request, ghost start: State) returns (outcome: Ending)
      requires Inv(state) && state == Lookup(start, p, q) && MayStart(start, p, q)
      modifies `state
      ensures outcome.Failure? ==> outcome.reason in {RowsRefused, TooManyRejects, ObjectExists}
      ensures Keyed(Rows(start, q)) && RunTells(start, state, p, q, outcome)
      ensures Inv(state) && state.src == start.src
      ensures StoresOnly(start, state, q.BatchKey())
      ensures !outcome.Success? && outcome != Failure(ObjectExists) ==> SameStorage(start, state)
      ensures outcome.Success? ==> Keyed(Rows(start, q)) && Committed(start, state, p, q)
      ensures !outcome.Success? ==> NothingMoved(start, state)
      ensures outcome.NoData? ==> Beyond(Rows(start, q), Seen(start, q)) == {}
      ensures !outcome.AlreadyCommitted?
      ensures outcome.Failure? ==> Explains(outcome.reason, start, q)
    {
      hide *;
      CheckSourceInv(state, p, q.token, q.now);
      state := DoCheckSource(state, p, q.token, q.now);
      LeaseForIngestInv(state, p, q.now, q.ttl);
      state := DoLeaseForIngest(state, p, q.now, q.ttl);
      OpenSnapshotInv(state, p);
      state := DoOpenSnapshot(state, p);
      RegisterInv(state, p);
      state := DoRegister(state, p);
      RegisteredIsLive(start, p, q, state);
      UpperIsWhole(start, p, q);
      if state.ingests[p].upper.Initial? {
        ClosingSteps(state, p);
        NoDataMovesNothing(start, state, p, q, Registration(start, p, q));
        NoDataStoresNothing(state, p, q.table);
        ghost var registered := state;
        RegistrationRanges(start, p, q, {}, {}, Registered);
        RegistrationStage(start, p, q);
        NoDataIsRecorded(start, state, p, q, Registration(start, p, q));
        state := DoFinishNoData(state, p);
        ReleaseLeaseInv(state, Ingestion(p), q.table);
        state := DoReleaseLease(state, Ingestion(p), q.table);
        FailedOnly(start, registered, state, q);
        outcome := Ending.NoData;
        RecordedTells(start, state, p, q, outcome, RunStatus.NoData);
        return;
      }
      outcome := IngestRows(p, q, start);
    }

    /** The attempt from its check of the source lease on. */
    method IngestHeld(p: nat, q: Request, ghost start: State) returns (outcome: Ending)
      requires Inv(state) && state == Lookup(start, p, q) && CanBegin(start, p, q)
      modifies `state
      ensures Keyed(Rows(start, q)) && RunTells(start, state, p, q, outcome)
      ensures Inv(state) && state.src == start.src
      ensures outcome == Failure(SourceLeaseLost) <==> !SourceHeld(start, q)
      ensures outcome == Failure(TableLeaseHeld) <==> SourceHeld(start, q) && TableTaken(start, p, q)
      ensures outcome.Success? ==> Keyed(Rows(start, q)) && Committed(start, state, p, q)
      ensures !outcome.Success? ==> NothingMoved(start, state)
      ensures outcome.NoData? ==> Beyond(Rows(start, q), Seen(start, q)) == {}
      ensures !outcome.AlreadyCommitted?
      ensures outcome.Failure? ==> Explains(outcome.reason, start, q)
      ensures StoresOnly(start, state, q.BatchKey())
      ensures !outcome.Success? && outcome != Failure(ObjectExists) ==> SameStorage(start, state)
    {
      hide *;
      LookupKeeps(start, p, q);
      BeginsKeyed(start, p, q);
      LookupTaken(start, state, p, q);
      EarlyFailureIsUnrecorded(start, state, p, q, Started(start, p, q).(stage := Clear));
      if !SourceHeld(state, q) {
        SourceLost(start, state, q);
        outcome := Fail(p, q, start, SourceLeaseLost);
        FailedOnly(start, old(state), state, q);
        UnrecordedTells(start, state, p, q, outcome);
        return;
      }
      if !Leasable(Mark(state.marks, q.table), Ingestion(p), q.now) {
        TableHeld(start, state, p, q);
        outcome := Fail(p, q, start, TableLeaseHeld);
        FailedOnly(start, old(state), state, q);
        UnrecordedTells(start, state, p, q, outcome);
        return;
      }
      BeginsToStart(start, state, p, q);
      outcome := IngestLeased(p, q, start);
    }

    /** The attempt under a source lease of its own. */
    method IngestOwned(p: nat, q: Request, ghost start: State) returns (outcome: Ending)
      requires Inv(state) && state == Lookup(start, p, q) && CanBegin(start, p, q)
      modifies `state
      ensures Keyed(Rows(start, q)) && RunTells(start, state, p, q, outcome)
      ensures Inv(state)
      ensures outcome.Success? ==> Keyed(Rows(start, q)) && Committed(start, state, p, q)
      ensures !outcome.Success? ==> G.SameControl(start, state)
      ensures outcome.NoData? ==> Beyond(Rows(start, q), Seen(start, q)) == {}
      ensures !outcome.AlreadyCommitted?
      ensures outcome.Failure? && outcome.reason != SourceLeaseLost ==> Explains(outcome.reason, start, q)
      ensures outcome == Failure(SourceLeaseLost) <==> MayNotAcquire(start, p, q)
      ensures outcome == Failure(TableLeaseHeld) <==> !MayNotAcquire(start, p, q) && TableTaken(start, p, q)
      ensures StoresOnly(start, state, q.BatchKey())
      ensures !outcome.Success? && outcome != Failure(ObjectExists) ==> SameStorage(start, state)
      ensures state.src.sources == start.src.sources && (state.src == start.src || state.src.row.hold.Free?)
    {
      hide *;
      LookupKeeps(start, p, q);
      BeginsKeyed(start, p, q);
      EarlyFailureIsUnrecorded(start, state, p, q, Started(start, p, q).(stage := Clear));
      var (source, granted) := S.DoAcquire(state.src, Owner(Warehouse, p), q.now, q.ttl);
      if granted.Refused? {
        RefusedLease(start, p, q);
        MayAcquireIs(start, p, q);
        outcome := Fail(p, q, start, SourceLeaseLost);
        FailedOnly(start, old(state), state, q);
        UnrecordedTells(start, state, p, q, outcome);
        return;
      }
      SourceStepInv(state, S.WarehouseAcquire(p, q.now, q.ttl));
      ghost var begun := start.(src := source);
      var held := q.(token := granted.value);
      GrantedLease(start, p, q);
      AcquireIsStep(state, p, q);
      state := state.(src := source);
      outcome := IngestHeld(p, held, begun);
      TakenIgnoresSource(start, p, q, source, held);
      MayAcquireIs(start, p, q);
      OwnedEnds(start, begun, state, p, q, held, outcome);
      SourceStepInv(state, S.Release(held.token));
      ReleasedIsFree(state.src, held.token);
      state := state.(src := S.DoRelease(state.src, held.token));
    }

    /**
     A committed batch is reused, or refused when its schema version is another one or the
     watermark has moved past or before it.
     */
    method Reuse(p: nat, q: Request, ghost start: State, sameSchema: bool) returns (outcome: Ending)
      requires Inv(state) && Untouched(start, state, p, Started(start, p, q)) && q.BatchKey() in state.catalog
      requires p !in start.runs
      modifies `state
      ensures Inv(state) && q.BatchKey() in start.catalog && Reused(start, state, p, q, sameSchema, outcome)
    {
      hide *;
      ReuseBatchInv(state, p, sameSchema);
      ReuseEnds(start, state, p, q, sameSchema);
      if !sameSchema {
        outcome := Failure(SchemaConflict);
      } else if state.catalog[q.BatchKey()].upper == Seen(state, q) {
        outcome := AlreadyCommitted;
      } else {
        outcome := Failure(BatchConflict);
      }
      state := DoReuseBatch(state, p, sameSchema);
    }

    /**
     Runs one attempt, under the source lease it was given or under one of its own, which it gives
     up at the end.  A success has committed everything after the watermark of the table and holds
     its objects in storage; every other outcome says why no watermark, history or catalog entry
     moved.  Only an upload that met an existing object leaves objects of its batch behind.
     */
    method IngestTable(p: nat, q: Request, owned: bool) returns (outcome: Ending)
      requires Inv(state) && schemas.Keys == state.catalog.Keys
      requires p !in state.ingests && p !in state.runs && q.ttl > 0 && q.pageSize >= 1
      requires V.UniformCursors(Rows(state, q), Seen(state, q))
      modifies this
      ensures Inv(state) && schemas.Keys == state.catalog.Keys
      ensures outcome.Success? ==>
        && Keyed(Rows(old(state), q)) && Committed(old(state), state, p, q)
        && q.BatchKey() in state.catalog && G.InStorage(state, q.BatchKey())
        && schemas == old(schemas)[q.BatchKey() := q.schema]
      ensures !outcome.Success? ==> G.SameControl(old(state), state) && schemas == old(schemas)
      ensures outcome.NoData? ==> Beyond(Rows(old(state), q), Seen(old(state), q)) == {}
      ensures q.BatchKey() in old(state).catalog ==>
        Reused(old(state), state, p, q, old(schemas)[q.BatchKey()] == q.schema, outcome)
      ensures outcome.AlreadyCommitted? ==> q.BatchKey() in old(state).catalog
      ensures FailsTruthfully(old(state), p, q, owned, outcome)
      ensures Keyed(Rows(old(state), q)) && RunTells(old(state), state, p, q, outcome)
      ensures StoresOnly(old(state), state, q.BatchKey())
      ensures !outcome.Success? && outcome != Failure(ObjectExists) ==> SameStorage(old(state), state)
      ensures state.src.sources == old(state).src.sources
      ensures state.src == old(state).src || (owned && state.src.row.hold.Free?)
    {
      hide *;
      ghost var start := state;
      SnapshotReady(state, q);
      ReadWatermarkInv(state, p, q.table, q.batch);
      StartIsFresh(state, p, q);
      state := DoReadWatermark(state, p, q.table, q.batch);
      FreshStart(start, state, p, q);
      if q.BatchKey() in state.catalog {
        outcome := Reuse(p, q, start, schemas[q.BatchKey()] == q.schema);
        ReusedEnds(start, state, p, q, schemas[q.BatchKey()] == q.schema, outcome);
        ReusedTells(start, state, p, q, outcome);
        IsTruthful(start, p, q, owned, outcome);
        return;
      }
      LookUpInv(state, p);
      LookupIsClear(start, p, q);
      state := DoLookUp(state, p);
      LookupIs(start, p, q);
      if owned {
        outcome := IngestOwned(p, q, start);
      } else {
        outcome := IngestHeld(p, q, start);
        HeldEnds(start, state, q, outcome);
      }
      BeginsKeyed(start, p, q);
      IsTruthful(start, p, q, owned, outcome);
      if outcome.Success? {
        CommittedKeys(start, state, p, q);
        G.EntryInStorage(state, q.BatchKey());
        schemas := schemas[q.BatchKey() := q.schema];
      } else {
        MovedNothing(start, state);
      }
    }
  }
}
