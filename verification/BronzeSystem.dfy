/**
 Ingestion, rewinds and orphan reconciliation joined with the source system.

 The state adds to the source system the watermark rows with their table leases, the run
 history, the insert-only object storage, the committed catalog and every ingestion and rewind
 process.  One step is one transaction, one storage write, one read, or one crash.  A step
 whose guard fails changes nothing, which is how a raised error looks from the database.
 Each table has one pipeline, so a table stands for its watermark row.
 */
module BronzeSystem {
  import opened Cursors
  import opened Extraction
  import opened SourceLease
  import S = SourceSystem

  type Table = S.Table

  // ---------------------------------------------------------------------------------------
  // State
  // ---------------------------------------------------------------------------------------

  /** The identity of a table batch: one committed object at most. */
  datatype Key = Key(batch: string, table: Table)

  datatype Holder = Ingestion(id: nat) | Rewinding(id: nat)

  datatype TableLease = Unheld | HeldBy(holder: Holder, expiresAt: int)

  datatype Watermark = Watermark(cursor: Position, version: nat, lease: TableLease)

  datatype RunStatus = Running | Success | NoData | Skipped | Failed

  datatype RunRow = RunRow(table: Table, before: Position, upper: Position, status: RunStatus)

  datatype DataObject = DataObject(run: nat, rows: set<Record>)

  datatype Manifest = Manifest(run: nat, before: Position, upper: Position)

  /** A catalog row with the rows of its Bronze object and of its quarantine object. */
  datatype Entry = Entry(run: nat, before: Position, upper: Position,
                         valid: set<Record>, rejected: set<Record>)

  /** The milestones of one ingestion attempt, in the order it passes them. */
  datatype Stage =
    | Fresh              // watermark read
    | Clear              // no catalog entry for the batch
    | Checked            // source lease token checked
    | Leased             // table lease acquired
    | Opened             // snapshot opened, upper bound fixed
    | Registered         // RUNNING row recorded
    | Extracted          // all pages read and validated
    | Verified           // both leases checked again, reject rate accepted
    | QuarantineStored
    | DataStored
    | ManifestStored
    | Rechecked          // both leases checked a last time
    | Finished

  function Rank(s: Stage): nat {
    match s
    case Fresh => 0
    case Clear => 1
    case Checked => 2
    case Leased => 3
    case Opened => 4
    case Registered => 5
    case Extracted => 6
    case Verified => 7
    case QuarantineStored => 8
    case DataStored => 9
    case ManifestStored => 10
    case Rechecked => 11
    case Finished => 12
  }

  /** One attempt; `closed` once it returned, failed or crashed.  Its history is kept. */
  datatype Ingest = Ingest(
    table: Table, batch: string, seen: Position, seenVersion: nat,
    token: Token, checkEpoch: nat, leaseVersion: nat,
    epoch: nat, upper: Position,
    valid: set<Record>, rejected: set<Record>,
    stage: Stage, closed: bool)
  {
    predicate Passed(s: Stage) {
      Rank(stage) >= Rank(s)
    }

    function BatchKey(): Key {
      Key(batch, table)
    }
  }

  datatype Rewinder = Rewinder(table: Table, boundary: int, epoch: nat, target: Position,
                               leaseVersion: nat, leased: bool)

  datatype Event =
    | Advance(batch: string, from: Position, to: Position)
    | Rewound(boundary: int, epoch: nat, from: Position, to: Position)

  datatype State = State(
    src: S.State,
    marks: map<Table, Watermark>,
    runs: map<nat, RunRow>,
    data: map<Key, DataObject>,
    manifests: map<Key, Manifest>,
    quarantine: map<Key, DataObject>,
    inspected: set<Key>,
    catalog: map<Key, Entry>,
    history: map<Table, seq<Event>>,
    ingests: map<nat, Ingest>,
    rewinders: map<nat, Rewinder>)

  function Mark(marks: map<Table, Watermark>, t: Table): Watermark {
    if t in marks then marks[t] else Watermark(Initial, 0, Unheld)
  }

  function Events(history: map<Table, seq<Event>>, t: Table): seq<Event> {
    if t in history then history[t] else []
  }

  function Latest(sources: seq<S.Source>): S.Source {
    if sources == [] then map[] else sources[|sources| - 1]
  }

  /** Rows of a table at an epoch of the source history. */
  function RowsAt(sources: seq<S.Source>, epoch: nat, t: Table): set<Record> {
    if epoch < |sources| then S.Rows(sources[epoch], t) else {}
  }

  function Now(sources: seq<S.Source>, t: Table): set<Record> {
    S.Rows(Latest(sources), t)
  }

  ghost predicate IsInitial(j: State) {
    && S.Initial(j.src)
    && j == State(j.src, map[], map[], map[], map[], map[], {}, map[], map[], map[], map[])
  }

  // ---------------------------------------------------------------------------------------
  // Steps
  // ---------------------------------------------------------------------------------------

  datatype Step =
    | SourceStep(step: S.Step)
    | ReadWatermark(p: nat, table: Table, batch: string)
    | LookUp(p: nat)
    | ReuseBatch(p: nat, sameSchema: bool)
    | CheckSource(p: nat, token: Token, now: int)
    | LeaseForIngest(p: nat, now: int, ttl: int)
    | RenewLease(holder: Holder, table: Table, version: nat, now: int, ttl: int)
    | ReleaseLease(holder: Holder, table: Table)
    | OpenSnapshot(p: nat)
    | Register(p: nat)
    | FinishNoData(p: nat)
    | Extract(p: nat, valid: set<Record>, rejected: set<Record>)
    | Verify(p: nat, now: int)
    | StoreQuarantine(p: nat)
    | StoreData(p: nat)
    | StoreManifest(p: nat)
    | Recheck(p: nat, now: int)
    | CommitRun(p: nat, now: int)
    | FailRun(p: nat)
    | CrashRun(p: nat)
    | ResolveRewind(q: nat, table: Table, boundary: int)
    | LeaseForRewind(q: nat, now: int, ttl: int)
    | RewindMark(q: nat, now: int)
    | InspectOrphan(key: Key)
    | Reconcile(key: Key)

  predicate AtStage(j: State, p: nat, s: Stage) {
    p in j.ingests && j.ingests[p].stage == s && !j.ingests[p].closed
  }

  function Put(j: State, p: nat, x: Ingest): State {
    j.(ingests := j.ingests[p := x])
  }

  function Advanced(j: State, p: nat, s: Stage): State
    requires p in j.ingests
  {
    Put(j, p, j.ingests[p].(stage := s))
  }

  /** Watermark rows with their leases, catalog and history are untouched. */
  predicate SameTables(j: State, k: State) {
    k.marks == j.marks && k.catalog == j.catalog && k.history == j.history
  }

  function DoReadWatermark(j: State, p: nat, table: Table, batch: string): (k: State)
    ensures SameTables(j, k)
  {
    if p in j.ingests then j else
      var m := Mark(j.marks, table);
      Put(j, p, Ingest(table, batch, m.cursor, m.version, Token(Owner(Warehouse, 0), 0), 0, 0,
                       0, Initial, {}, {}, Fresh, false))
  }

  function DoLookUp(j: State, p: nat): (k: State)
    ensures SameTables(j, k)
  {
    if AtStage(j, p, Fresh) && j.ingests[p].BatchKey() !in j.catalog then Advanced(j, p, Clear) else j
  }

  /**
   A committed batch is reused when it carries the requested schema version and the watermark
   still stands at its upper bound; otherwise the run is recorded as failed.
   */
  function DoReuseBatch(j: State, p: nat, sameSchema: bool): (k: State)
    ensures SameTables(j, k)
  {
    if AtStage(j, p, Fresh) && j.ingests[p].BatchKey() in j.catalog && p !in j.runs then
      var x := j.ingests[p];
      var e := j.catalog[x.BatchKey()];
      var row := if sameSchema && x.seen == e.upper then RunRow(x.table, e.before, e.upper, Skipped)
                 else RunRow(x.table, x.seen, Initial, Failed);
      Put(j, p, x.(closed := true)).(runs := j.runs[p := row])
    else j
  }

  function DoCheckSource(j: State, p: nat, token: Token, now: int): (k: State)
    ensures SameTables(j, k)
  {
    if && AtStage(j, p, Clear) && token.owner.kind.Warehouse?
       && CheckCurrent(j.src.row, token, now).Granted? && j.src.sources != []
    then Put(j, p, j.ingests[p].(stage := Checked, token := token, checkEpoch := |j.src.sources| - 1))
    else j
  }

  /** A table lease is granted when it is free, expired or already held by the same holder. */
  predicate Leasable(m: Watermark, holder: Holder, now: int) {
    m.lease.Unheld? || m.lease.expiresAt <= now || m.lease.holder == holder
  }

  predicate HoldsLease(m: Watermark, holder: Holder, now: int) {
    m.lease.HeldBy? && m.lease.holder == holder && m.lease.expiresAt > now
  }

  function SetLease(j: State, t: Table, lease: TableLease): State {
    j.(marks := j.marks[t := Mark(j.marks, t).(lease := lease)])
  }

  function DoLeaseForIngest(j: State, p: nat, now: int, ttl: int): State {
    if AtStage(j, p, Checked) && Leasable(Mark(j.marks, j.ingests[p].table), Ingestion(p), now) && ttl > 0 then
      var x := j.ingests[p];
      SetLease(Put(j, p, x.(stage := Leased, leaseVersion := Mark(j.marks, x.table).version)),
               x.table, HeldBy(Ingestion(p), now + ttl))
    else j
  }

  function DoRenewLease(j: State, holder: Holder, t: Table, version: nat, now: int, ttl: int): State {
    var m := Mark(j.marks, t);
    if HoldsLease(m, holder, now) && m.version == version && ttl > 0
    then SetLease(j, t, HeldBy(holder, now + ttl)) else j
  }

  function DoReleaseLease(j: State, holder: Holder, t: Table): State {
    var m := Mark(j.marks, t);
    if m.lease.HeldBy? && m.lease.holder == holder then SetLease(j, t, Unheld) else j
  }

  /** The repeatable-read snapshot is the latest committed source state; its range is now fixed. */
  function DoOpenSnapshot(j: State, p: nat): (k: State)
    ensures SameTables(j, k)
  {
    if AtStage(j, p, Leased) && j.src.sources != [] && Keyed(Now(j.src.sources, j.ingests[p].table)) then
      var x := j.ingests[p];
      Put(j, p, x.(stage := Opened, epoch := |j.src.sources| - 1,
                   upper := FetchUpperBound(Now(j.src.sources, x.table), x.seen)))
    else j
  }

  function DoRegister(j: State, p: nat): (k: State)
    ensures SameTables(j, k)
  {
    if AtStage(j, p, Opened) && p !in j.runs then
      var x := j.ingests[p];
      Advanced(j, p, Registered).(runs := j.runs[p := RunRow(x.table, x.seen, x.upper, Running)])
    else j
  }

  function SetStatus(runs: map<nat, RunRow>, p: nat, status: RunStatus): map<nat, RunRow> {
    if p in runs && runs[p].status.Running? then runs[p := runs[p].(status := status)] else runs
  }

  function DoFinishNoData(j: State, p: nat): (k: State)
    ensures SameTables(j, k)
  {
    if AtStage(j, p, Registered) && j.ingests[p].upper.Initial? then
      Put(j, p, j.ingests[p].(closed := true)).(runs := SetStatus(j.runs, p, NoData))
    else j
  }

  /** The pages of the snapshot are split into valid and rejected rows. */
  function DoExtract(j: State, p: nat, valid: set<Record>, rejected: set<Record>): (k: State)
    ensures SameTables(j, k)
  {
    if AtStage(j, p, Registered) && j.ingests[p].upper.At? then
      var x := j.ingests[p];
      if valid !! rejected && valid + rejected == InRange(RowsAt(j.src.sources, x.epoch, x.table), x.seen, x.upper)
      then Put(j, p, x.(stage := Extracted, valid := valid, rejected := rejected)) else j
    else j
  }

  predicate LeasesCurrent(j: State, p: nat, now: int)
    requires p in j.ingests
  {
    var x := j.ingests[p];
    && CheckCurrent(j.src.row, x.token, now).Granted?
    && HoldsLease(Mark(j.marks, x.table), Ingestion(p), now)
    && Mark(j.marks, x.table).version == x.leaseVersion
  }

  /** The reject-rate gate: at most five percent of the extracted rows. */
  predicate RejectRateAccepted(valid: nat, rejected: nat) {
    20 * rejected <= valid + rejected
  }

  function DoVerify(j: State, p: nat, now: int): (k: State)
    ensures SameTables(j, k)
  {
    if && AtStage(j, p, Extracted) && LeasesCurrent(j, p, now)
       && RejectRateAccepted(|j.ingests[p].valid|, |j.ingests[p].rejected|)
    then Advanced(j, p, Verified) else j
  }

  /** Storage keys are written once: an upload over an existing key is refused. */
  function DoStoreQuarantine(j: State, p: nat): (k: State)
    ensures SameTables(j, k)
  {
    if AtStage(j, p, Verified) then
      var x := j.ingests[p];
      if x.rejected == {} then Advanced(j, p, QuarantineStored)
      else if x.BatchKey() !in j.quarantine then
        Advanced(j, p, QuarantineStored).(
          quarantine := j.quarantine[x.BatchKey() := DataObject(p, x.rejected)])
      else j
    else j
  }

  function DoStoreData(j: State, p: nat): (k: State)
    ensures SameTables(j, k)
  {
    if AtStage(j, p, QuarantineStored) && j.ingests[p].BatchKey() !in j.data then
      var x := j.ingests[p];
      Advanced(j, p, DataStored).(data := j.data[x.BatchKey() := DataObject(p, x.valid)])
    else j
  }

  function DoStoreManifest(j: State, p: nat): (k: State)
    ensures SameTables(j, k)
  {
    if AtStage(j, p, DataStored) && j.ingests[p].BatchKey() !in j.manifests then
      var x := j.ingests[p];
      Advanced(j, p, ManifestStored).(
        manifests := j.manifests[x.BatchKey() := Manifest(p, x.seen, x.upper)])
    else j
  }

  function DoRecheck(j: State, p: nat, now: int): (k: State)
    ensures SameTables(j, k)
  {
    if AtStage(j, p, ManifestStored) && LeasesCurrent(j, p, now) then Advanced(j, p, Rechecked) else j
  }

  /** Catalog row, watermark and history move together. */
  function Land(j: State, key: Key, e: Entry): State {
    var m := Mark(j.marks, key.table);
    j.(catalog := j.catalog[key := e],
       marks := j.marks[key.table := m.(cursor := e.upper, version := m.version + 1)],
       history := j.history[key.table := Events(j.history, key.table) + [Advance(key.batch, m.cursor, e.upper)]])
  }

  /**
   The metadata transaction.  The primary key of the catalog is not consulted:
   `CatalogKeyNeverRefuses` shows that it cannot refuse.
   */
  function DoCommitRun(j: State, p: nat, now: int): State {
    if AtStage(j, p, Rechecked) then
      var x := j.ingests[p];
      var m := Mark(j.marks, x.table);
      if && HoldsLease(m, Ingestion(p), now)
         && p in j.runs && j.runs[p].status.Running?
         && m.version == x.seenVersion && m.cursor == x.seen
      then
        Land(Put(j, p, x.(stage := Finished, closed := true)).(runs := SetStatus(j.runs, p, Success)),
             x.BatchKey(), Entry(p, x.seen, x.upper, x.valid, x.rejected))
      else j
    else j
  }

  function DoFailRun(j: State, p: nat): (k: State)
    ensures SameTables(j, k)
  {
    if p in j.ingests && !j.ingests[p].closed then
      Put(j, p, j.ingests[p].(closed := true)).(runs := SetStatus(j.runs, p, Failed))
    else j
  }

  function DoCrashRun(j: State, p: nat): (k: State)
    ensures SameTables(j, k)
  {
    if p in j.ingests then Put(j, p, j.ingests[p].(closed := true)) else j
  }

  function DoResolveRewind(j: State, q: nat, table: Table, boundary: int): (k: State)
    ensures SameTables(j, k)
  {
    if q !in j.rewinders && j.src.sources != [] && Keyed(Now(j.src.sources, table)) then
      j.(rewinders := j.rewinders[q := Rewinder(table, boundary, |j.src.sources| - 1,
           CursorBefore(Now(j.src.sources, table), boundary), 0, false)])
    else j
  }

  function DoLeaseForRewind(j: State, q: nat, now: int, ttl: int): State {
    if q in j.rewinders && !j.rewinders[q].leased && ttl > 0
       && Leasable(Mark(j.marks, j.rewinders[q].table), Rewinding(q), now)
    then
      var w := j.rewinders[q];
      SetLease(j.(rewinders := j.rewinders[q := w.(leased := true, leaseVersion := Mark(j.marks, w.table).version)]),
               w.table, HeldBy(Rewinding(q), now + ttl))
    else j
  }

  function DoRewindMark(j: State, q: nat, now: int): State {
    if q in j.rewinders && j.rewinders[q].leased then
      var w := j.rewinders[q];
      var m := Mark(j.marks, w.table);
      if m.version == w.leaseVersion && Earlier(w.target, m.cursor) && HoldsLease(m, Rewinding(q), now) then
        j.(marks := j.marks[w.table := m.(cursor := w.target, version := m.version + 1)],
           history := j.history[w.table :=
             Events(j.history, w.table) + [Rewound(w.boundary, w.epoch, m.cursor, w.target)]])
      else j
    else j
  }

  /** The storage side of a reconciliation: data and manifest exist and nothing was quarantined. */
  function DoInspectOrphan(j: State, key: Key): (k: State)
    ensures SameTables(j, k)
  {
    if key in j.data && key in j.manifests && key !in j.quarantine
    then j.(inspected := j.inspected + {key}) else j
  }

  /** The metadata side of a reconciliation, one transaction. */
  function DoReconcile(j: State, key: Key): State {
    if key in j.inspected && key in j.data && key in j.manifests then
      var f := j.manifests[key];
      if && f.run in j.runs && j.runs[f.run].table == key.table && j.runs[f.run].status.Running?
         && j.runs[f.run].before == f.before && j.runs[f.run].upper == f.upper
         && Mark(j.marks, key.table).cursor == f.before && key !in j.catalog
      then
        Land(j.(runs := SetStatus(j.runs, f.run, Success)), key,
             Entry(f.run, f.before, f.upper, j.data[key].rows, {}))
      else j
    else j
  }

  ghost function Apply(j: State, step: Step): State {
    match step
    case SourceStep(step) => j.(src := S.Apply(j.src, step))
    case ReadWatermark(p, table, batch) => DoReadWatermark(j, p, table, batch)
    case LookUp(p) => DoLookUp(j, p)
    case ReuseBatch(p, sameSchema) => DoReuseBatch(j, p, sameSchema)
    case CheckSource(p, token, now) => DoCheckSource(j, p, token, now)
    case LeaseForIngest(p, now, ttl) => DoLeaseForIngest(j, p, now, ttl)
    case RenewLease(holder, table, version, now, ttl) => DoRenewLease(j, holder, table, version, now, ttl)
    case ReleaseLease(holder, table) => DoReleaseLease(j, holder, table)
    case OpenSnapshot(p) => DoOpenSnapshot(j, p)
    case Register(p) => DoRegister(j, p)
    case FinishNoData(p) => DoFinishNoData(j, p)
    case Extract(p, valid, rejected) => DoExtract(j, p, valid, rejected)
    case Verify(p, now) => DoVerify(j, p, now)
    case StoreQuarantine(p) => DoStoreQuarantine(j, p)
    case StoreData(p) => DoStoreData(j, p)
    case StoreManifest(p) => DoStoreManifest(j, p)
    case Recheck(p, now) => DoRecheck(j, p, now)
    case CommitRun(p, now) => DoCommitRun(j, p, now)
    case FailRun(p) => DoFailRun(j, p)
    case CrashRun(p) => DoCrashRun(j, p)
    case ResolveRewind(q, table, boundary) => DoResolveRewind(j, q, table, boundary)
    case LeaseForRewind(q, now, ttl) => DoLeaseForRewind(j, q, now, ttl)
    case RewindMark(q, now) => DoRewindMark(j, q, now)
    case InspectOrphan(key) => DoInspectOrphan(j, key)
    case Reconcile(key) => DoReconcile(j, key)
  }

  ghost function Execute(j: State, steps: seq<Step>): State
    decreases |steps|
  {
    if steps == [] then j else Execute(Apply(j, steps[0]), steps[1..])
  }
}
