/**
 What the joint system guarantees over whole runs.

 Each theorem speaks about the state after an arbitrary sequence of steps from the seeded
 source with empty control tables: any interleaving of generator runs, ingestion attempts,
 lease takeovers, retries, crashes, rewinds and reconciliations.
 */
module BronzeGuarantees {
  import opened Cursors
  import opened Extraction
  import opened SourceLease
  import opened BronzeSystem
  import opened BronzeSafety
  import S = SourceSystem
  import V = Validation

  lemma Reachable(j: State, steps: seq<Step>)
    requires IsInitial(j)
    ensures Inv(Execute(j, steps))
  {
    hide Inv, Execute;
    InitialHasInv(j);
    ExecuteInv(j, steps);
  }

  /**
   No silent loss: every row now in a source table whose cursor is at or below the watermark
   of the table is, in its current version, among the valid or the rejected rows of some
   committed object of that table.
   */
  lemma NoSilentLoss(j: State, steps: seq<Step>, t: Table, r: Record)
    requires IsInitial(j)
    requires r in Now(Execute(j, steps).src.sources, t)
    requires UpTo(r.cursor, Mark(Execute(j, steps).marks, t).cursor)
    ensures var catalog := Execute(j, steps).catalog;
      exists key :: key in catalog && key.table == t && r in catalog[key].valid + catalog[key].rejected
  {
    hide Execute, VersionsOk, TenuresOk, EpochsAgree, SnapshotsOk, UploadsOk, CatalogOk, StorageOk, HistoryOk,
         RewindsOk, WithinReach, S.Inv, Now, Mark, UpTo;
    Reachable(j, steps);
    assert Landed(Execute(j, steps).catalog, t, r);
  }

  lemma EntryAttempt(j: State, key: Key)
    requires Inv(j) && key in j.catalog
    ensures EntryOk(key, j.catalog[key], j.ingests)
  {
    hide VersionsOk, TenuresOk, EpochsAgree, SnapshotsOk, UploadsOk, StorageOk, HistoryOk,
         RewindsOk, WithinReach, NothingLost, S.Inv, EntryOk;
  }

  /** The source state an entry was read from. */
  function EpochOf(j: State, key: Key): nat
    requires key in j.catalog
  {
    var run := j.catalog[key].run;
    if run in j.ingests then j.ingests[run].epoch else 0
  }

  function TokenOf(j: State, key: Key): Token
    requires key in j.catalog
  {
    var run := j.catalog[key].run;
    if run in j.ingests then j.ingests[run].token else Token(Owner(Warehouse, 0), 0)
  }

  /** An entry is the whole range `(before, upper]` of one source state, split in two. */
  ghost predicate IsImage(entry: Entry, rows: set<Record>) {
    && Earlier(entry.before, entry.upper)
    && entry.valid !! entry.rejected
    && entry.valid + entry.rejected == InRange(rows, entry.before, entry.upper)
    && entry.valid + entry.rejected == Beyond(rows, entry.before)
    && RejectRateAccepted(|entry.valid|, |entry.rejected|)
  }

  lemma SnapshotImage(x: Ingest, sources: seq<S.Source>, history: map<Table, seq<Event>>)
    requires SnapshotOk(x, sources, history) && x.Passed(Verified)
    ensures x.epoch < |sources|
    ensures IsImage(Entry(0, x.seen, x.upper, x.valid, x.rejected), RowsAt(sources, x.epoch, x.table))
  {
    var rows := RowsAt(sources, x.epoch, x.table);
    hide Keyed, FetchUpperBound, Beyond, InRange, Events, SeenOk, AfterRewind, RejectRateAccepted, RowsAt,
         Less, Earlier;
    UpperBoundClosesRange(rows, x.seen);
    RangeMovesForward(rows, x.seen, x.upper);
  }

  lemma SameImage(a: Entry, b: Entry, rows: set<Record>)
    requires IsImage(a, rows) && b == a.(run := b.run)
    ensures IsImage(b, rows)
  {
    hide InRange, Beyond, Earlier, RejectRateAccepted;
  }

  /**
   A committed object holds exactly the rows after its lower bound of one source state, valid
   and rejected rows apart, with at most one row in twenty rejected.
   */
  lemma CommittedObjectIsImage(j: State, steps: seq<Step>, key: Key)
    requires IsInitial(j) && key in Execute(j, steps).catalog
    ensures var e := Execute(j, steps);
      && EpochOf(e, key) < |e.src.sources|
      && IsImage(e.catalog[key], RowsAt(e.src.sources, EpochOf(e, key), key.table))
  {
    hide Execute, Inv, VersionOk, TenureOk, UploadOk, EpochsAgree, SnapshotOk, IsImage, RowsAt;
    var e := Execute(j, steps);
    Reachable(j, steps);
    EntryAttempt(e, key);
    var x := e.ingests[e.catalog[key].run];
    IngestFacts(e, e.catalog[key].run);
    SnapshotImage(x, e.src.sources, e.history);
    SameImage(Entry(0, x.seen, x.upper, x.valid, x.rejected), e.catalog[key],
              RowsAt(e.src.sources, x.epoch, key.table));
  }

  /** The objects of an entry are in storage and are what the entry says. */
  ghost predicate InStorage(j: State, key: Key)
    requires key in j.catalog
  {
    var e := j.catalog[key];
    && key in j.data && j.data[key] == DataObject(e.run, e.valid)
    && key in j.manifests && j.manifests[key] == Manifest(e.run, e.before, e.upper)
    && (e.rejected != {} ==> key in j.quarantine && j.quarantine[key] == DataObject(e.run, e.rejected))
  }

  lemma EntryInStorage(j: State, key: Key)
    requires Inv(j) && key in j.catalog
    ensures InStorage(j, key)
  {
    hide Inv, VersionOk, TenureOk, SnapshotOk, EpochsAgree;
    EntryAttempt(j, key);
    IngestFacts(j, j.catalog[key].run);
  }

  /** What the catalog lists is in storage, object for object, in every run. */
  lemma CommittedObjectIsStored(j: State, steps: seq<Step>, key: Key)
    requires IsInitial(j) && key in Execute(j, steps).catalog
    ensures InStorage(Execute(j, steps), key)
  {
    hide Execute, Inv, InStorage;
    Reachable(j, steps);
    EntryInStorage(Execute(j, steps), key);
  }

  /**
   The artifacts that validation writes for an attempt's snapshot are what its `Extract` step
   records, and the reject-rate gate on their counts is the gate of its second check.
   */
  lemma ValidatedSnapshotIsExtracted(j: State, p: nat, a: V.Artifacts)
    requires AtStage(j, p, Registered) && j.ingests[p].upper.At?
    requires var x := j.ingests[p];
      V.SplitsRange(a, RowsAt(j.src.sources, x.epoch, x.table), x.seen, x.upper)
    ensures var valid, rejected := Elements(a.valid), Elements(V.Records(a.rejected));
      && AtStage(DoExtract(j, p, valid, rejected), p, Extracted)
      && (RejectRateAccepted(|valid|, |rejected|) <==> V.AssertRejectRate(a.extracted, a.rejectedCount).Accepted?)
  {
    hide InRange, RowsAt, Elements;
    V.RejectRateMeans(a.extracted, a.rejectedCount);
  }

  /**
   The lease checks after the snapshot hold the source still: an attempt gets past either of
   them only if no source transaction has committed since its first check, so that the newest
   source state is the one it checked and the one it read.
   */
  lemma LaterChecksSeeNoCommit(j: State, steps: seq<Step>, p: nat, now: int)
    requires IsInitial(j)
    ensures var e := Execute(j, steps);
      DoVerify(e, p, now) != e || DoRecheck(e, p, now) != e ==>
        p in e.ingests && e.ingests[p].checkEpoch == e.ingests[p].epoch == |e.src.sources| - 1
  {
    hide Execute, Inv, VersionOk, UploadOk, SnapshotOk, EpochsAgree, HoldsLease, RejectRateAccepted, Mark;
    var e := Execute(j, steps);
    Reachable(j, steps);
    if p in e.ingests {
      IngestFacts(e, p);
    }
  }

  /**
   One lease tenure, one source state: an attempt that passed the check after its snapshot read
   the state its first check saw, and all such attempts under one warehouse token, committed or
   not, read the same state.
   */
  lemma OneTenureOneSource(j: State, steps: seq<Step>, p: nat, q: nat)
    requires IsInitial(j) && p in Execute(j, steps).ingests && q in Execute(j, steps).ingests
    requires Execute(j, steps).ingests[p].Passed(Verified) && Execute(j, steps).ingests[q].Passed(Verified)
    ensures var e := Execute(j, steps); var x, y := e.ingests[p], e.ingests[q];
      && x.epoch == x.checkEpoch < |e.src.sources|
      && (x.token == y.token ==> x.epoch == y.epoch)
  {
    hide Execute, Inv, VersionOk, UploadOk, SnapshotOk;
    Reachable(j, steps);
    IngestFacts(Execute(j, steps), p);
  }

  /** All objects committed under one warehouse token are images of the same source state. */
  lemma ObjectsOfOneTenure(j: State, steps: seq<Step>, a: Key, b: Key)
    requires IsInitial(j) && a in Execute(j, steps).catalog && b in Execute(j, steps).catalog
    ensures var e := Execute(j, steps);
      && e.catalog[a].run in e.ingests
      && e.ingests[e.catalog[a].run].checkEpoch == EpochOf(e, a)
      && (TokenOf(e, a) == TokenOf(e, b) ==> EpochOf(e, a) == EpochOf(e, b))
  {
    hide Execute, Inv;
    var e := Execute(j, steps);
    Reachable(j, steps);
    EntryAttempt(e, a);
    EntryAttempt(e, b);
    OneTenureOneSource(j, steps, e.catalog[a].run, e.catalog[b].run);
  }

  // ---------------------------------------------------------------------------------------
  // Watermarks
  // ---------------------------------------------------------------------------------------

  ghost predicate SameControl(j: State, k: State) {
    SameMarks(j.marks, k.marks) && k.history == j.history && k.catalog == j.catalog
  }

  /** One commit, reconciliation or rewind of one table, recorded in the catalog when it is a commit. */
  ghost predicate OneMove(j: State, k: State, step: Step, t: Table, e: Event) {
    && MovedBy(j.marks, k.marks, j.history, k.history, t, e)
    && IsForward(e)
    && (step.CommitRun? || step.Reconcile? <==> e.Advance?)
    && (e.Rewound? ==> step.RewindMark? && k.catalog == j.catalog)
    && (e.Advance? ==> Key(e.batch, t) !in j.catalog && Key(e.batch, t) in k.catalog
                       && k.catalog == j.catalog[Key(e.batch, t) := k.catalog[Key(e.batch, t)]])
  }

  predicate MovesWatermark(step: Step) {
    step.CommitRun? || step.Reconcile? || step.RewindMark?
  }

  lemma SetLeaseKeeps(j: State, k: State, t: Table, lease: TableLease)
    requires SameTables(j, k)
    ensures SameControl(j, SetLease(k, t, lease))
  {
  }

  lemma SameControlReflexive(j: State)
    ensures SameControl(j, j)
  {
  }

  lemma LeaseForIngestKeeps(j: State, p: nat, now: int, ttl: int)
    ensures SameControl(j, DoLeaseForIngest(j, p, now, ttl))
  {
    hide Leasable, SetLease, SameControl, Mark;
    SameControlReflexive(j);
    if DoLeaseForIngest(j, p, now, ttl) != j {
      var x := j.ingests[p];
      var k := Put(j, p, x.(stage := Leased, leaseVersion := Mark(j.marks, x.table).version));
      SetLeaseKeeps(j, k, x.table, HeldBy(Ingestion(p), now + ttl));
    }
  }

  lemma LeaseForRewindKeeps(j: State, q: nat, now: int, ttl: int)
    ensures SameControl(j, DoLeaseForRewind(j, q, now, ttl))
  {
    hide Leasable, SetLease, SameControl, Mark;
    SameControlReflexive(j);
    if DoLeaseForRewind(j, q, now, ttl) != j {
      var w := j.rewinders[q];
      var k := j.(rewinders := j.rewinders[q := w.(leased := true, leaseVersion := Mark(j.marks, w.table).version)]);
      SetLeaseKeeps(j, k, w.table, HeldBy(Rewinding(q), now + ttl));
    }
  }

  /** Reads, uploads, checks, crashes, failed, empty and skipped runs leave watermark and catalog alone. */
  lemma OtherStepsKeepControl(j: State, step: Step)
    requires !MovesWatermark(step)
    ensures SameControl(j, Apply(j, step))
  {
    hide DoReadWatermark, DoLookUp, DoReuseBatch, DoCheckSource, DoLeaseForIngest, DoOpenSnapshot, DoRegister,
         DoFinishNoData, DoExtract, DoVerify, DoStoreQuarantine, DoStoreData, DoStoreManifest, DoRecheck, DoCommitRun,
         DoFailRun, DoCrashRun, DoResolveRewind, DoLeaseForRewind, DoRewindMark, DoInspectOrphan, DoReconcile,
         S.Apply, Mark, SetLease, HoldsLease;
    match step
    case LeaseForIngest(p, now, ttl) => LeaseForIngestKeeps(j, p, now, ttl);
    case LeaseForRewind(q, now, ttl) => LeaseForRewindKeeps(j, q, now, ttl);
    case RenewLease(holder, t, _, now, ttl) => SetLeaseKeeps(j, j, t, HeldBy(holder, now + ttl));
    case ReleaseLease(_, t) => SetLeaseKeeps(j, j, t, Unheld);
    case _ =>
  }

  lemma LandMoves(j: State, key: Key, entry: Entry)
    requires Inv(j) && EntryOk(key, entry, j.ingests) && Mark(j.marks, key.table).cursor == entry.before
    ensures var k, e := Land(j, key, entry), Advance(key.batch, entry.before, entry.upper);
      MovedBy(j.marks, k.marks, j.history, k.history, key.table, e) && IsForward(e)
      && k.catalog == j.catalog[key := entry]
  {
    hide Inv, Land, Mark, EntryOk, Covers, MovedBy, IsForward, RowsAt;
    LandIsMove(j, key, entry);
    EntryReaches(j, key, entry);
    CoversForward(RowsAt(j.src.sources, j.ingests[entry.run].epoch, key.table), key, entry);
  }

  lemma CommitMoves(j: State, p: nat, now: int)
    requires Inv(j) && DoCommitRun(j, p, now) != j
    ensures exists t, e :: OneMove(j, DoCommitRun(j, p, now), CommitRun(p, now), t, e)
  {
    hide Inv, DoCommitRun, Mark, Land, SetStatus, MovedBy, IsForward;
    CommitIsLand(j, p, now);
    var x := j.ingests[p];
    CatalogKeyNeverRefuses(j, p);
    FinishKeeps(j, p);
    var finished := Put(j, p, x.(stage := Finished, closed := true)).(runs := SetStatus(j.runs, p, Success));
    IgnoresRuns(Put(j, p, x.(stage := Finished, closed := true)), finished.runs);
    var entry := Entry(p, x.seen, x.upper, x.valid, x.rejected);
    LandMoves(finished, x.BatchKey(), entry);
    assert OneMove(j, DoCommitRun(j, p, now), CommitRun(p, now), x.table, Advance(x.batch, x.seen, x.upper));
  }

  lemma ReconcileMoves(j: State, key: Key)
    requires Inv(j) && DoReconcile(j, key) != j
    ensures exists t, e :: OneMove(j, DoReconcile(j, key), Reconcile(key), t, e)
  {
    hide Inv, Land, EntryOk, Mark, SetStatus, MovedBy, IsForward;
    var f := j.manifests[key];
    OrphanEntry(j, key);
    var settled := j.(runs := SetStatus(j.runs, f.run, Success));
    IgnoresRuns(j, settled.runs);
    LandMoves(settled, key, Entry(f.run, f.before, f.upper, j.data[key].rows, {}));
    assert OneMove(j, DoReconcile(j, key), Reconcile(key), key.table, Advance(key.batch, f.before, f.upper));
  }

  lemma RewindMoves(j: State, q: nat, now: int)
    requires DoRewindMark(j, q, now) != j
    ensures exists t, e :: OneMove(j, DoRewindMark(j, q, now), RewindMark(q, now), t, e)
  {
    NotRewinding(j, q, now);
    RewoundIsMove(j, q, now);
    hide MovedBy, IsForward, DoRewindMark, Mark;
    var w := j.rewinders[q];
    assert OneMove(j, DoRewindMark(j, q, now), RewindMark(q, now), w.table,
                   Rewound(w.boundary, w.epoch, Mark(j.marks, w.table).cursor, w.target));
  }

  /**
   A step either leaves watermarks and catalog as they are, or moves exactly one watermark
   from its current position, raises its version by one, and, when it is a commit or a
   reconciliation, adds exactly one catalog entry under a key that had none.
   */
  lemma EachStepMovesAtMostOnce(j: State, step: Step)
    requires Inv(j)
    ensures SameControl(j, Apply(j, step)) || exists t, e :: OneMove(j, Apply(j, step), step, t, e)
  {
    hide Inv, OneMove, SameControl, DoCommitRun, DoReconcile, DoRewindMark;
    if !MovesWatermark(step) {
      OtherStepsKeepControl(j, step);
    } else {
      SameControlReflexive(j);
      match step
      case CommitRun(p, now) =>
        if DoCommitRun(j, p, now) != j {
          CommitMoves(j, p, now);
        }
      case Reconcile(key) =>
        if DoReconcile(j, key) != j {
          ReconcileMoves(j, key);
        }
      case RewindMark(q, now) =>
        if DoRewindMark(j, q, now) != j {
          RewindMoves(j, q, now);
        }
      case _ => assert false;
    }
  }

  /**
   The watermark of a table is the end of an unbroken chain of events from the initial
   position; its version counts them; commits move it forward and rewinds backward.
   */
  lemma WatermarkHistory(j: State, steps: seq<Step>, t: Table)
    requires IsInitial(j)
    ensures var e := Execute(j, steps); ChainOk(Mark(e.marks, t), Events(e.history, t))
  {
    hide Execute, Inv, ChainOk, AdvancesOk, Reached, Now, Mark, Events;
    Reachable(j, steps);
    TableFacts(Execute(j, steps), t);
  }

  predicate InsideOf(c: Cursor, e: Event) {
    After(c, e.from) && UpTo(c, e.to)
  }

  lemma ChainLink(m: Watermark, events: seq<Event>, k: nat)
    requires ChainOk(m, events) && 0 < k < |events|
    ensures events[k].from == events[k - 1].to && IsForward(events[k])
  {
    hide IsForward;
  }

  /** What lies below the end of one advance lies below the ends of the advances after it. */
  lemma {:induction false} LaterAdvancesCover(m: Watermark, events: seq<Event>, i: nat, k: nat, c: Cursor)
    requires ChainOk(m, events) && i <= k < |events| && UpTo(c, events[i].to)
    requires forall n :: i < n <= k ==> events[n].Advance?
    ensures UpTo(c, events[k].to)
    decreases k
  {
    hide UpTo, ChainOk;
    if i == k {
    } else {
      LaterAdvancesCover(m, events, i, k - 1, c);
      ChainLink(m, events, k);
      UpToMonotone(c, events[k].from, events[k].to);
    }
  }

  lemma {:induction false} TileExists(m: Watermark, events: seq<Event>, i: nat, k: nat, c: Cursor)
    requires ChainOk(m, events) && i <= k < |events|
    requires After(c, events[i].from) && UpTo(c, events[k].to)
    ensures exists n :: i <= n <= k && InsideOf(c, events[n])
    decreases k
  {
    hide UpTo, After, IsForward, ChainOk;
    if After(c, events[k].from) {
      assert InsideOf(c, events[k]);
    } else {
      UpToIsNotAfter(c, events[k].from);
      assert i < k;
      ChainLink(m, events, k);
      TileExists(m, events, i, k - 1, c);
      var n :| i <= n <= k - 1 && InsideOf(c, events[n]);
      assert i <= n <= k && InsideOf(c, events[n]);
    }
  }

  lemma TilesDisjoint(m: Watermark, events: seq<Event>, n: nat, o: nat, c: Cursor)
    requires ChainOk(m, events) && n < o < |events| && InsideOf(c, events[n])
    requires forall i :: n < i < o ==> events[i].Advance?
    ensures !InsideOf(c, events[o])
  {
    hide UpTo, After, ChainOk;
    LaterAdvancesCover(m, events, n, o - 1, c);
    ChainLink(m, events, o);
    UpToIsNotAfter(c, events[o].from);
  }

  /**
   Between rewinds the committed ranges tile the cursor line: every cursor after the first
   lower bound and up to the last upper bound lies in exactly one of them.
   */
  lemma AdvancesTile(m: Watermark, events: seq<Event>, i: nat, k: nat, c: Cursor)
    requires ChainOk(m, events) && i <= k < |events|
    requires forall n :: i <= n <= k ==> events[n].Advance?
    requires After(c, events[i].from) && UpTo(c, events[k].to)
    ensures exists n :: i <= n <= k && InsideOf(c, events[n])
    ensures forall n, o :: i <= n < o <= k && InsideOf(c, events[n]) ==> !InsideOf(c, events[o])
  {
    hide UpTo, After, ChainOk, InsideOf;
    TileExists(m, events, i, k, c);
    forall n, o | i <= n < o <= k && InsideOf(c, events[n]) ensures !InsideOf(c, events[o]) {
      TilesDisjoint(m, events, n, o, c);
    }
  }

  /**
   At most one commit per table batch: two commits of one table never carry the same batch,
   and the commits of a table are its catalog entries, bound for bound.
   */
  lemma AtMostOneCommitPerBatch(j: State, steps: seq<Step>, t: Table)
    requires IsInitial(j)
    ensures var e := Execute(j, steps); var events := Events(e.history, t);
      && (forall i, k :: 0 <= i < k < |events| && events[i].Advance? && events[k].Advance? ==>
            events[i].batch != events[k].batch)
      && (forall i :: 0 <= i < |events| && events[i].Advance? ==> InCatalog(e.catalog, t, events[i]))
      && (forall key :: key in e.catalog && key.table == t ==>
            Advance(key.batch, e.catalog[key].before, e.catalog[key].upper) in events)
  {
    hide Execute, Inv, ChainOk, Reached, Now, Mark, Events, InCatalog;
    Reachable(j, steps);
    TableFacts(Execute(j, steps), t);
  }

  // ---------------------------------------------------------------------------------------
  // Rewinds
  // ---------------------------------------------------------------------------------------

  /** What the first range after a rewind to a boundary is meant to hold. */
  function FromBoundary(rows: set<Record>, boundary: int): set<Record> {
    set r | r in rows && boundary <= r.cursor.ts
  }

  /** No row after the target is stamped before the boundary. */
  ghost predicate NoneBetween(rows: set<Record>, target: Position, boundary: int) {
    forall r :: r in rows && After(r.cursor, target) ==> boundary <= r.cursor.ts
  }

  /** The rows are what a rewind to the boundary is meant to bring back, and no others. */
  ghost predicate IsExact(rows: set<Record>, snapshot: set<Record>, boundary: int) {
    rows == FromBoundary(snapshot, boundary)
  }

  lemma BeyondTarget(rows: set<Record>, resolved: set<Record>, boundary: int)
    requires Keyed(resolved)
    ensures var target := CursorBefore(resolved, boundary);
      IsExact(Beyond(rows, target), rows, boundary) <==> NoneBetween(rows, target, boundary)
  {
    hide Keyed, CursorBefore;
    var target := CursorBefore(resolved, boundary);
    CursorBeforeSplits(resolved, boundary);
    forall r | r in rows && boundary <= r.cursor.ts ensures After(r.cursor, target) {
    }
    if IsExact(Beyond(rows, target), rows, boundary) {
      forall r | r in rows && After(r.cursor, target) ensures boundary <= r.cursor.ts {
        assert r in Beyond(rows, target);
      }
    }
  }

  /** Nothing lies between on the state the target was resolved on, nor later if the boundary was covered. */
  lemma CoveredLeavesNone(resolved: set<Record>, snapshot: set<Record>, boundary: int)
    requires Keyed(resolved) && Keyed(snapshot) && Evolved(resolved, snapshot)
    requires snapshot == resolved || BoundaryCovered(resolved, boundary)
    ensures NoneBetween(snapshot, CursorBefore(resolved, boundary), boundary)
  {
    hide Keyed, Evolved, BoundaryCovered, CursorBefore, After;
    CursorBeforeSplits(resolved, boundary);
    RewindExactness(resolved, boundary);
  }

  lemma RewoundTarget(j: State, t: Table, i: nat)
    requires Inv(j) && i < |Events(j.history, t)| && Events(j.history, t)[i].Rewound?
    ensures var e := Events(j.history, t)[i];
      && e.epoch < |j.src.sources| && Keyed(RowsAt(j.src.sources, e.epoch, t))
      && e.to == CursorBefore(RowsAt(j.src.sources, e.epoch, t), e.boundary)
  {
    hide VersionsOk, TenuresOk, EpochsAgree, SnapshotsOk, UploadsOk, CatalogOk, StorageOk, HistoryOk,
         WithinReach, NothingLost, S.Inv, Events, RowsAt, Keyed, CursorBefore;
  }

  lemma EpochsEvolve(j: State, i: nat, k: nat, t: Table)
    requires Inv(j) && i <= k < |j.src.sources|
    ensures Evolved(RowsAt(j.src.sources, i, t), RowsAt(j.src.sources, k, t))
  {
    hide VersionsOk, TenuresOk, EpochsAgree, SnapshotsOk, UploadsOk, CatalogOk, StorageOk, HistoryOk,
         RewindsOk, WithinReach, NothingLost, Evolved, S.LeaseOk, S.GensOk, S.MarkersOk, S.RunsOk, S.EventsOk,
         S.SourceKeyed, S.SourceEvolved;
    S.EvolvedBetween(j.src.sources, i, k, t);
  }

  lemma AttemptAfterRewind(x: Ingest, sources: seq<S.Source>, history: map<Table, seq<Event>>)
    requires SnapshotOk(x, sources, history) && x.Passed(Opened)
    ensures x.epoch < |sources| && Keyed(RowsAt(sources, x.epoch, x.table))
    ensures x.seenVersion <= |Events(history, x.table)|
    ensures x.seenVersion > 0 && Events(history, x.table)[x.seenVersion - 1].Rewound? ==>
      Events(history, x.table)[x.seenVersion - 1].epoch <= x.epoch
  {
    hide Keyed, FetchUpperBound, InRange, Events, RowsAt, RejectRateAccepted;
  }

  /** A snapshot taken after a rewind of a covered boundary has no row between target and boundary. */
  lemma NoneBetweenLater(j: State, p: nat, i: nat)
    requires Inv(j) && p in j.ingests && j.ingests[p].Passed(Opened)
    requires i < |Events(j.history, j.ingests[p].table)| && Events(j.history, j.ingests[p].table)[i].Rewound?
    ensures var x := j.ingests[p]; var e := Events(j.history, x.table)[i];
      var snapshot, resolved := RowsAt(j.src.sources, x.epoch, x.table), RowsAt(j.src.sources, e.epoch, x.table);
      && (x.epoch >= e.epoch && BoundaryCovered(resolved, e.boundary) ==> NoneBetween(snapshot, e.to, e.boundary))
      && (x.epoch == e.epoch ==> NoneBetween(snapshot, e.to, e.boundary))
  {
    hide Inv, VersionOk, TenureOk, UploadOk, SnapshotOk, EpochsAgree, RowsAt, Keyed, CursorBefore, Evolved,
         BoundaryCovered, Events, NoneBetween;
    var x := j.ingests[p];
    var e := Events(j.history, x.table)[i];
    IngestFacts(j, p);
    AttemptAfterRewind(x, j.src.sources, j.history);
    RewoundTarget(j, x.table, i);
    var snapshot, resolved := RowsAt(j.src.sources, x.epoch, x.table), RowsAt(j.src.sources, e.epoch, x.table);
    if x.epoch == e.epoch || (x.epoch > e.epoch && BoundaryCovered(resolved, e.boundary)) {
      EpochsEvolve(j, e.epoch, x.epoch, x.table);
      CoveredLeavesNone(resolved, snapshot, e.boundary);
    }
  }

  /**
   When a rewound range is exact: an object whose range starts at the target of a rewind to a
   boundary holds exactly the rows of its snapshot stamped at or after the boundary if and only
   if its snapshot has no row between the target and the boundary.  That is so when the snapshot
   is the state the rewind looked at, and when it is a later one and the rewind saw a row no
   earlier than one microsecond before the boundary.
   */
  lemma RewoundRangeIsExact(j: State, steps: seq<Step>, t: Table, i: nat, key: Key)
    requires IsInitial(j) && i < |Events(Execute(j, steps).history, t)|
    requires Events(Execute(j, steps).history, t)[i].Rewound?
    requires key in Execute(j, steps).catalog && key.table == t
    requires Execute(j, steps).catalog[key].before == Events(Execute(j, steps).history, t)[i].to
    ensures var e := Execute(j, steps);
      var rewind, entry := Events(e.history, t)[i], e.catalog[key];
      var snapshot := RowsAt(e.src.sources, EpochOf(e, key), t);
      var resolved := RowsAt(e.src.sources, rewind.epoch, t);
      var exact := IsExact(entry.valid + entry.rejected, snapshot, rewind.boundary);
      var none := NoneBetween(snapshot, rewind.to, rewind.boundary);
      && (exact <==> none)
      && (EpochOf(e, key) == rewind.epoch ==> none)
      && (EpochOf(e, key) >= rewind.epoch && BoundaryCovered(resolved, rewind.boundary) ==> none)
  {
    hide Inv, Execute, RowsAt, Keyed, CursorBefore, BoundaryCovered, Events, NoneBetween, IsExact, RejectRateAccepted,
         InRange, Beyond, Earlier;
    var e := Execute(j, steps);
    var rewind := Events(e.history, t)[i];
    Reachable(j, steps);
    CommittedObjectIsImage(j, steps, key);
    EntryAttempt(e, key);
    NoneBetweenLater(e, e.catalog[key].run, i);
    RewoundTarget(e, t, i);
    BeyondTarget(RowsAt(e.src.sources, EpochOf(e, key), t), RowsAt(e.src.sources, rewind.epoch, t), rewind.boundary);
  }

  lemma AdvanceIsCataloged(j: State, t: Table, i: nat)
    requires Inv(j) && i < |Events(j.history, t)| && Events(j.history, t)[i].Advance?
    ensures InCatalog(j.catalog, t, Events(j.history, t)[i])
    ensures i > 0 ==> Events(j.history, t)[i].from == Events(j.history, t)[i - 1].to
  {
    hide Inv, ChainOk, Reached, Now, Mark, Events, InCatalog;
    TableFacts(j, t);
    if i > 0 {
      ChainLink(Mark(j.marks, t), Events(j.history, t), i);
    }
  }

  /**
   The range committed right after a rewind, by an attempt or by a reconciliation: it is in the
   catalog, starts at the rewind's target, and `RewoundRangeIsExact` says when it is exact.
   */
  lemma FirstRangeAfterRewind(j: State, steps: seq<Step>, t: Table, i: nat)
    requires IsInitial(j) && i + 1 < |Events(Execute(j, steps).history, t)|
    requires var events := Events(Execute(j, steps).history, t); events[i].Rewound? && events[i + 1].Advance?
    ensures var e := Execute(j, steps);
      var rewind, key := Events(e.history, t)[i], Key(Events(e.history, t)[i + 1].batch, t);
      && key in e.catalog
      && var snapshot, resolved := RowsAt(e.src.sources, EpochOf(e, key), t), RowsAt(e.src.sources, rewind.epoch, t);
      var exact := IsExact(e.catalog[key].valid + e.catalog[key].rejected, snapshot, rewind.boundary);
      var none := NoneBetween(snapshot, rewind.to, rewind.boundary);
      && (exact <==> none)
      && (EpochOf(e, key) == rewind.epoch ==> none)
      && (EpochOf(e, key) >= rewind.epoch && BoundaryCovered(resolved, rewind.boundary) ==> none)
  {
    hide Inv, Execute, RowsAt, BoundaryCovered, Events, NoneBetween, IsExact;
    var e := Execute(j, steps);
    Reachable(j, steps);
    AdvanceIsCataloged(e, t, i + 1);
    RewoundRangeIsExact(j, steps, t, i, Key(Events(e.history, t)[i + 1].batch, t));
  }

  /** The last event of a table, when it is a rewind. */
  ghost predicate JustRewound(j: State, t: Table) {
    Events(j.history, t) != [] && Events(j.history, t)[|Events(j.history, t)| - 1].Rewound?
  }

  function LastRewind(j: State, t: Table): Event
    requires JustRewound(j, t)
  {
    Events(j.history, t)[|Events(j.history, t)| - 1]
  }

  /** Every row is stamped at or after the boundary. */
  ghost predicate AllFrom(rows: set<Record>, boundary: int) {
    forall r :: r in rows ==> boundary <= r.cursor.ts
  }

  lemma BeyondFromBoundary(snapshot: set<Record>, target: Position, boundary: int)
    ensures AllFrom(Beyond(snapshot, target), boundary) <==> NoneBetween(snapshot, target, boundary)
  {
    hide After;
    if AllFrom(Beyond(snapshot, target), boundary) {
      forall r | r in snapshot && After(r.cursor, target) ensures boundary <= r.cursor.ts {
        assert r in Beyond(snapshot, target);
      }
    }
  }

  /** What an attempt extracted from the target of the last rewind is exact just when no row of it is too early. */
  lemma ExtractedAfterRewind(j: State, p: nat, t: Table)
    requires Inv(j) && JustRewound(j, t) && p in j.ingests && j.ingests[p].table == t
    requires j.ingests[p].Passed(Verified) && j.ingests[p].seen == LastRewind(j, t).to
    ensures var x, boundary := j.ingests[p], LastRewind(j, t).boundary;
      var exact := IsExact(x.valid + x.rejected, RowsAt(j.src.sources, x.epoch, t), boundary);
      exact <==> AllFrom(x.valid + x.rejected, boundary)
  {
    hide Inv, VersionOk, TenureOk, UploadOk, SnapshotOk, EpochsAgree, RowsAt, Keyed, CursorBefore, Events, NoneBetween,
         AllFrom, RejectRateAccepted, InRange, Beyond, Earlier, IsExact;
    var x := j.ingests[p];
    IngestFacts(j, p);
    SnapshotImage(x, j.src.sources, j.history);
    RewoundTarget(j, t, |Events(j.history, t)| - 1);
    var snapshot := RowsAt(j.src.sources, x.epoch, t);
    var rewind := LastRewind(j, t);
    BeyondTarget(snapshot, RowsAt(j.src.sources, rewind.epoch, t), rewind.boundary);
    BeyondFromBoundary(snapshot, rewind.to, rewind.boundary);
  }

  lemma ImageIsBeyond(entry: Entry, rows: set<Record>)
    requires IsImage(entry, rows)
    ensures entry.valid + entry.rejected == Beyond(rows, entry.before)
  {
    hide Beyond, InRange, Earlier, RejectRateAccepted;
  }

  lemma ChainStandsAtEnd(m: Watermark, events: seq<Event>)
    requires ChainOk(m, events) && events != []
    ensures m.version == |events| && m.cursor == events[|events| - 1].to
  {
    hide IsForward;
  }

  /** Whoever commits right after a rewind read the watermark after it and its snapshot later still. */
  lemma CommitterReadRewind(j: State, p: nat, now: int)
    requires Inv(j) && DoCommitRun(j, p, now) != j && JustRewound(j, j.ingests[p].table)
    ensures p in j.ingests
    ensures var x := j.ingests[p]; var rewind := LastRewind(j, x.table);
      && x.Passed(Verified) && x.seenVersion == |Events(j.history, x.table)| && x.seen == rewind.to
      && rewind.epoch <= x.epoch < |j.src.sources|
  {
    hide Inv, VersionOk, TenureOk, UploadOk, SnapshotOk, EpochsAgree, RowsAt, Keyed, Events, DoCommitRun, Land, Mark,
         SetStatus, AdvancesOk, Reached, Now, ChainOk;
    CommitIsLand(j, p, now);
    var x := j.ingests[p];
    TableFacts(j, x.table);
    ChainStandsAtEnd(Mark(j.marks, x.table), Events(j.history, x.table));
    IngestFacts(j, p);
    AttemptAfterRewind(x, j.src.sources, j.history);
  }

  /**
   The first commit after a rewind: its attempt read the watermark after the rewind and its
   snapshot is no older than the rewind's, so its range is exact whenever the boundary was
   covered, and otherwise just when the attempt extracted no row stamped before the boundary.
   */
  lemma CommitAfterRewind(j: State, p: nat, now: int)
    requires Inv(j) && DoCommitRun(j, p, now) != j && JustRewound(j, j.ingests[p].table)
    ensures var x := j.ingests[p]; var rewind := LastRewind(j, x.table);
      var resolved := RowsAt(j.src.sources, rewind.epoch, x.table);
      var exact := IsExact(x.valid + x.rejected, RowsAt(j.src.sources, x.epoch, x.table), rewind.boundary);
      && x.seenVersion == |Events(j.history, x.table)| && rewind.epoch <= x.epoch < |j.src.sources|
      && (exact <==> AllFrom(x.valid + x.rejected, rewind.boundary))
      && (BoundaryCovered(resolved, rewind.boundary) ==> exact)
  {
    hide Inv, SnapshotOk, TenureOk, VersionOk, UploadOk, EpochsAgree, RowsAt, Events, NoneBetween, AllFrom, IsExact,
         BoundaryCovered, DoCommitRun, IsImage, Beyond;
    CommitterReadRewind(j, p, now);
    var x := j.ingests[p];
    IngestFacts(j, p);
    ExtractedAfterRewind(j, p, x.table);
    NoneBetweenLater(j, p, |Events(j.history, x.table)| - 1);
    SnapshotImage(x, j.src.sources, j.history);
    ImageIsBeyond(Entry(0, x.seen, x.upper, x.valid, x.rejected), RowsAt(j.src.sources, x.epoch, x.table));
    BeyondFromBoundary(RowsAt(j.src.sources, x.epoch, x.table), x.seen, LastRewind(j, x.table).boundary);
  }

  /** What a reconciliation lands right after a rewind is an extraction from the rewind's target. */
  lemma OrphanFromTarget(j: State, key: Key)
    requires Inv(j) && DoReconcile(j, key) != j && JustRewound(j, key.table)
    ensures key in j.data && key in j.manifests && j.manifests[key].run in j.ingests
    ensures var x := j.ingests[j.manifests[key].run];
      && x.table == key.table && x.Passed(Verified) && x.seen == LastRewind(j, key.table).to
      && x.valid + x.rejected == j.data[key].rows
  {
    hide Inv, Events, Land, SetStatus, AdvancesOk, Reached, Now, Mark, ChainOk;
    OrphanEntry(j, key);
    TableFacts(j, key.table);
    ChainStandsAtEnd(Mark(j.marks, key.table), Events(j.history, key.table));
  }

  /**
   The stored object holds exactly the rows of its attempt's snapshot at or after the boundary of the
   last rewind if and only if none of its own rows is stamped before it.
   */
  ghost predicate ExactWhenFrom(j: State, key: Key) {
    && key in j.data && key in j.manifests && j.manifests[key].run in j.ingests && JustRewound(j, key.table)
    && var snapshot := RowsAt(j.src.sources, j.ingests[j.manifests[key].run].epoch, key.table);
    var rows, boundary := j.data[key].rows, LastRewind(j, key.table).boundary;
    (IsExact(rows, snapshot, boundary) <==> AllFrom(rows, boundary))
  }

  /**
   A reconciliation right after a rewind compares cursors only, so its orphan may be older than
   the rewind.  Its range is exact just when no row of the stored object is stamped before the
   boundary, which the operator can read off the object beforehand.
   */
  lemma ReconcileAfterRewind(j: State, key: Key)
    requires Inv(j) && DoReconcile(j, key) != j && JustRewound(j, key.table)
    ensures ExactWhenFrom(j, key)
  {
    hide Inv, RowsAt, Events, AllFrom, IsExact, DoReconcile;
    OrphanFromTarget(j, key);
    ExtractedAfterRewind(j, j.manifests[key].run, key.table);
  }
}
