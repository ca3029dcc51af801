/**
 Safety of the joint system: nothing at or below a watermark is lost.

 The invariant is a conjunction of predicates on the components they speak about, so that a
 step only has to be examined for the predicates whose components it changes.
 */
module BronzeSafety {
  import opened Cursors
  import opened Extraction
  import opened SourceLease
  import opened BronzeSystem
  import S = SourceSystem

  // ---------------------------------------------------------------------------------------
  // The invariant, component by component
  // ---------------------------------------------------------------------------------------

  /** A watermark version identifies a cursor, and later versions witness every later commit. */
  ghost predicate VersionOk(x: Ingest, marks: map<Table, Watermark>, catalog: map<Key, Entry>) {
    var m := Mark(marks, x.table);
    && x.seenVersion <= m.version
    && (x.seenVersion == m.version ==> x.seen == m.cursor)
    && (x.Passed(Clear) && x.seenVersion == m.version ==> x.BatchKey() !in catalog)
  }

  ghost predicate VersionsOk(ingests: map<nat, Ingest>, marks: map<Table, Watermark>, catalog: map<Key, Entry>) {
    forall p :: p in ingests ==> VersionOk(ingests[p], marks, catalog)
  }

  /** While a checked warehouse token is in force, the source stands still. */
  ghost predicate TenureOk(x: Ingest, row: Row, issued: set<Token>, sources: seq<S.Source>) {
    && (x.Passed(Checked) ==>
          x.token in issued && x.token.owner.kind.Warehouse? && x.checkEpoch < |sources|)
    && (x.Passed(Checked) && row.version == x.token.version ==> x.checkEpoch == |sources| - 1)
    && (x.Passed(Opened) && row.version == x.token.version ==> x.epoch == |sources| - 1)
    && (x.Passed(Verified) ==> x.epoch == x.checkEpoch)
  }

  ghost predicate TenuresOk(ingests: map<nat, Ingest>, row: Row, issued: set<Token>, sources: seq<S.Source>) {
    forall p :: p in ingests ==> TenureOk(ingests[p], row, issued, sources)
  }

  /** All attempts verified under one token read the same source state. */
  ghost predicate EpochsAgree(ingests: map<nat, Ingest>) {
    forall p, q :: p in ingests && q in ingests
      && ingests[p].Passed(Verified) && ingests[q].Passed(Verified) && ingests[p].token == ingests[q].token
      ==> ingests[p].epoch == ingests[q].epoch
  }

  /** The position a watermark version stands for. */
  function Standing(events: seq<Event>, version: nat): Position
    requires version <= |events|
  {
    if version == 0 then Initial else events[version - 1].to
  }

  /** The watermark an attempt read is the one its version stands for. */
  ghost predicate SeenOk(seen: Position, version: nat, events: seq<Event>) {
    version <= |events| && seen == Standing(events, version)
  }

  /** A snapshot taken from a rewound watermark is no older than the rewind's own reading. */
  ghost predicate AfterRewind(epoch: nat, version: nat, events: seq<Event>) {
    0 < version <= |events| && events[version - 1].Rewound? ==> events[version - 1].epoch <= epoch
  }

  /** What a snapshot fixed and what was read from it. */
  ghost predicate SnapshotOk(x: Ingest, sources: seq<S.Source>, history: map<Table, seq<Event>>) {
    && SeenOk(x.seen, x.seenVersion, Events(history, x.table))
    && (x.Passed(Opened) ==>
          && x.epoch < |sources|
          && Keyed(RowsAt(sources, x.epoch, x.table))
          && x.upper == FetchUpperBound(RowsAt(sources, x.epoch, x.table), x.seen)
          && AfterRewind(x.epoch, x.seenVersion, Events(history, x.table)))
    && (x.Passed(Extracted) ==>
          && x.upper.At? && x.valid !! x.rejected
          && x.valid + x.rejected == InRange(RowsAt(sources, x.epoch, x.table), x.seen, x.upper))
    && (x.Passed(Verified) ==> RejectRateAccepted(|x.valid|, |x.rejected|))
  }

  ghost predicate SnapshotsOk(ingests: map<nat, Ingest>, sources: seq<S.Source>, history: map<Table, seq<Event>>) {
    forall p :: p in ingests ==> SnapshotOk(ingests[p], sources, history)
  }

  /** What an attempt has uploaded is in storage under its own batch. */
  ghost predicate UploadOk(p: nat, x: Ingest, data: map<Key, DataObject>, manifests: map<Key, Manifest>,
                           quarantine: map<Key, DataObject>)
  {
    var key := x.BatchKey();
    && (x.Passed(QuarantineStored) && x.rejected != {} ==>
          key in quarantine && quarantine[key] == DataObject(p, x.rejected))
    && (x.Passed(DataStored) ==> key in data && data[key] == DataObject(p, x.valid))
    && (x.Passed(ManifestStored) ==> key in manifests && manifests[key] == Manifest(p, x.seen, x.upper))
  }

  ghost predicate UploadsOk(ingests: map<nat, Ingest>, data: map<Key, DataObject>,
                            manifests: map<Key, Manifest>, quarantine: map<Key, DataObject>)
  {
    forall p :: p in ingests ==> UploadOk(p, ingests[p], data, manifests, quarantine)
  }

  ghost predicate IsAttempt(ingests: map<nat, Ingest>, p: nat, key: Key, s: Stage) {
    p in ingests && ingests[p].BatchKey() == key && ingests[p].Passed(s)
  }

  /** Storage holds nothing that no attempt uploaded; an inspected orphan has no rejects. */
  ghost predicate StorageOk(ingests: map<nat, Ingest>, data: map<Key, DataObject>,
                            manifests: map<Key, Manifest>, inspected: set<Key>)
  {
    && (forall key :: key in data ==> IsAttempt(ingests, data[key].run, key, DataStored))
    && (forall key :: key in manifests ==> IsAttempt(ingests, manifests[key].run, key, ManifestStored))
    && (forall key :: key in inspected ==>
          key in manifests && IsAttempt(ingests, manifests[key].run, key, ManifestStored)
          && ingests[manifests[key].run].rejected == {})
  }

  /** A catalog entry is what its attempt extracted from its snapshot. */
  ghost predicate EntryOk(key: Key, e: Entry, ingests: map<nat, Ingest>) {
    && IsAttempt(ingests, e.run, key, ManifestStored)
    && e.before == ingests[e.run].seen && e.upper == ingests[e.run].upper
    && e.valid == ingests[e.run].valid && e.rejected == ingests[e.run].rejected
  }

  ghost predicate CatalogOk(ingests: map<nat, Ingest>, catalog: map<Key, Entry>) {
    forall key :: key in catalog ==> EntryOk(key, catalog[key], ingests)
  }

  ghost predicate IsForward(e: Event) {
    if e.Advance? then Earlier(e.from, e.to) else Earlier(e.to, e.from)
  }

  /** The events of one table form a chain from the initial position to the watermark. */
  ghost predicate ChainOk(m: Watermark, events: seq<Event>) {
    && m.version == |events|
    && m.cursor == Standing(events, |events|)
    && (forall i :: 0 <= i < |events| ==> events[i].from == Standing(events, i))
    && (forall i :: 0 <= i < |events| ==> IsForward(events[i]))
  }

  ghost predicate InCatalog(catalog: map<Key, Entry>, t: Table, e: Event)
    requires e.Advance?
  {
    && Key(e.batch, t) in catalog
    && catalog[Key(e.batch, t)].before == e.from && catalog[Key(e.batch, t)].upper == e.to
  }

  /** Advances and catalog entries of a table correspond one to one. */
  ghost predicate AdvancesOk(t: Table, events: seq<Event>, catalog: map<Key, Entry>) {
    && (forall i :: 0 <= i < |events| && events[i].Advance? ==> InCatalog(catalog, t, events[i]))
    && (forall i, k :: 0 <= i < k < |events| && events[i].Advance? && events[k].Advance? ==>
          events[i].batch != events[k].batch)
    && (forall key :: key in catalog && key.table == t ==>
          Advance(key.batch, catalog[key].before, catalog[key].upper) in events)
  }

  ghost predicate HistoryOk(marks: map<Table, Watermark>, history: map<Table, seq<Event>>, catalog: map<Key, Entry>) {
    && (forall t :: ChainOk(Mark(marks, t), Events(history, t)))
    && (forall t :: AdvancesOk(t, Events(history, t), catalog))
  }

  ghost predicate TargetOk(t: Table, boundary: int, epoch: nat, target: Position, sources: seq<S.Source>) {
    && epoch < |sources| && Keyed(RowsAt(sources, epoch, t))
    && target == CursorBefore(RowsAt(sources, epoch, t), boundary)
  }

  ghost predicate RewindsOk(history: map<Table, seq<Event>>, rewinders: map<nat, Rewinder>, sources: seq<S.Source>) {
    && (forall q :: q in rewinders ==>
          TargetOk(rewinders[q].table, rewinders[q].boundary, rewinders[q].epoch, rewinders[q].target, sources))
    && (forall t, i :: 0 <= i < |Events(history, t)| && Events(history, t)[i].Rewound? ==>
          TargetOk(t, Events(history, t)[i].boundary, Events(history, t)[i].epoch, Events(history, t)[i].to, sources))
  }

  ghost predicate WithinReach(marks: map<Table, Watermark>, sources: seq<S.Source>) {
    forall t :: Reached(Now(sources, t), Mark(marks, t).cursor)
  }

  ghost predicate Landed(catalog: map<Key, Entry>, t: Table, r: Record) {
    exists key :: key in catalog && key.table == t && r in catalog[key].valid + catalog[key].rejected
  }

  /** Every row now at or below the watermark, in its current version, is in a committed object. */
  ghost predicate NothingLost(marks: map<Table, Watermark>, catalog: map<Key, Entry>, sources: seq<S.Source>) {
    forall t, r :: r in Now(sources, t) && UpTo(r.cursor, Mark(marks, t).cursor) ==> Landed(catalog, t, r)
  }

  ghost predicate Inv(j: State) {
    && S.Inv(j.src)
    && VersionsOk(j.ingests, j.marks, j.catalog)
    && TenuresOk(j.ingests, j.src.row, j.src.issued, j.src.sources)
    && EpochsAgree(j.ingests)
    && SnapshotsOk(j.ingests, j.src.sources, j.history)
    && UploadsOk(j.ingests, j.data, j.manifests, j.quarantine)
    && StorageOk(j.ingests, j.data, j.manifests, j.inspected)
    && CatalogOk(j.ingests, j.catalog)
    && HistoryOk(j.marks, j.history, j.catalog)
    && RewindsOk(j.history, j.rewinders, j.src.sources)
    && WithinReach(j.marks, j.src.sources)
    && NothingLost(j.marks, j.catalog, j.src.sources)
  }

  lemma InitialHasInv(j: State)
    requires IsInitial(j)
    ensures Inv(j)
  {
    S.InitialHasInv(j.src);
  }

  // ---------------------------------------------------------------------------------------
  // Moving one attempt forward
  // ---------------------------------------------------------------------------------------

  /** The attempt kept everything it had fixed and did not move back. */
  ghost predicate Grows(x: Ingest, y: Ingest) {
    && y.table == x.table && y.batch == x.batch && y.seen == x.seen && y.seenVersion == x.seenVersion
    && Rank(x.stage) <= Rank(y.stage)
    && (x.Passed(Checked) ==> y.token == x.token && y.checkEpoch == x.checkEpoch)
    && (x.Passed(Opened) ==> y.epoch == x.epoch && y.upper == x.upper)
    && (x.Passed(Extracted) ==> y.valid == x.valid && y.rejected == x.rejected)
  }

  lemma AttemptGrows(ingests: map<nat, Ingest>, p: nat, y: Ingest, k: nat, key: Key, s: Stage)
    requires p in ingests ==> Grows(ingests[p], y)
    requires IsAttempt(ingests, k, key, s)
    ensures IsAttempt(ingests[p := y], k, key, s)
  {
  }

  lemma CatalogGrows(ingests: map<nat, Ingest>, p: nat, y: Ingest, catalog: map<Key, Entry>)
    requires CatalogOk(ingests, catalog) && (p in ingests ==> Grows(ingests[p], y))
    ensures CatalogOk(ingests[p := y], catalog)
  {
    forall key | key in catalog ensures EntryOk(key, catalog[key], ingests[p := y]) {
      assert EntryOk(key, catalog[key], ingests);
      AttemptGrows(ingests, p, y, catalog[key].run, key, ManifestStored);
    }
  }

  lemma StorageGrows(ingests: map<nat, Ingest>, p: nat, y: Ingest, data: map<Key, DataObject>,
                     manifests: map<Key, Manifest>, inspected: set<Key>)
    requires StorageOk(ingests, data, manifests, inspected) && (p in ingests ==> Grows(ingests[p], y))
    ensures StorageOk(ingests[p := y], data, manifests, inspected)
  {
    forall key | key in data ensures IsAttempt(ingests[p := y], data[key].run, key, DataStored) {
      AttemptGrows(ingests, p, y, data[key].run, key, DataStored);
    }
    forall key | key in manifests ensures IsAttempt(ingests[p := y], manifests[key].run, key, ManifestStored) {
      AttemptGrows(ingests, p, y, manifests[key].run, key, ManifestStored);
    }
  }

  predicate Crosses(x: Ingest, y: Ingest, s: Stage) {
    y.Passed(s) && !x.Passed(s)
  }

  lemma VersionMoves(x: Ingest, y: Ingest, marks: map<Table, Watermark>, catalog: map<Key, Entry>)
    requires VersionOk(x, marks, catalog) && Grows(x, y) && !Crosses(x, y, Clear)
    ensures VersionOk(y, marks, catalog)
  {
    hide Mark;
  }

  lemma TenureMoves(x: Ingest, y: Ingest, row: Row, issued: set<Token>, sources: seq<S.Source>)
    requires TenureOk(x, row, issued, sources) && Grows(x, y)
    requires !Crosses(x, y, Checked) && !Crosses(x, y, Opened) && !Crosses(x, y, Verified)
    ensures TenureOk(y, row, issued, sources)
  {
  }

  lemma SnapshotMoves(x: Ingest, y: Ingest, sources: seq<S.Source>, history: map<Table, seq<Event>>)
    requires SnapshotOk(x, sources, history) && Grows(x, y)
    requires !Crosses(x, y, Opened) && !Crosses(x, y, Extracted) && !Crosses(x, y, Verified)
    ensures SnapshotOk(y, sources, history)
  {
    hide Keyed, FetchUpperBound, InRange, RowsAt, Events, RejectRateAccepted;
  }

  lemma UploadMoves(p: nat, x: Ingest, y: Ingest, data: map<Key, DataObject>, manifests: map<Key, Manifest>,
                    quarantine: map<Key, DataObject>)
    requires UploadOk(p, x, data, manifests, quarantine) && Grows(x, y)
    requires !Crosses(x, y, QuarantineStored) && !Crosses(x, y, DataStored) && !Crosses(x, y, ManifestStored)
    ensures UploadOk(p, y, data, manifests, quarantine)
  {
  }

  /** The new position of an attempt agrees with every attempt verified under its token. */
  ghost predicate AgreesWithAll(y: Ingest, ingests: map<nat, Ingest>) {
    forall q :: q in ingests && y.Passed(Verified) && ingests[q].Passed(Verified) && ingests[q].token == y.token
      ==> ingests[q].epoch == y.epoch
  }

  lemma EpochsStillAgree(ingests: map<nat, Ingest>, p: nat, y: Ingest)
    requires EpochsAgree(ingests) && AgreesWithAll(y, ingests)
    ensures EpochsAgree(ingests[p := y])
  {
  }

  lemma EpochsMove(ingests: map<nat, Ingest>, p: nat, y: Ingest)
    requires EpochsAgree(ingests) && p in ingests && Grows(ingests[p], y) && !Crosses(ingests[p], y, Verified)
    ensures AgreesWithAll(y, ingests)
  {
  }

  /** A move that changes the attempt alone needs only the attempt's own conditions. */
  lemma PutKeeps(j: State, p: nat, y: Ingest)
    requires Inv(j) && (p in j.ingests ==> Grows(j.ingests[p], y))
    requires VersionOk(y, j.marks, j.catalog)
    requires TenureOk(y, j.src.row, j.src.issued, j.src.sources)
    requires SnapshotOk(y, j.src.sources, j.history)
    requires UploadOk(p, y, j.data, j.manifests, j.quarantine)
    requires AgreesWithAll(y, j.ingests)
    ensures Inv(Put(j, p, y))
  {
    hide VersionOk, TenureOk, SnapshotOk, UploadOk, CatalogOk, StorageOk, HistoryOk, RewindsOk,
         WithinReach, NothingLost, S.Inv, EpochsAgree, AgreesWithAll, Grows;
    CatalogGrows(j.ingests, p, y, j.catalog);
    StorageGrows(j.ingests, p, y, j.data, j.manifests, j.inspected);
    EpochsStillAgree(j.ingests, p, y);
  }

  lemma IngestFacts(j: State, p: nat)
    requires Inv(j) && p in j.ingests
    ensures VersionOk(j.ingests[p], j.marks, j.catalog)
    ensures TenureOk(j.ingests[p], j.src.row, j.src.issued, j.src.sources)
    ensures SnapshotOk(j.ingests[p], j.src.sources, j.history)
    ensures UploadOk(p, j.ingests[p], j.data, j.manifests, j.quarantine)
    ensures EpochsAgree(j.ingests)
  {
    hide VersionOk, TenureOk, SnapshotOk, UploadOk, CatalogOk, StorageOk, HistoryOk, RewindsOk,
         WithinReach, NothingLost, S.Inv, EpochsAgree;
  }

  /** A move has to re-establish only the conditions of the milestones it crosses. */
  lemma MoveKeeps(j: State, p: nat, y: Ingest)
    requires Inv(j) && p in j.ingests && Grows(j.ingests[p], y)
    requires Crosses(j.ingests[p], y, Clear) ==> VersionOk(y, j.marks, j.catalog)
    requires Crosses(j.ingests[p], y, Checked) || Crosses(j.ingests[p], y, Opened) ==>
      TenureOk(y, j.src.row, j.src.issued, j.src.sources)
    requires Crosses(j.ingests[p], y, Opened) || Crosses(j.ingests[p], y, Extracted) ==>
      SnapshotOk(y, j.src.sources, j.history)
    requires !Crosses(j.ingests[p], y, Verified) && !Crosses(j.ingests[p], y, QuarantineStored)
    requires !Crosses(j.ingests[p], y, DataStored) && !Crosses(j.ingests[p], y, ManifestStored)
    ensures Inv(Put(j, p, y))
  {
    hide Inv, VersionOk, TenureOk, SnapshotOk, UploadOk, EpochsAgree, AgreesWithAll, Grows, Crosses;
    var x := j.ingests[p];
    IngestFacts(j, p);
    if !Crosses(x, y, Clear) {
      VersionMoves(x, y, j.marks, j.catalog);
    }
    if !Crosses(x, y, Checked) && !Crosses(x, y, Opened) {
      TenureMoves(x, y, j.src.row, j.src.issued, j.src.sources);
    }
    if !Crosses(x, y, Opened) && !Crosses(x, y, Extracted) {
      SnapshotMoves(x, y, j.src.sources, j.history);
    }
    UploadMoves(p, x, y, j.data, j.manifests, j.quarantine);
    EpochsMove(j.ingests, p, y);
    PutKeeps(j, p, y);
  }

  lemma TableFacts(j: State, t: Table)
    requires Inv(j)
    ensures ChainOk(Mark(j.marks, t), Events(j.history, t))
    ensures AdvancesOk(t, Events(j.history, t), j.catalog)
    ensures j.src.sources != []
    ensures Reached(Now(j.src.sources, t), Mark(j.marks, t).cursor)
  {
    hide ChainOk, AdvancesOk, VersionsOk, TenuresOk, SnapshotsOk, UploadsOk, CatalogOk, StorageOk,
         RewindsOk, NothingLost, EpochsAgree, Reached, Now, Mark, Events,
         S.LeaseOk, S.GensOk, S.MarkersOk, S.RunsOk, S.EventsOk, S.SourceKeyed, S.SourceEvolved;
  }

  // ---------------------------------------------------------------------------------------
  // The steps of an attempt before it stores anything
  // ---------------------------------------------------------------------------------------

  lemma ChainEnd(m: Watermark, events: seq<Event>)
    requires ChainOk(m, events)
    ensures SeenOk(m.cursor, m.version, events)
  {
    hide IsForward;
  }

  lemma FreshAttempt(x: Ingest, p: nat, j: State)
    requires x.stage == Fresh && SeenOk(x.seen, x.seenVersion, Events(j.history, x.table))
    requires x.seen == Mark(j.marks, x.table).cursor && x.seenVersion == Mark(j.marks, x.table).version
    ensures VersionOk(x, j.marks, j.catalog)
    ensures TenureOk(x, j.src.row, j.src.issued, j.src.sources)
    ensures SnapshotOk(x, j.src.sources, j.history)
    ensures UploadOk(p, x, j.data, j.manifests, j.quarantine)
    ensures AgreesWithAll(x, j.ingests)
  {
    hide Mark, Events, Keyed, FetchUpperBound, InRange, RowsAt, SeenOk, RejectRateAccepted, AfterRewind;
  }

  lemma ReadWatermarkInv(j: State, p: nat, table: Table, batch: string)
    requires Inv(j)
    ensures Inv(DoReadWatermark(j, p, table, batch))
  {
    hide Inv, ChainOk, VersionOk, TenureOk, SnapshotOk, UploadOk, AgreesWithAll, AdvancesOk, Reached, Mark, Now,
         Events, SeenOk;
    if p !in j.ingests {
      TableFacts(j, table);
      ChainEnd(Mark(j.marks, table), Events(j.history, table));
      var x := DoReadWatermark(j, p, table, batch).ingests[p];
      FreshAttempt(x, p, j);
      PutKeeps(j, p, x);
    }
  }

  lemma LookUpInv(j: State, p: nat)
    requires Inv(j)
    ensures Inv(DoLookUp(j, p))
  {
    hide Inv, TenureOk, SnapshotOk, UploadOk, EpochsAgree, Mark;
    if DoLookUp(j, p) != j {
      IngestFacts(j, p);
      MoveKeeps(j, p, DoLookUp(j, p).ingests[p]);
    }
  }

  lemma IgnoresRuns(j: State, runs: map<nat, RunRow>)
    requires Inv(j)
    ensures Inv(j.(runs := runs))
  {
    hide VersionsOk, TenuresOk, EpochsAgree, SnapshotsOk, UploadsOk, CatalogOk, StorageOk, HistoryOk,
         RewindsOk, WithinReach, NothingLost, S.Inv;
  }

  lemma CloseInv(j: State, p: nat)
    requires Inv(j) && p in j.ingests
    ensures Inv(Put(j, p, j.ingests[p].(closed := true)))
  {
    hide Inv, VersionOk, TenureOk, SnapshotOk;
    MoveKeeps(j, p, j.ingests[p].(closed := true));
  }

  lemma ReuseBatchInv(j: State, p: nat, sameSchema: bool)
    requires Inv(j)
    ensures Inv(DoReuseBatch(j, p, sameSchema))
  {
    hide Inv;
    if p in j.ingests {
      CloseInv(j, p);
      IgnoresRuns(Put(j, p, j.ingests[p].(closed := true)), DoReuseBatch(j, p, sameSchema).runs);
    }
  }

  lemma ClosingSteps(j: State, p: nat)
    requires Inv(j)
    ensures Inv(DoFinishNoData(j, p)) && Inv(DoFailRun(j, p)) && Inv(DoCrashRun(j, p))
  {
    hide Inv;
    if p in j.ingests {
      CloseInv(j, p);
      var closed := Put(j, p, j.ingests[p].(closed := true));
      IgnoresRuns(closed, DoFinishNoData(j, p).runs);
      IgnoresRuns(closed, DoFailRun(j, p).runs);
    }
  }

  lemma HeldTokenIssued(s: S.State, token: Token)
    requires S.Inv(s) && Matches(s.row, token)
    ensures token in s.issued
  {
    hide S.GensOk, S.SourcesOk, S.MarkersOk, S.RunsOk, S.EventsOk;
    assert S.LeaseOk(s);
  }

  lemma CheckedTenure(x: Ingest, y: Ingest, token: Token, s: S.State)
    requires x.stage == Clear && s.sources != [] && token in s.issued && token.owner.kind.Warehouse?
    requires y == x.(stage := Checked, token := token, checkEpoch := |s.sources| - 1)
    ensures TenureOk(y, s.row, s.issued, s.sources)
  {
  }

  lemma SourceInv(j: State)
    requires Inv(j)
    ensures S.Inv(j.src)
  {
    hide S.Inv, VersionsOk, TenuresOk, EpochsAgree, SnapshotsOk, UploadsOk, CatalogOk, StorageOk, HistoryOk,
         RewindsOk, WithinReach, NothingLost;
  }

  lemma CheckSourceInv(j: State, p: nat, token: Token, now: int)
    requires Inv(j)
    ensures Inv(DoCheckSource(j, p, token, now))
  {
    hide Inv, S.Inv, VersionOk, TenureOk, SnapshotOk, UploadOk, EpochsAgree;
    if DoCheckSource(j, p, token, now) != j {
      SourceInv(j);
      HeldTokenIssued(j.src, token);
      CheckedTenure(j.ingests[p], DoCheckSource(j, p, token, now).ingests[p], token, j.src);
      MoveKeeps(j, p, DoCheckSource(j, p, token, now).ingests[p]);
    }
  }

  /** A rewind recorded in the history was resolved at an epoch that already exists. */
  lemma RewindsAreNotNewer(j: State, t: Table)
    requires Inv(j)
    ensures forall i :: 0 <= i < |Events(j.history, t)| && Events(j.history, t)[i].Rewound? ==>
      Events(j.history, t)[i].epoch <= |j.src.sources| - 1
  {
    hide VersionsOk, TenuresOk, EpochsAgree, SnapshotsOk, UploadsOk, CatalogOk, StorageOk, HistoryOk,
         WithinReach, NothingLost, S.Inv, Keyed, RowsAt, CursorBefore, Events;
  }

  lemma OpenedSnapshot(x: Ingest, y: Ingest, sources: seq<S.Source>, history: map<Table, seq<Event>>)
    requires SnapshotOk(x, sources, history) && sources != [] && Keyed(Now(sources, x.table))
    requires y == x.(stage := Opened, epoch := |sources| - 1,
                     upper := FetchUpperBound(Now(sources, x.table), x.seen))
    requires forall i :: 0 <= i < |Events(history, x.table)| && Events(history, x.table)[i].Rewound? ==>
      Events(history, x.table)[i].epoch <= |sources| - 1
    ensures SnapshotOk(y, sources, history)
  {
    hide Keyed, FetchUpperBound, InRange, Events, RejectRateAccepted;
    assert RowsAt(sources, |sources| - 1, x.table) == Now(sources, x.table);
  }

  lemma OpenSnapshotInv(j: State, p: nat)
    requires Inv(j)
    ensures Inv(DoOpenSnapshot(j, p))
  {
    hide Inv, SnapshotOk, VersionOk, UploadOk, EpochsAgree, Keyed, FetchUpperBound, Now, Events;
    if DoOpenSnapshot(j, p) != j {
      IngestFacts(j, p);
      var x := j.ingests[p];
      RewindsAreNotNewer(j, x.table);
      var y := DoOpenSnapshot(j, p).ingests[p];
      OpenedSnapshot(x, y, j.src.sources, j.history);
      MoveKeeps(j, p, y);
    }
  }

  lemma RegisterInv(j: State, p: nat)
    requires Inv(j)
    ensures Inv(DoRegister(j, p))
  {
    hide Inv, VersionOk, TenureOk, SnapshotOk;
    if DoRegister(j, p) != j {
      var y := DoRegister(j, p).ingests[p];
      MoveKeeps(j, p, y);
      IgnoresRuns(Put(j, p, y), DoRegister(j, p).runs);
    }
  }

  lemma ExtractInv(j: State, p: nat, valid: set<Record>, rejected: set<Record>)
    requires Inv(j)
    ensures Inv(DoExtract(j, p, valid, rejected))
  {
    hide Inv, VersionOk, TenureOk, UploadOk, EpochsAgree, Keyed, FetchUpperBound, InRange, RowsAt, Events,
         SeenOk;
    if DoExtract(j, p, valid, rejected) != j {
      IngestFacts(j, p);
      MoveKeeps(j, p, DoExtract(j, p, valid, rejected).ingests[p]);
    }
  }

  lemma RecheckInv(j: State, p: nat, now: int)
    requires Inv(j)
    ensures Inv(DoRecheck(j, p, now))
  {
    hide Inv, VersionOk, TenureOk, SnapshotOk;
    if DoRecheck(j, p, now) != j {
      MoveKeeps(j, p, DoRecheck(j, p, now).ingests[p]);
    }
  }

  // ---------------------------------------------------------------------------------------
  // The second lease check
  // ---------------------------------------------------------------------------------------

  lemma VerifiedSnapshot(x: Ingest, y: Ingest, sources: seq<S.Source>, history: map<Table, seq<Event>>)
    requires SnapshotOk(x, sources, history) && x.stage == Extracted && y == x.(stage := Verified)
    requires RejectRateAccepted(|x.valid|, |x.rejected|)
    ensures SnapshotOk(y, sources, history)
  {
    hide Keyed, FetchUpperBound, InRange, RowsAt, Events, RejectRateAccepted, SeenOk;
  }

  /** Whoever was verified under the token in force read the newest source state. */
  lemma VerifiedEpochs(j: State, y: Ingest)
    requires Inv(j) && j.src.row.version == y.token.version && y.epoch == |j.src.sources| - 1
    ensures AgreesWithAll(y, j.ingests)
  {
    hide Inv, VersionOk, SnapshotOk, UploadOk, EpochsAgree;
    forall q | q in j.ingests && y.Passed(Verified) && j.ingests[q].Passed(Verified) && j.ingests[q].token == y.token
      ensures j.ingests[q].epoch == y.epoch
    {
      IngestFacts(j, q);
    }
  }

  /** Passing the second check pins the attempt to the source state of its token's tenure. */
  lemma VerifyInv(j: State, p: nat, now: int)
    requires Inv(j)
    ensures Inv(DoVerify(j, p, now))
  {
    hide Inv, VersionOk, SnapshotOk, UploadOk, EpochsAgree, AgreesWithAll, RejectRateAccepted, HoldsLease, Mark;
    if DoVerify(j, p, now) != j {
      var x, y := j.ingests[p], DoVerify(j, p, now).ingests[p];
      IngestFacts(j, p);
      VersionMoves(x, y, j.marks, j.catalog);
      VerifiedSnapshot(x, y, j.src.sources, j.history);
      UploadMoves(p, x, y, j.data, j.manifests, j.quarantine);
      VerifiedEpochs(j, y);
      PutKeeps(j, p, y);
    }
  }

  // ---------------------------------------------------------------------------------------
  // Table leases
  // ---------------------------------------------------------------------------------------

  ghost predicate SameMarks(marks: map<Table, Watermark>, later: map<Table, Watermark>) {
    forall t :: Mark(later, t).cursor == Mark(marks, t).cursor && Mark(later, t).version == Mark(marks, t).version
  }

  lemma VersionsSame(ingests: map<nat, Ingest>, marks: map<Table, Watermark>, later: map<Table, Watermark>,
                     catalog: map<Key, Entry>)
    requires VersionsOk(ingests, marks, catalog) && SameMarks(marks, later)
    ensures VersionsOk(ingests, later, catalog)
  {
    hide Mark;
    forall p | p in ingests ensures VersionOk(ingests[p], later, catalog) {
      assert VersionOk(ingests[p], marks, catalog);
    }
  }

  lemma HistorySame(marks: map<Table, Watermark>, later: map<Table, Watermark>,
                    history: map<Table, seq<Event>>, catalog: map<Key, Entry>)
    requires HistoryOk(marks, history, catalog) && SameMarks(marks, later)
    ensures HistoryOk(later, history, catalog)
  {
    hide Mark, Events, AdvancesOk, IsForward;
    forall t ensures ChainOk(Mark(later, t), Events(history, t)) {
      assert ChainOk(Mark(marks, t), Events(history, t));
    }
  }

  lemma CoverageSame(marks: map<Table, Watermark>, later: map<Table, Watermark>,
                     catalog: map<Key, Entry>, sources: seq<S.Source>)
    requires WithinReach(marks, sources) && NothingLost(marks, catalog, sources) && SameMarks(marks, later)
    ensures WithinReach(later, sources) && NothingLost(later, catalog, sources)
  {
    hide Mark, Reached, Now, Landed, UpTo;
  }

  lemma LeaseIsNoMark(j: State, t: Table, lease: TableLease)
    ensures SameMarks(j.marks, SetLease(j, t, lease).marks)
  {
  }

  /** Nothing in the invariant looks at table leases; the watermark checks carry the proof. */
  lemma LeaseKeeps(j: State, t: Table, lease: TableLease)
    requires Inv(j)
    ensures Inv(SetLease(j, t, lease))
  {
    hide VersionsOk, TenuresOk, EpochsAgree, SnapshotsOk, UploadsOk, CatalogOk, StorageOk, HistoryOk,
         RewindsOk, WithinReach, NothingLost, S.Inv, SameMarks, Mark;
    var later := SetLease(j, t, lease).marks;
    LeaseIsNoMark(j, t, lease);
    VersionsSame(j.ingests, j.marks, later, j.catalog);
    HistorySame(j.marks, later, j.history, j.catalog);
    CoverageSame(j.marks, later, j.catalog, j.src.sources);
  }

  lemma LeaseForIngestInv(j: State, p: nat, now: int, ttl: int)
    requires Inv(j)
    ensures Inv(DoLeaseForIngest(j, p, now, ttl))
  {
    hide Inv, VersionOk, TenureOk, SnapshotOk, UploadOk, Mark, Leasable;
    var t := DoLeaseForIngest(j, p, now, ttl);
    if t != j {
      MoveKeeps(j, p, t.ingests[p]);
      LeaseKeeps(Put(j, p, t.ingests[p]), j.ingests[p].table, HeldBy(Ingestion(p), now + ttl));
    }
  }

  lemma RenewLeaseInv(j: State, holder: Holder, t: Table, version: nat, now: int, ttl: int)
    requires Inv(j)
    ensures Inv(DoRenewLease(j, holder, t, version, now, ttl))
  {
    hide Inv;
    LeaseKeeps(j, t, HeldBy(holder, now + ttl));
  }

  lemma ReleaseLeaseInv(j: State, holder: Holder, t: Table)
    requires Inv(j)
    ensures Inv(DoReleaseLease(j, holder, t))
  {
    hide Inv;
    LeaseKeeps(j, t, Unheld);
  }

  // ---------------------------------------------------------------------------------------
  // Uploads
  // ---------------------------------------------------------------------------------------

  ghost predicate Extends<V>(m: map<Key, V>, n: map<Key, V>) {
    forall key :: key in m ==> key in n && n[key] == m[key]
  }

  lemma Extended<V>(m: map<Key, V>, key: Key, v: V)
    requires key !in m
    ensures Extends(m, m[key := v])
  {
  }

  lemma ExtendsSame<V>(m: map<Key, V>)
    ensures Extends(m, m)
  {
  }

  /** Storage only gained objects. */
  ghost predicate StorageGrew(j: State, k: State) {
    Extends(j.data, k.data) && Extends(j.manifests, k.manifests) && Extends(j.quarantine, k.quarantine)
  }

  lemma UploadsGrow(j: State, k: State)
    requires UploadsOk(j.ingests, j.data, j.manifests, j.quarantine) && StorageGrew(j, k)
    ensures UploadsOk(j.ingests, k.data, k.manifests, k.quarantine)
  {
    forall p | p in j.ingests ensures UploadOk(p, j.ingests[p], k.data, k.manifests, k.quarantine) {
      assert UploadOk(p, j.ingests[p], j.data, j.manifests, j.quarantine);
    }
  }

  lemma UploadsPut(ingests: map<nat, Ingest>, p: nat, y: Ingest, data: map<Key, DataObject>,
                   manifests: map<Key, Manifest>, quarantine: map<Key, DataObject>)
    requires UploadsOk(ingests, data, manifests, quarantine) && UploadOk(p, y, data, manifests, quarantine)
    ensures UploadsOk(ingests[p := y], data, manifests, quarantine)
  {
    hide UploadOk;
  }

  /** An upload step: the attempt advances and stores its own object under its own batch. */
  lemma UploadKeeps(j: State, p: nat, y: Ingest, k: State)
    requires Inv(j) && p in j.ingests && Grows(j.ingests[p], y)
    requires k == Put(j, p, y).(data := k.data, manifests := k.manifests, quarantine := k.quarantine)
    requires StorageGrew(j, k) && UploadOk(p, y, k.data, k.manifests, k.quarantine)
    requires StorageOk(k.ingests, k.data, k.manifests, k.inspected)
    requires !Crosses(j.ingests[p], y, Clear) && !Crosses(j.ingests[p], y, Checked)
    requires !Crosses(j.ingests[p], y, Opened) && !Crosses(j.ingests[p], y, Extracted)
    requires !Crosses(j.ingests[p], y, Verified)
    ensures Inv(k)
  {
    hide VersionOk, TenureOk, SnapshotOk, UploadOk, CatalogOk, StorageOk, HistoryOk, RewindsOk, UploadsOk,
         WithinReach, NothingLost, S.Inv, EpochsAgree, AgreesWithAll, Grows, Crosses, StorageGrew;
    var x := j.ingests[p];
    VersionMoves(x, y, j.marks, j.catalog);
    TenureMoves(x, y, j.src.row, j.src.issued, j.src.sources);
    SnapshotMoves(x, y, j.src.sources, j.history);
    EpochsMove(j.ingests, p, y);
    EpochsStillAgree(j.ingests, p, y);
    CatalogGrows(j.ingests, p, y, j.catalog);
    UploadsGrow(j, k);
    UploadsPut(j.ingests, p, y, k.data, k.manifests, k.quarantine);
  }

  lemma StorageFacts(j: State)
    requires Inv(j)
    ensures StorageOk(j.ingests, j.data, j.manifests, j.inspected)
  {
    hide S.Inv, VersionsOk, TenuresOk, EpochsAgree, SnapshotsOk, UploadsOk, CatalogOk, StorageOk, HistoryOk,
         RewindsOk, WithinReach, NothingLost;
  }

  /** The three uploads seen by the attempt that makes them. */
  lemma UploadSteps(p: nat, x: Ingest, data: map<Key, DataObject>, manifests: map<Key, Manifest>,
                    quarantine: map<Key, DataObject>)
    requires UploadOk(p, x, data, manifests, quarantine)
    ensures x.stage == Verified && x.rejected == {} ==>
      UploadOk(p, x.(stage := QuarantineStored), data, manifests, quarantine)
    ensures x.stage == Verified ==>
      UploadOk(p, x.(stage := QuarantineStored), data, manifests,
               quarantine[x.BatchKey() := DataObject(p, x.rejected)])
    ensures x.stage == QuarantineStored ==>
      UploadOk(p, x.(stage := DataStored), data[x.BatchKey() := DataObject(p, x.valid)], manifests, quarantine)
    ensures x.stage == DataStored ==>
      UploadOk(p, x.(stage := ManifestStored), data,
               manifests[x.BatchKey() := Manifest(p, x.seen, x.upper)], quarantine)
  {
  }

  lemma StorageAddsData(ingests: map<nat, Ingest>, p: nat, key: Key, data: map<Key, DataObject>,
                        manifests: map<Key, Manifest>, inspected: set<Key>, rows: set<Record>)
    requires StorageOk(ingests, data, manifests, inspected) && IsAttempt(ingests, p, key, DataStored)
    ensures StorageOk(ingests, data[key := DataObject(p, rows)], manifests, inspected)
  {
    hide IsAttempt;
  }

  lemma StorageAddsManifest(ingests: map<nat, Ingest>, p: nat, key: Key, data: map<Key, DataObject>,
                            manifests: map<Key, Manifest>, inspected: set<Key>, f: Manifest)
    requires StorageOk(ingests, data, manifests, inspected) && key !in manifests
    requires f.run == p && IsAttempt(ingests, p, key, ManifestStored)
    ensures StorageOk(ingests, data, manifests[key := f], inspected)
  {
    hide IsAttempt;
  }

  lemma UploadCrossesNothing(x: Ingest, s: Stage)
    requires x.Passed(Verified) && Rank(x.stage) <= Rank(s)
    ensures var y := x.(stage := s);
      && Grows(x, y) && !Crosses(x, y, Clear) && !Crosses(x, y, Checked) && !Crosses(x, y, Opened)
      && !Crosses(x, y, Extracted) && !Crosses(x, y, Verified)
  {
  }

  lemma QuarantineUploaded(j: State, p: nat, x: Ingest)
    requires Inv(j) && p in j.ingests && j.ingests[p] == x && x.stage == Verified
    requires x.BatchKey() !in j.quarantine
    ensures Inv(Put(j, p, x.(stage := QuarantineStored)).(
                  quarantine := j.quarantine[x.BatchKey() := DataObject(p, x.rejected)]))
  {
    hide Inv, VersionOk, TenureOk, SnapshotOk, EpochsAgree, StorageOk, UploadOk, Grows, Crosses, Extends;
    var y := x.(stage := QuarantineStored);
    var stored := DataObject(p, x.rejected);
    IngestFacts(j, p);
    UploadSteps(p, x, j.data, j.manifests, j.quarantine);
    UploadCrossesNothing(x, QuarantineStored);
    ExtendsSame(j.data);
    ExtendsSame(j.manifests);
    Extended(j.quarantine, x.BatchKey(), stored);
    StorageFacts(j);
    StorageGrows(j.ingests, p, y, j.data, j.manifests, j.inspected);
    UploadKeeps(j, p, y, Put(j, p, y).(quarantine := j.quarantine[x.BatchKey() := stored]));
  }

  lemma NothingQuarantined(j: State, p: nat, x: Ingest)
    requires Inv(j) && p in j.ingests && j.ingests[p] == x && x.stage == Verified && x.rejected == {}
    ensures Inv(Put(j, p, x.(stage := QuarantineStored)))
  {
    hide Inv, VersionOk, TenureOk, SnapshotOk, EpochsAgree, StorageOk, UploadOk, Grows, Crosses, Extends;
    var y := x.(stage := QuarantineStored);
    IngestFacts(j, p);
    UploadSteps(p, x, j.data, j.manifests, j.quarantine);
    UploadCrossesNothing(x, QuarantineStored);
    ExtendsSame(j.data);
    ExtendsSame(j.manifests);
    ExtendsSame(j.quarantine);
    StorageFacts(j);
    StorageGrows(j.ingests, p, y, j.data, j.manifests, j.inspected);
    UploadKeeps(j, p, y, Put(j, p, y));
  }

  lemma StoreQuarantineInv(j: State, p: nat)
    requires Inv(j)
    ensures Inv(DoStoreQuarantine(j, p))
  {
    hide Inv, VersionOk, TenureOk, SnapshotOk, EpochsAgree, StorageOk, UploadOk, Grows, Crosses, Extends;
    if AtStage(j, p, Verified) {
      var x := j.ingests[p];
      if x.rejected == {} {
        NothingQuarantined(j, p, x);
      } else if x.BatchKey() !in j.quarantine {
        QuarantineUploaded(j, p, x);
      }
    }
  }

  lemma StoreDataInv(j: State, p: nat)
    requires Inv(j)
    ensures Inv(DoStoreData(j, p))
  {
    hide Inv, VersionOk, TenureOk, SnapshotOk, EpochsAgree, StorageOk, UploadOk, Grows, Crosses,
         Extends;
    var k := DoStoreData(j, p);
    if k != j {
      var x, y := j.ingests[p], k.ingests[p];
      IngestFacts(j, p);
      UploadSteps(p, x, j.data, j.manifests, j.quarantine);
      UploadCrossesNothing(j.ingests[p], DataStored);
      ExtendsSame(j.manifests);
      ExtendsSame(j.quarantine);
      Extended(j.data, x.BatchKey(), DataObject(p, x.valid));
      StorageFacts(j);
      StorageGrows(j.ingests, p, y, j.data, j.manifests, j.inspected);
      StorageAddsData(k.ingests, p, x.BatchKey(), j.data, j.manifests, j.inspected, x.valid);
      UploadKeeps(j, p, y, k);
    }
  }

  lemma StoreManifestInv(j: State, p: nat)
    requires Inv(j)
    ensures Inv(DoStoreManifest(j, p))
  {
    hide Inv, VersionOk, TenureOk, SnapshotOk, EpochsAgree, StorageOk, UploadOk, Grows, Crosses,
         Extends;
    var k := DoStoreManifest(j, p);
    if k != j {
      var x, y := j.ingests[p], k.ingests[p];
      IngestFacts(j, p);
      UploadSteps(p, x, j.data, j.manifests, j.quarantine);
      UploadCrossesNothing(j.ingests[p], ManifestStored);
      ExtendsSame(j.data);
      ExtendsSame(j.quarantine);
      Extended(j.manifests, x.BatchKey(), Manifest(p, x.seen, x.upper));
      StorageFacts(j);
      StorageGrows(j.ingests, p, y, j.data, j.manifests, j.inspected);
      StorageAddsManifest(k.ingests, p, x.BatchKey(), j.data, j.manifests, j.inspected, k.manifests[x.BatchKey()]);
      UploadKeeps(j, p, y, k);
    }
  }

  // ---------------------------------------------------------------------------------------
  // Watermark moves
  // ---------------------------------------------------------------------------------------

  /** One event moved one watermark from `e.from` to `e.to` and its version by one. */
  ghost predicate MovedBy(marks: map<Table, Watermark>, later: map<Table, Watermark>,
                          history: map<Table, seq<Event>>, longer: map<Table, seq<Event>>, t: Table, e: Event)
  {
    && e.from == Mark(marks, t).cursor && e.to == Mark(later, t).cursor
    && Mark(later, t).version == Mark(marks, t).version + 1
    && Events(longer, t) == Events(history, t) + [e]
    && forall u :: u != t ==> Mark(later, u) == Mark(marks, u) && Events(longer, u) == Events(history, u)
  }

  lemma VersionsAdvance(ingests: map<nat, Ingest>, marks: map<Table, Watermark>, later: map<Table, Watermark>,
                        history: map<Table, seq<Event>>, longer: map<Table, seq<Event>>, t: Table, e: Event,
                        catalog: map<Key, Entry>, grown: map<Key, Entry>)
    requires VersionsOk(ingests, marks, catalog) && MovedBy(marks, later, history, longer, t, e)
    requires forall key :: key in grown && key.table != t ==> key in catalog
    ensures VersionsOk(ingests, later, grown)
  {
    hide Mark, Events;
    forall p | p in ingests ensures VersionOk(ingests[p], later, grown) {
      assert VersionOk(ingests[p], marks, catalog);
    }
  }

  lemma SnapshotAppends(x: Ingest, sources: seq<S.Source>, history: map<Table, seq<Event>>,
                        longer: map<Table, seq<Event>>)
    requires SnapshotOk(x, sources, history) && Events(history, x.table) <= Events(longer, x.table)
    ensures SnapshotOk(x, sources, longer)
  {
    hide Keyed, FetchUpperBound, InRange, RowsAt, Events, RejectRateAccepted;
  }

  lemma SnapshotsAppend(ingests: map<nat, Ingest>, sources: seq<S.Source>,
                        marks: map<Table, Watermark>, later: map<Table, Watermark>,
                        history: map<Table, seq<Event>>, longer: map<Table, seq<Event>>, t: Table, e: Event)
    requires SnapshotsOk(ingests, sources, history) && MovedBy(marks, later, history, longer, t, e)
    ensures SnapshotsOk(ingests, sources, longer)
  {
    hide SnapshotOk, Events, Mark;
    forall p | p in ingests ensures SnapshotOk(ingests[p], sources, longer) {
      assert SnapshotOk(ingests[p], sources, history);
      SnapshotAppends(ingests[p], sources, history, longer);
    }
  }

  lemma RewindsAppend(rewinders: map<nat, Rewinder>, sources: seq<S.Source>,
                      marks: map<Table, Watermark>, later: map<Table, Watermark>,
                      history: map<Table, seq<Event>>, longer: map<Table, seq<Event>>, t: Table, e: Event)
    requires RewindsOk(history, rewinders, sources) && MovedBy(marks, later, history, longer, t, e)
    requires e.Rewound? ==> TargetOk(t, e.boundary, e.epoch, e.to, sources)
    ensures RewindsOk(longer, rewinders, sources)
  {
    hide TargetOk, Mark, Events;
    forall u, i | 0 <= i < |Events(longer, u)| && Events(longer, u)[i].Rewound?
      ensures TargetOk(u, Events(longer, u)[i].boundary, Events(longer, u)[i].epoch, Events(longer, u)[i].to, sources)
    {
      if u != t || i < |Events(history, u)| {
        assert Events(longer, u)[i] == Events(history, u)[i];
      }
    }
  }

  lemma ChainAppends(m: Watermark, n: Watermark, events: seq<Event>, e: Event)
    requires ChainOk(m, events) && e.from == m.cursor && IsForward(e)
    requires n.cursor == e.to && n.version == m.version + 1
    ensures ChainOk(n, events + [e])
  {
    hide IsForward;
    var more := events + [e];
    forall i | 0 <= i < |more|
      ensures more[i].from == Standing(more, i) && IsForward(more[i])
    {
      assert i > 0 ==> more[i - 1] == events[i - 1];
      assert Standing(more, i) == Standing(events, i);
    }
  }

  /** The new event extends the chain of its own table only. */
  lemma ChainsAppend(marks: map<Table, Watermark>, later: map<Table, Watermark>,
                     history: map<Table, seq<Event>>, longer: map<Table, seq<Event>>, t: Table, e: Event)
    requires forall u :: ChainOk(Mark(marks, u), Events(history, u))
    requires MovedBy(marks, later, history, longer, t, e) && IsForward(e)
    ensures forall u :: ChainOk(Mark(later, u), Events(longer, u))
  {
    hide IsForward, ChainOk, Mark, Events;
    ChainAppends(Mark(marks, t), Mark(later, t), Events(history, t), e);
  }

  // ---------------------------------------------------------------------------------------
  // Rewinds
  // ---------------------------------------------------------------------------------------

  lemma IgnoresOtherRewinders(j: State, q: nat, w: Rewinder)
    requires Inv(j) && TargetOk(w.table, w.boundary, w.epoch, w.target, j.src.sources)
    ensures Inv(j.(rewinders := j.rewinders[q := w]))
  {
    hide VersionsOk, TenuresOk, EpochsAgree, SnapshotsOk, UploadsOk, CatalogOk, StorageOk, HistoryOk,
         WithinReach, NothingLost, S.Inv, TargetOk;
  }

  lemma RewinderFacts(j: State, q: nat)
    requires Inv(j) && q in j.rewinders
    ensures var w := j.rewinders[q]; TargetOk(w.table, w.boundary, w.epoch, w.target, j.src.sources)
  {
    hide VersionsOk, TenuresOk, EpochsAgree, SnapshotsOk, UploadsOk, CatalogOk, StorageOk, HistoryOk,
         WithinReach, NothingLost, S.Inv, TargetOk;
  }

  lemma ResolveRewindInv(j: State, q: nat, table: Table, boundary: int)
    requires Inv(j)
    ensures Inv(DoResolveRewind(j, q, table, boundary))
  {
    hide Inv, Keyed, CursorBefore;
    if DoResolveRewind(j, q, table, boundary) != j {
      assert RowsAt(j.src.sources, |j.src.sources| - 1, table) == Now(j.src.sources, table);
      IgnoresOtherRewinders(j, q, DoResolveRewind(j, q, table, boundary).rewinders[q]);
    }
  }

  lemma LeaseForRewindInv(j: State, q: nat, now: int, ttl: int)
    requires Inv(j)
    ensures Inv(DoLeaseForRewind(j, q, now, ttl))
  {
    hide Inv, TargetOk, Mark, Leasable;
    var k := DoLeaseForRewind(j, q, now, ttl);
    if k != j {
      RewinderFacts(j, q);
      var resolved := j.(rewinders := k.rewinders);
      IgnoresOtherRewinders(j, q, k.rewinders[q]);
      LeaseKeeps(resolved, j.rewinders[q].table, HeldBy(Rewinding(q), now + ttl));
    }
  }

  /** Moving the watermark down keeps what was reached and loses nothing. */
  lemma CoverageRewinds(marks: map<Table, Watermark>, later: map<Table, Watermark>,
                        history: map<Table, seq<Event>>, longer: map<Table, seq<Event>>, t: Table, e: Event,
                        catalog: map<Key, Entry>, sources: seq<S.Source>)
    requires WithinReach(marks, sources) && NothingLost(marks, catalog, sources)
    requires MovedBy(marks, later, history, longer, t, e) && Earlier(e.to, e.from)
    ensures WithinReach(later, sources) && NothingLost(later, catalog, sources)
  {
    hide Now, Landed, KeysLess, UpTo, Mark, Events;
    assert Reached(Now(sources, t), Mark(marks, t).cursor);
    forall u, r | r in Now(sources, u) && UpTo(r.cursor, Mark(later, u).cursor)
      ensures Landed(catalog, u, r)
    {
      if u == t {
        UpToMonotone(r.cursor, e.to, e.from);
      }
    }
  }

  lemma AdvancesRewound(marks: map<Table, Watermark>, later: map<Table, Watermark>,
                        history: map<Table, seq<Event>>, longer: map<Table, seq<Event>>, t: Table, e: Event,
                        catalog: map<Key, Entry>)
    requires e.Rewound? && MovedBy(marks, later, history, longer, t, e)
    requires forall u :: AdvancesOk(u, Events(history, u), catalog)
    ensures forall u :: AdvancesOk(u, Events(longer, u), catalog)
  {
    hide InCatalog, Mark, Events;
    forall u ensures AdvancesOk(u, Events(longer, u), catalog) {
      assert AdvancesOk(u, Events(history, u), catalog);
    }
  }

  lemma NotRewinding(j: State, q: nat, now: int)
    ensures q !in j.rewinders ==> DoRewindMark(j, q, now) == j
  {
  }

  lemma RewoundIsMove(j: State, q: nat, now: int)
    requires DoRewindMark(j, q, now) != j
    ensures var k, w := DoRewindMark(j, q, now), j.rewinders[q];
      var e := Rewound(w.boundary, w.epoch, Mark(j.marks, w.table).cursor, w.target);
      && k == j.(marks := k.marks, history := k.history)
      && MovedBy(j.marks, k.marks, j.history, k.history, w.table, e)
      && IsForward(e)
  {
    hide HoldsLease, Less;
  }

  lemma RewindMarkInv(j: State, q: nat, now: int)
    requires Inv(j)
    ensures Inv(DoRewindMark(j, q, now))
  {
    hide VersionsOk, TenuresOk, EpochsAgree, SnapshotsOk, UploadsOk, CatalogOk, StorageOk,
         RewindsOk, WithinReach, NothingLost, S.Inv, TargetOk, ChainOk, AdvancesOk, MovedBy, DoRewindMark,
         Mark, Events, Less;
    var k := DoRewindMark(j, q, now);
    if k != j {
      RewoundIsMove(j, q, now);
      assert q in j.rewinders by {
        NotRewinding(j, q, now);
      }
      RewinderFacts(j, q);
      var w := j.rewinders[q];
      var t, e := w.table, Rewound(w.boundary, w.epoch, Mark(j.marks, w.table).cursor, w.target);
      VersionsAdvance(j.ingests, j.marks, k.marks, j.history, k.history, t, e, j.catalog, j.catalog);
      SnapshotsAppend(j.ingests, j.src.sources, j.marks, k.marks, j.history, k.history, t, e);
      RewindsAppend(j.rewinders, j.src.sources, j.marks, k.marks, j.history, k.history, t, e);
      ChainsAppend(j.marks, k.marks, j.history, k.history, t, e);
      AdvancesRewound(j.marks, k.marks, j.history, k.history, t, e, j.catalog);
      CoverageRewinds(j.marks, k.marks, j.history, k.history, t, e, j.catalog, j.src.sources);
    }
  }

  // ---------------------------------------------------------------------------------------
  // Commits
  // ---------------------------------------------------------------------------------------

  lemma AdvancesElsewhere(t: Table, events: seq<Event>, catalog: map<Key, Entry>, key: Key, entry: Entry)
    requires AdvancesOk(t, events, catalog) && key.table != t
    ensures AdvancesOk(t, events, catalog[key := entry])
  {
  }

  lemma AdvanceAppends(events: seq<Event>, catalog: map<Key, Entry>, key: Key, entry: Entry)
    requires AdvancesOk(key.table, events, catalog) && key !in catalog
    ensures AdvancesOk(key.table, events + [Advance(key.batch, entry.before, entry.upper)], catalog[key := entry])
  {
    var more := events + [Advance(key.batch, entry.before, entry.upper)];
    assert more[|events|] == Advance(key.batch, entry.before, entry.upper);
    forall i | 0 <= i < |events| && events[i].Advance? ensures events[i].batch != key.batch {
      assert InCatalog(catalog, key.table, events[i]);
    }
    forall k | k in catalog && k.table == key.table
      ensures Advance(k.batch, catalog[k].before, catalog[k].upper) in more
    {
      assert Advance(k.batch, catalog[k].before, catalog[k].upper) in events;
    }
  }

  lemma AdvancesLand(marks: map<Table, Watermark>, later: map<Table, Watermark>,
                     history: map<Table, seq<Event>>, longer: map<Table, seq<Event>>,
                     catalog: map<Key, Entry>, key: Key, entry: Entry)
    requires MovedBy(marks, later, history, longer, key.table, Advance(key.batch, entry.before, entry.upper))
    requires key !in catalog && forall u :: AdvancesOk(u, Events(history, u), catalog)
    ensures forall u :: AdvancesOk(u, Events(longer, u), catalog[key := entry])
  {
    hide Mark, Events;
    var grown := catalog[key := entry];
    forall u ensures AdvancesOk(u, Events(longer, u), grown) {
      assert AdvancesOk(u, Events(history, u), catalog);
      if u == key.table {
        AdvanceAppends(Events(history, u), catalog, key, entry);
      } else {
        AdvancesElsewhere(u, Events(history, u), catalog, key, entry);
      }
    }
  }

  /** The range of an entry, cut from `rows`, moves forward, was reached and is in the entry. */
  ghost predicate Covers(rows: set<Record>, entry: Entry) {
    && Earlier(entry.before, entry.upper) && Reached(rows, entry.upper)
    && InRange(rows, entry.before, entry.upper) == entry.valid + entry.rejected
  }

  lemma RangeMovesForward(rows: set<Record>, lower: Position, upper: Position)
    requires upper.At? && exists r :: r in Beyond(rows, lower) && r.cursor == upper.cursor
    ensures Earlier(lower, upper)
  {
  }

  lemma SnapshotReaches(x: Ingest, sources: seq<S.Source>, history: map<Table, seq<Event>>, entry: Entry)
    requires SnapshotOk(x, sources, history) && x.Passed(Verified)
    requires entry.before == x.seen && entry.upper == x.upper
    requires entry.valid == x.valid && entry.rejected == x.rejected
    ensures x.epoch < |sources| && Covers(RowsAt(sources, x.epoch, x.table), entry)
  {
    hide Keyed, FetchUpperBound, Beyond, InRange, Events, SeenOk, AfterRewind, RejectRateAccepted, Reached, RowsAt,
         Less, UpTo, Earlier;
    var rows := RowsAt(sources, x.epoch, x.table);
    UpperBoundClosesRange(rows, x.seen);
    ReachedByUpperBound(rows, x.seen);
    RangeMovesForward(rows, x.seen, x.upper);
  }

  /** A catalog entry covers its range of the source state its attempt read. */
  lemma EntryReaches(j: State, key: Key, entry: Entry)
    requires Inv(j) && EntryOk(key, entry, j.ingests)
    ensures entry.run in j.ingests && j.ingests[entry.run].epoch < |j.src.sources|
    ensures Covers(RowsAt(j.src.sources, j.ingests[entry.run].epoch, key.table), entry)
  {
    hide Inv, VersionOk, TenureOk, UploadOk, EpochsAgree, SnapshotOk, Covers;
    IngestFacts(j, entry.run);
    SnapshotReaches(j.ingests[entry.run], j.src.sources, j.history, entry);
  }

  lemma CoveredRow(rows: set<Record>, now: set<Record>, entry: Entry, r: Record)
    requires Covers(rows, entry) && Evolved(rows, now)
    requires r in now && UpTo(r.cursor, entry.upper) && !UpTo(r.cursor, entry.before)
    ensures r in entry.valid + entry.rejected
  {
    hide Less, Evolved, Reached;
    OldAtOrBelow(rows, now, entry.upper, r);
    assert r in InRange(rows, entry.before, entry.upper);
  }

  lemma LandedStays(catalog: map<Key, Entry>, key: Key, entry: Entry, t: Table, r: Record)
    requires Landed(catalog, t, r) && key !in catalog
    ensures Landed(catalog[key := entry], t, r)
  {
    var k :| k in catalog && k.table == t && r in catalog[k].valid + catalog[k].rejected;
    assert k in catalog[key := entry] && catalog[key := entry][k] == catalog[k];
  }

  /** Rows at or below the new watermark were there when the snapshot was taken. */
  lemma CoverageLands(marks: map<Table, Watermark>, later: map<Table, Watermark>,
                      history: map<Table, seq<Event>>, longer: map<Table, seq<Event>>,
                      catalog: map<Key, Entry>, key: Key, entry: Entry, sources: seq<S.Source>,
                      rows: set<Record>)
    requires MovedBy(marks, later, history, longer, key.table, Advance(key.batch, entry.before, entry.upper))
    requires WithinReach(marks, sources) && NothingLost(marks, catalog, sources) && key !in catalog
    requires Covers(rows, entry) && Evolved(rows, Now(sources, key.table))
    ensures WithinReach(later, sources) && NothingLost(later, catalog[key := entry], sources)
  {
    hide Now, UpTo, Mark, Events, Reached, Evolved, InRange, Earlier;
    ReachedLater(rows, Now(sources, key.table), entry.upper);
    var grown := catalog[key := entry];
    forall t, r | r in Now(sources, t) && UpTo(r.cursor, Mark(later, t).cursor) ensures Landed(grown, t, r) {
      if t == key.table && !UpTo(r.cursor, entry.before) {
        CoveredRow(rows, Now(sources, t), entry, r);
        assert key in grown && r in grown[key].valid + grown[key].rejected;
      } else {
        LandedStays(catalog, key, entry, t, r);
      }
    }
  }

  lemma LandIsMove(j: State, key: Key, entry: Entry)
    requires Mark(j.marks, key.table).cursor == entry.before
    ensures var k := Land(j, key, entry);
      && k == j.(catalog := j.catalog[key := entry], marks := k.marks, history := k.history)
      && MovedBy(j.marks, k.marks, j.history, k.history, key.table, Advance(key.batch, entry.before, entry.upper))
  {
  }

  lemma CatalogLands(ingests: map<nat, Ingest>, catalog: map<Key, Entry>, key: Key, entry: Entry)
    requires CatalogOk(ingests, catalog) && EntryOk(key, entry, ingests)
    ensures CatalogOk(ingests, catalog[key := entry])
  {
    hide EntryOk;
  }

  lemma SourcesEvolve(j: State, epoch: nat, t: Table)
    requires Inv(j) && epoch < |j.src.sources|
    ensures Evolved(RowsAt(j.src.sources, epoch, t), Now(j.src.sources, t))
  {
    hide VersionsOk, TenuresOk, EpochsAgree, SnapshotsOk, UploadsOk, CatalogOk, StorageOk, HistoryOk,
         RewindsOk, WithinReach, NothingLost, Evolved, S.LeaseOk, S.GensOk, S.MarkersOk, S.RunsOk, S.EventsOk,
         S.SourceKeyed, S.SourceEvolved;
    S.EvolvedBetween(j.src.sources, epoch, |j.src.sources| - 1, t);
  }

  lemma CoversForward(rows: set<Record>, key: Key, entry: Entry)
    requires Covers(rows, entry)
    ensures IsForward(Advance(key.batch, entry.before, entry.upper))
  {
    hide Less, Reached;
  }

  lemma LandParts(j: State, k: State, key: Key, entry: Entry, rows: set<Record>)
    requires Inv(j) && key !in j.catalog && EntryOk(key, entry, j.ingests)
    requires k == j.(catalog := j.catalog[key := entry], marks := k.marks, history := k.history)
    requires MovedBy(j.marks, k.marks, j.history, k.history, key.table, Advance(key.batch, entry.before, entry.upper))
    requires Covers(rows, entry) && Evolved(rows, Now(j.src.sources, key.table))
    ensures Inv(k)
  {
    hide VersionsOk, TenuresOk, EpochsAgree, SnapshotsOk, UploadsOk, CatalogOk, StorageOk, RewindsOk, WithinReach,
         NothingLost, S.Inv, ChainOk, AdvancesOk, MovedBy, Mark, Events, EntryOk, Covers, Evolved, Now, IsForward;
    var t, e := key.table, Advance(key.batch, entry.before, entry.upper);
    CoversForward(rows, key, entry);
    VersionsAdvance(j.ingests, j.marks, k.marks, j.history, k.history, t, e, j.catalog, k.catalog);
    SnapshotsAppend(j.ingests, j.src.sources, j.marks, k.marks, j.history, k.history, t, e);
    CatalogLands(j.ingests, j.catalog, key, entry);
    RewindsAppend(j.rewinders, j.src.sources, j.marks, k.marks, j.history, k.history, t, e);
    ChainsAppend(j.marks, k.marks, j.history, k.history, t, e);
    AdvancesLand(j.marks, k.marks, j.history, k.history, j.catalog, key, entry);
    CoverageLands(j.marks, k.marks, j.history, k.history, j.catalog, key, entry, j.src.sources, rows);
  }

  /**
   One commit: the range it adds starts at the watermark of that instant, everything it
   contains was read from one snapshot, and nothing appeared below it since.
   */
  lemma LandKeeps(j: State, key: Key, entry: Entry)
    requires Inv(j) && key !in j.catalog && EntryOk(key, entry, j.ingests)
    requires Mark(j.marks, key.table).cursor == entry.before
    ensures Inv(Land(j, key, entry))
  {
    hide Inv, EntryOk, Covers, Evolved, Land, RowsAt, Now, MovedBy, Mark, Events;
    EntryReaches(j, key, entry);
    SourcesEvolve(j, j.ingests[entry.run].epoch, key.table);
    LandIsMove(j, key, entry);
    LandParts(j, Land(j, key, entry), key, entry, RowsAt(j.src.sources, j.ingests[entry.run].epoch, key.table));
  }

  /** A retry never meets its own catalog entry: the watermark check refuses it first. */
  lemma CatalogKeyNeverRefuses(j: State, p: nat)
    requires Inv(j) && p in j.ingests && j.ingests[p].Passed(Rechecked)
    requires Mark(j.marks, j.ingests[p].table).version == j.ingests[p].seenVersion
    ensures j.ingests[p].BatchKey() !in j.catalog
  {
    hide Inv, TenureOk, SnapshotOk, UploadOk, EpochsAgree, Mark;
    IngestFacts(j, p);
  }

  lemma FinishKeeps(j: State, p: nat)
    requires Inv(j) && p in j.ingests && j.ingests[p].Passed(Rechecked)
    ensures Inv(Put(j, p, j.ingests[p].(stage := Finished, closed := true)))
  {
    hide Inv, VersionOk, TenureOk, SnapshotOk, UploadOk;
    MoveKeeps(j, p, j.ingests[p].(stage := Finished, closed := true));
  }

  lemma CommitIsLand(j: State, p: nat, now: int)
    requires DoCommitRun(j, p, now) != j
    ensures p in j.ingests && j.ingests[p].stage == Rechecked && !j.ingests[p].closed
    ensures var x := j.ingests[p];
      && Mark(j.marks, x.table).version == x.seenVersion && Mark(j.marks, x.table).cursor == x.seen
      && DoCommitRun(j, p, now) == Land(Put(j, p, x.(stage := Finished, closed := true)).(
           runs := SetStatus(j.runs, p, Success)), x.BatchKey(), Entry(p, x.seen, x.upper, x.valid, x.rejected))
  {
    hide Land, Mark, HoldsLease, SetStatus;
  }

  lemma CommitRunInv(j: State, p: nat, now: int)
    requires Inv(j)
    ensures Inv(DoCommitRun(j, p, now))
  {
    hide Inv, DoCommitRun, Mark, Land, SetStatus;
    if DoCommitRun(j, p, now) != j {
      CommitIsLand(j, p, now);
      var x := j.ingests[p];
      CatalogKeyNeverRefuses(j, p);
      FinishKeeps(j, p);
      var finished := Put(j, p, x.(stage := Finished, closed := true));
      var runs := SetStatus(j.runs, p, Success);
      IgnoresRuns(finished, runs);
      LandKeeps(finished.(runs := runs), x.BatchKey(), Entry(p, x.seen, x.upper, x.valid, x.rejected));
    }
  }

  // ---------------------------------------------------------------------------------------
  // Orphans
  // ---------------------------------------------------------------------------------------

  lemma IgnoresInspected(j: State, key: Key)
    requires Inv(j) && key in j.manifests && IsAttempt(j.ingests, j.manifests[key].run, key, ManifestStored)
    requires j.ingests[j.manifests[key].run].rejected == {}
    ensures Inv(j.(inspected := j.inspected + {key}))
  {
    hide VersionsOk, TenuresOk, EpochsAgree, SnapshotsOk, UploadsOk, CatalogOk, HistoryOk,
         RewindsOk, WithinReach, NothingLost, S.Inv, IsAttempt;
  }

  lemma NoRejectsFacts(p: nat, x: Ingest, data: map<Key, DataObject>, manifests: map<Key, Manifest>,
                       quarantine: map<Key, DataObject>)
    requires UploadOk(p, x, data, manifests, quarantine) && x.Passed(ManifestStored) && x.BatchKey() !in quarantine
    ensures x.rejected == {}
  {
  }

  /** No quarantine object under the batch means that the attempt rejected nothing. */
  lemma InspectOrphanInv(j: State, key: Key)
    requires Inv(j)
    ensures Inv(DoInspectOrphan(j, key))
  {
    hide Inv, VersionOk, TenureOk, SnapshotOk, EpochsAgree, UploadOk;
    if DoInspectOrphan(j, key) != j {
      StorageFacts(j);
      var p := j.manifests[key].run;
      IngestFacts(j, p);
      NoRejectsFacts(p, j.ingests[p], j.data, j.manifests, j.quarantine);
      IgnoresInspected(j, key);
    }
  }

  /** An inspected orphan is, object for object, what its attempt extracted. */
  lemma OrphanEntry(j: State, key: Key)
    requires Inv(j) && key in j.inspected && key in j.data && key in j.manifests
    ensures var f := j.manifests[key];
      EntryOk(key, Entry(f.run, f.before, f.upper, j.data[key].rows, {}), j.ingests)
  {
    hide Inv, VersionOk, TenureOk, SnapshotOk, EpochsAgree;
    StorageFacts(j);
    IngestFacts(j, j.manifests[key].run);
  }

  lemma ReconcileInv(j: State, key: Key)
    requires Inv(j)
    ensures Inv(DoReconcile(j, key))
  {
    hide Inv, Land, EntryOk, Mark, SetStatus;
    if DoReconcile(j, key) != j {
      var f := j.manifests[key];
      OrphanEntry(j, key);
      var runs := SetStatus(j.runs, f.run, Success);
      IgnoresRuns(j, runs);
      LandKeeps(j.(runs := runs), key, Entry(f.run, f.before, f.upper, j.data[key].rows, {}));
    }
  }

  // ---------------------------------------------------------------------------------------
  // Source steps
  // ---------------------------------------------------------------------------------------

  ghost predicate Extends1(sources: seq<S.Source>, later: seq<S.Source>) {
    |later| == |sources| + 1 && later[..|sources|] == sources
  }

  /** The source stands still, or one generator commits while no warehouse token is in force. */
  ghost predicate SourceMove(row: Row, issued: set<Token>, sources: seq<S.Source>,
                             row': Row, issued': set<Token>, sources': seq<S.Source>)
  {
    && issued <= issued' && row.version <= row'.version
    && (forall a :: a in issued ==> a.version <= row.version)
    && (sources' == sources ||
        (Extends1(sources, sources')
         && forall a :: a in issued && a.owner.kind.Warehouse? ==> a.version != row.version))
  }

  lemma OtherStepsKeepSources(s: S.State, step: S.Step)
    requires !step.CommitSource?
    ensures S.Apply(s, step).sources == s.sources
  {
    hide S.Forward, S.WritesAllowed;
  }

  lemma IssuedGrows(s: S.State, step: S.Step)
    ensures s.issued <= S.Apply(s, step).issued
  {
    hide S.Forward, S.WritesAllowed, S.ApplyAll;
  }

  /** A commit happens under a generator token that is still the token in force. */
  lemma CommitExcludesWarehouse(s: S.State, g: nat)
    requires S.Inv(s) && S.DoCommit(s, g).sources != s.sources
    ensures Extends1(s.sources, S.DoCommit(s, g).sources)
    ensures forall a :: a in s.issued && a.owner.kind.Warehouse? ==> a.version != s.row.version
  {
    S.InvFacts(s, g);
    assert S.LeaseOk(s);
  }

  lemma IssuedNotNewer(s: S.State)
    requires S.Inv(s)
    ensures forall a :: a in s.issued ==> a.version <= s.row.version
  {
    hide S.GensOk, S.SourcesOk, S.MarkersOk, S.RunsOk, S.EventsOk;
  }

  lemma SourceStepMoves(s: S.State, step: S.Step)
    requires S.Inv(s)
    ensures var t := S.Apply(s, step);
      SourceMove(s.row, s.issued, s.sources, t.row, t.issued, t.sources)
  {
    hide S.Inv, S.DoCommit, S.DoReuse, S.DoGeneratorAcquire, S.DoMarkerHit, S.DoMarkerMiss, S.DoRecordStart, S.DoOpen,
         S.DoEnterFence, S.DoLeaveFence, S.DoRecordSuccess, S.DoReturn, S.DoFail, S.DoCrash, S.DoAcquire, S.DoRenew,
         S.DoRelease, Extends1;
    S.VersionNeverDecreases(s, step);
    IssuedGrows(s, step);
    IssuedNotNewer(s);
    if step.CommitSource? {
      assert S.Apply(s, step) == S.DoCommit(s, step.g);
      if S.DoCommit(s, step.g).sources != s.sources {
        CommitExcludesWarehouse(s, step.g);
      }
    } else {
      OtherStepsKeepSources(s, step);
    }
  }

  lemma TenureStands(x: Ingest, row: Row, issued: set<Token>, sources: seq<S.Source>,
                     row': Row, issued': set<Token>, sources': seq<S.Source>)
    requires TenureOk(x, row, issued, sources) && SourceMove(row, issued, sources, row', issued', sources')
    ensures TenureOk(x, row', issued', sources')
  {
  }

  lemma RowsStand(sources: seq<S.Source>, later: seq<S.Source>, epoch: nat, t: Table)
    requires epoch < |sources| && (later == sources || Extends1(sources, later))
    ensures epoch < |later| && RowsAt(later, epoch, t) == RowsAt(sources, epoch, t)
  {
    assert later[epoch] == later[..|sources|][epoch];
  }

  lemma SnapshotStands(x: Ingest, sources: seq<S.Source>, later: seq<S.Source>, history: map<Table, seq<Event>>)
    requires SnapshotOk(x, sources, history) && (later == sources || Extends1(sources, later))
    ensures SnapshotOk(x, later, history)
  {
    hide Keyed, FetchUpperBound, InRange, RowsAt, Events, SeenOk, AfterRewind, RejectRateAccepted, Extends1;
    if x.Passed(Opened) {
      RowsStand(sources, later, x.epoch, x.table);
    }
  }

  lemma TargetStands(t: Table, boundary: int, epoch: nat, target: Position, sources: seq<S.Source>,
                     later: seq<S.Source>)
    requires TargetOk(t, boundary, epoch, target, sources) && (later == sources || Extends1(sources, later))
    ensures TargetOk(t, boundary, epoch, target, later)
  {
    hide Keyed, CursorBefore, RowsAt, Extends1;
    RowsStand(sources, later, epoch, t);
  }

  lemma AttemptsStand(j: State, src: S.State)
    requires Inv(j)
    requires SourceMove(j.src.row, j.src.issued, j.src.sources, src.row, src.issued, src.sources)
    ensures TenuresOk(j.ingests, src.row, src.issued, src.sources)
    ensures SnapshotsOk(j.ingests, src.sources, j.history)
  {
    hide Inv, TenureOk, SnapshotOk, VersionOk, UploadOk, EpochsAgree, Extends1;
    forall p | p in j.ingests
      ensures TenureOk(j.ingests[p], src.row, src.issued, src.sources)
      ensures SnapshotOk(j.ingests[p], src.sources, j.history)
    {
      IngestFacts(j, p);
      TenureStands(j.ingests[p], j.src.row, j.src.issued, j.src.sources, src.row, src.issued, src.sources);
      SnapshotStands(j.ingests[p], j.src.sources, src.sources, j.history);
    }
  }

  lemma RewindsStand(history: map<Table, seq<Event>>, rewinders: map<nat, Rewinder>, sources: seq<S.Source>,
                     later: seq<S.Source>)
    requires RewindsOk(history, rewinders, sources) && (later == sources || Extends1(sources, later))
    ensures RewindsOk(history, rewinders, later)
  {
    hide TargetOk, Events, Extends1;
    forall q | q in rewinders
      ensures TargetOk(rewinders[q].table, rewinders[q].boundary, rewinders[q].epoch, rewinders[q].target, later)
    {
      TargetStands(rewinders[q].table, rewinders[q].boundary, rewinders[q].epoch, rewinders[q].target, sources, later);
    }
    forall t, i | 0 <= i < |Events(history, t)| && Events(history, t)[i].Rewound?
      ensures TargetOk(t, Events(history, t)[i].boundary, Events(history, t)[i].epoch, Events(history, t)[i].to, later)
    {
      var e := Events(history, t)[i];
      TargetStands(t, e.boundary, e.epoch, e.to, sources, later);
    }
  }

  /** Whatever a commit adds lies above everything the watermark has reached. */
  lemma CoverageStands(marks: map<Table, Watermark>, catalog: map<Key, Entry>, sources: seq<S.Source>,
                       later: seq<S.Source>)
    requires WithinReach(marks, sources) && NothingLost(marks, catalog, sources)
    requires forall t :: Evolved(Now(sources, t), Now(later, t))
    ensures WithinReach(marks, later) && NothingLost(marks, catalog, later)
  {
    hide Mark, Now, Evolved, Landed, Reached, UpTo;
    forall t ensures Reached(Now(later, t), Mark(marks, t).cursor) {
      ReachedLater(Now(sources, t), Now(later, t), Mark(marks, t).cursor);
    }
    forall t, r | r in Now(later, t) && UpTo(r.cursor, Mark(marks, t).cursor) ensures Landed(catalog, t, r) {
      assert Reached(Now(sources, t), Mark(marks, t).cursor);
      OldAtOrBelow(Now(sources, t), Now(later, t), Mark(marks, t).cursor, r);
    }
  }

  lemma NowEvolves(sources: seq<S.Source>, s: S.State, t: Table)
    requires S.Inv(s) && sources != [] && (s.sources == sources || Extends1(sources, s.sources))
    ensures Evolved(Now(sources, t), Now(s.sources, t))
  {
    hide S.LeaseOk, S.GensOk, S.MarkersOk, S.RunsOk, S.EventsOk, S.SourceKeyed, S.SourceEvolved, Evolved;
    S.EvolvedBetween(s.sources, |sources| - 1, |s.sources| - 1, t);
    RowsStand(sources, s.sources, |sources| - 1, t);
  }

  lemma MoveOfSources(s: S.State, t: S.State)
    requires SourceMove(s.row, s.issued, s.sources, t.row, t.issued, t.sources)
    ensures t.sources == s.sources || Extends1(s.sources, t.sources)
  {
    hide Extends1;
  }

  lemma SourceMoveKeeps(j: State, src: S.State)
    requires Inv(j) && S.Inv(src) && j.src.sources != []
    requires SourceMove(j.src.row, j.src.issued, j.src.sources, src.row, src.issued, src.sources)
    ensures Inv(j.(src := src))
  {
    hide VersionsOk, TenuresOk, EpochsAgree, SnapshotsOk, UploadsOk, CatalogOk, StorageOk, HistoryOk, RewindsOk,
         WithinReach, NothingLost, S.Inv, Now, Evolved, Extends1, SourceMove;
    AttemptsStand(j, src);
    MoveOfSources(j.src, src);
    RewindsStand(j.history, j.rewinders, j.src.sources, src.sources);
    forall t ensures Evolved(Now(j.src.sources, t), Now(src.sources, t)) {
      NowEvolves(j.src.sources, src, t);
    }
    CoverageStands(j.marks, j.catalog, j.src.sources, src.sources);
  }

  lemma SourceStepInv(j: State, step: S.Step)
    requires Inv(j)
    ensures Inv(j.(src := S.Apply(j.src, step)))
  {
    var src := S.Apply(j.src, step);
    S.StepInv(j.src, step);
    SourceStepMoves(j.src, step);
    TableFacts(j, S.Customers);
    SourceMoveKeeps(j, src);
  }

  // ---------------------------------------------------------------------------------------
  // Every run
  // ---------------------------------------------------------------------------------------

  /** Every step of every process keeps the invariant. */
  lemma StepInv(j: State, step: Step)
    requires Inv(j)
    ensures Inv(Apply(j, step))
  {
    hide Inv, DoReadWatermark, DoLookUp, DoReuseBatch, DoCheckSource, DoLeaseForIngest, DoRenewLease, DoReleaseLease,
         DoOpenSnapshot, DoRegister, DoFinishNoData, DoExtract, DoVerify, DoStoreQuarantine, DoStoreData,
         DoStoreManifest, DoRecheck, DoCommitRun, DoFailRun, DoCrashRun, DoResolveRewind, DoLeaseForRewind,
         DoRewindMark, DoInspectOrphan, DoReconcile, S.Apply;
    match step
    case SourceStep(s) => SourceStepInv(j, s);
    case ReadWatermark(p, table, batch) => ReadWatermarkInv(j, p, table, batch);
    case LookUp(p) => LookUpInv(j, p);
    case ReuseBatch(p, sameSchema) => ReuseBatchInv(j, p, sameSchema);
    case CheckSource(p, token, now) => CheckSourceInv(j, p, token, now);
    case LeaseForIngest(p, now, ttl) => LeaseForIngestInv(j, p, now, ttl);
    case RenewLease(holder, table, version, now, ttl) => RenewLeaseInv(j, holder, table, version, now, ttl);
    case ReleaseLease(holder, table) => ReleaseLeaseInv(j, holder, table);
    case OpenSnapshot(p) => OpenSnapshotInv(j, p);
    case Register(p) => RegisterInv(j, p);
    case FinishNoData(p) => ClosingSteps(j, p);
    case Extract(p, valid, rejected) => ExtractInv(j, p, valid, rejected);
    case Verify(p, now) => VerifyInv(j, p, now);
    case StoreQuarantine(p) => StoreQuarantineInv(j, p);
    case StoreData(p) => StoreDataInv(j, p);
    case StoreManifest(p) => StoreManifestInv(j, p);
    case Recheck(p, now) => RecheckInv(j, p, now);
    case CommitRun(p, now) => CommitRunInv(j, p, now);
    case FailRun(p) => ClosingSteps(j, p);
    case CrashRun(p) => ClosingSteps(j, p);
    case ResolveRewind(q, table, boundary) => ResolveRewindInv(j, q, table, boundary);
    case LeaseForRewind(q, now, ttl) => LeaseForRewindInv(j, q, now, ttl);
    case RewindMark(q, now) => RewindMarkInv(j, q, now);
    case InspectOrphan(key) => InspectOrphanInv(j, key);
    case Reconcile(key) => ReconcileInv(j, key);
  }

  lemma {:induction false} ExecuteInv(j: State, steps: seq<Step>)
    requires Inv(j)
    ensures Inv(Execute(j, steps))
    decreases |steps|
  {
    hide Inv, Apply;
    if steps == [] {
    } else {
      StepInv(j, steps[0]);
      ExecuteInv(Apply(j, steps[0]), steps[1..]);
    }
  }
}
