/**
 What the steps of the joint system need, and what nobody else can do.

 Each statement names the rows and fields that a transaction reads, in every state, reachable or
 not: which conditions let a commit, a reconciliation, a rewind or a lease check through, and which
 steps can change the lease of a table.
 */
module BronzeGuards {
  import opened Cursors
  import opened Extraction
  import opened SourceLease
  import opened BronzeSystem
  import opened BronzeSafety
  import G = BronzeGuarantees
  import S = SourceSystem

  // ---------------------------------------------------------------------------------------
  // Moves of a watermark
  // ---------------------------------------------------------------------------------------

  lemma LandRaises(j: State, key: Key, e: Entry)
    ensures Mark(Land(j, key, e).marks, key.table).version == Mark(j.marks, key.table).version + 1
  {
  }

  lemma LandKeepsLeases(j: State, key: Key, e: Entry, t: Table)
    ensures Mark(Land(j, key, e).marks, t).lease == Mark(j.marks, t).lease
  {
  }

  /** What an attempt that may commit finds in its rows. */
  predicate MayCommit(j: State, p: nat, now: int) {
    && p in j.ingests && j.ingests[p].stage == Rechecked && !j.ingests[p].closed
    && var x := j.ingests[p]; var m := Mark(j.marks, x.table);
    && m.lease.HeldBy? && m.lease.holder == Ingestion(p) && m.lease.expiresAt > now
    && p in j.runs && j.runs[p].status.Running?
    && m.version == x.seenVersion && m.cursor == x.seen
  }

  /** The transition of a commit that is let through. */
  function Committing(j: State, p: nat): State
    requires p in j.ingests
  {
    var x := j.ingests[p];
    Land(Put(j, p, x.(stage := Finished, closed := true)).(runs := SetStatus(j.runs, p, Success)),
         x.BatchKey(), Entry(p, x.seen, x.upper, x.valid, x.rejected))
  }

  /**
   The guards of the commit: an attempt commits exactly when it has passed its last checks, still
   holds the lease of its table by its own clock, its run is RUNNING and the watermark is the one
   it saw.
   */
  lemma CommitNeeds(j: State, p: nat, now: int)
    ensures MayCommit(j, p, now) ==> DoCommitRun(j, p, now) == Committing(j, p) != j
    ensures !MayCommit(j, p, now) ==> DoCommitRun(j, p, now) == j
  {
    hide Mark, Land, SetStatus;
    if p in j.ingests {
      var x := j.ingests[p];
      LandRaises(Put(j, p, x.(stage := Finished, closed := true)).(runs := SetStatus(j.runs, p, Success)),
                 x.BatchKey(), Entry(p, x.seen, x.upper, x.valid, x.rejected));
    }
  }

  /** What a reconciliation that may land finds in its rows. */
  predicate MayReconcile(j: State, key: Key) {
    && key in j.inspected && key in j.data && key in j.manifests && key !in j.catalog
    && var f := j.manifests[key];
    && f.run in j.runs && j.runs[f.run].table == key.table && j.runs[f.run].status.Running?
    && j.runs[f.run].before == f.before && j.runs[f.run].upper == f.upper
    && Mark(j.marks, key.table).cursor == f.before
  }

  function Reconciling(j: State, key: Key): State
    requires key in j.data && key in j.manifests
  {
    var f := j.manifests[key];
    Land(j.(runs := SetStatus(j.runs, f.run, Success)), key, Entry(f.run, f.before, f.upper, j.data[key].rows, {}))
  }

  /** The guards of the reconciliation, on the rows its transaction reads. */
  lemma ReconcileNeeds(j: State, key: Key)
    ensures MayReconcile(j, key) ==> DoReconcile(j, key) == Reconciling(j, key) != j
    ensures !MayReconcile(j, key) ==> DoReconcile(j, key) == j
  {
    hide Mark, Land, SetStatus;
    if key in j.data && key in j.manifests {
      var f := j.manifests[key];
      LandRaises(j.(runs := SetStatus(j.runs, f.run, Success)), key,
                 Entry(f.run, f.before, f.upper, j.data[key].rows, {}));
    }
  }

  /** What a rewind that may move the watermark finds: the leased version, a later cursor and its lease. */
  predicate MayRewind(j: State, q: nat, now: int) {
    && q in j.rewinders && j.rewinders[q].leased
    && var w := j.rewinders[q]; var m := Mark(j.marks, w.table);
    && m.version == w.leaseVersion && m.cursor.At?
    && (w.target.Initial? || Less(w.target.cursor, m.cursor.cursor))
    && m.lease.HeldBy? && m.lease.holder == Rewinding(q) && m.lease.expiresAt > now
  }

  lemma VersionMoves(marks: map<Table, Watermark>, t: Table, m: Watermark)
    requires m.version != Mark(marks, t).version
    ensures marks[t := m] != marks
  {
    assert Mark(marks[t := m], t) == m;
  }

  lemma RewindNeeds(j: State, q: nat, now: int)
    ensures MayRewind(j, q, now) ==>
      && DoRewindMark(j, q, now) != j
      && var t := j.rewinders[q].table; var m := Mark(j.marks, t);
         DoRewindMark(j, q, now).marks == j.marks[t := m.(cursor := j.rewinders[q].target, version := m.version + 1)]
    ensures !MayRewind(j, q, now) ==> DoRewindMark(j, q, now) == j
  {
    hide Mark, Events, Less;
    if MayRewind(j, q, now) {
      var t := j.rewinders[q].table;
      var m := Mark(j.marks, t);
      VersionMoves(j.marks, t, m.(cursor := j.rewinders[q].target, version := m.version + 1));
    }
  }

  /** What the three moves of a watermark do to the catalog. */
  lemma MovesCatalog(j: State, step: Step)
    requires G.MovesWatermark(step)
    ensures var k := Apply(j, step);
      match step
      case CommitRun(p, now) =>
        && (MayCommit(j, p, now) ==> k.catalog.Keys == j.catalog.Keys + {j.ingests[p].BatchKey()})
        && (!MayCommit(j, p, now) ==> k == j)
      case Reconcile(key) =>
        && (MayReconcile(j, key) ==> k.catalog.Keys == j.catalog.Keys + {key})
        && (!MayReconcile(j, key) ==> k == j)
      case _ => k.catalog == j.catalog
  {
    hide Mark, MayCommit, MayReconcile, SetStatus, DoCommitRun, DoReconcile, Events, Less, HoldsLease,
         DoReadWatermark, DoLookUp, DoReuseBatch, DoCheckSource, DoLeaseForIngest, DoOpenSnapshot,
         DoRegister, DoFinishNoData, DoExtract, DoVerify, DoStoreQuarantine, DoStoreData, DoStoreManifest, DoRecheck,
         DoFailRun, DoCrashRun, DoResolveRewind, DoLeaseForRewind, DoInspectOrphan, DoRenewLease, DoReleaseLease,
         S.Apply;
    match step
    case CommitRun(p, now) => CommitNeeds(j, p, now);
    case Reconcile(key) => ReconcileNeeds(j, key);
    case RewindMark(q, now) => NotRewinding(j, q, now);
    case _ =>
  }

  /**
   A catalog entry appears only in a commit under the lease of its table, for an attempt that saw
   the current watermark, or in the reconciliation of a RUNNING run at the current cursor.
   */
  lemma EntryNeeds(j: State, step: Step, key: Key)
    requires key !in j.catalog && key in Apply(j, step).catalog
    ensures step.CommitRun? || step.Reconcile?
    ensures step.CommitRun? ==> MayCommit(j, step.p, step.now) && j.ingests[step.p].BatchKey() == key
    ensures step.Reconcile? ==> MayReconcile(j, key) && step.key == key
  {
    hide Mark, MayCommit, MayReconcile, SetStatus, DoReadWatermark, DoLookUp, DoReuseBatch, DoCheckSource,
         DoLeaseForIngest, DoOpenSnapshot, DoRegister, DoFinishNoData, DoExtract, DoVerify, DoStoreQuarantine,
         DoStoreData, DoStoreManifest, DoRecheck, DoCommitRun, DoFailRun, DoCrashRun, DoResolveRewind,
         DoLeaseForRewind, DoRewindMark, DoInspectOrphan, DoReconcile, DoRenewLease, DoReleaseLease, S.Apply, Land;
    if !G.MovesWatermark(step) {
      G.OtherStepsKeepControl(j, step);
    } else {
      MovesCatalog(j, step);
    }
  }

  // ---------------------------------------------------------------------------------------
  // Checks against the leases
  // ---------------------------------------------------------------------------------------

  /** The attempt's token is that of the source lease, its table lease is still its own, and neither has expired. */
  predicate BothLeasesHeld(j: State, x: Ingest, p: nat, now: int) {
    var row, m := j.src.row, Mark(j.marks, x.table);
    && row.hold.Held? && row.hold.owner == x.token.owner && row.version == x.token.version && row.hold.expiresAt > now
    && m.lease.HeldBy? && m.lease.holder == Ingestion(p) && m.lease.expiresAt > now && m.version == x.leaseVersion
  }

  lemma CurrentNeeds(j: State, p: nat, now: int)
    requires p in j.ingests
    ensures LeasesCurrent(j, p, now) <==> BothLeasesHeld(j, j.ingests[p], p, now)
  {
    hide Mark;
    var row, token := j.src.row, j.ingests[p].token;
    assert CheckCurrent(row, token, now).Granted? <==>
      row.hold.Held? && row.hold.owner == token.owner && row.version == token.version && row.hold.expiresAt > now;
  }

  lemma StageMoves(j: State, p: nat, s: Stage)
    requires p in j.ingests && j.ingests[p].stage != s
    ensures Advanced(j, p, s) != j
  {
    assert Advanced(j, p, s).ingests[p].stage == s;
  }

  /** The check after the snapshot: both leases, and at most one rejected row in twenty. */
  lemma VerifyNeeds(j: State, p: nat, now: int)
    requires p in j.ingests
    ensures var x := j.ingests[p];
      var passes := x.stage == Extracted && !x.closed && BothLeasesHeld(j, x, p, now)
        && 20 * |x.rejected| <= |x.valid| + |x.rejected|;
      && (passes ==> DoVerify(j, p, now) == Put(j, p, x.(stage := Verified)) != j)
      && (!passes ==> DoVerify(j, p, now) == j)
  {
    hide LeasesCurrent, BothLeasesHeld;
    CurrentNeeds(j, p, now);
    if j.ingests[p].stage == Extracted {
      StageMoves(j, p, Verified);
    }
  }

  /** The last check before the commit: both leases. */
  lemma RecheckNeeds(j: State, p: nat, now: int)
    requires p in j.ingests
    ensures var x := j.ingests[p];
      var passes := x.stage == ManifestStored && !x.closed && BothLeasesHeld(j, x, p, now);
      && (passes ==> DoRecheck(j, p, now) == Put(j, p, x.(stage := Rechecked)) != j)
      && (!passes ==> DoRecheck(j, p, now) == j)
  {
    hide LeasesCurrent, BothLeasesHeld;
    CurrentNeeds(j, p, now);
    if j.ingests[p].stage == ManifestStored {
      StageMoves(j, p, Rechecked);
    }
  }

  /** The first check: an attempt goes on only with a warehouse token that is current at its own time. */
  lemma SourceCheckNeeds(j: State, p: nat, token: Token, now: int)
    requires DoCheckSource(j, p, token, now) != j
    ensures p in j.ingests && j.ingests[p].stage == Stage.Clear && token.owner.kind.Warehouse?
    ensures var row := j.src.row;
      row.hold.Held? && row.hold.owner == token.owner && row.version == token.version && row.hold.expiresAt > now
  {
  }

  // ---------------------------------------------------------------------------------------
  // Table leases
  // ---------------------------------------------------------------------------------------

  /** A lease is had when it is free, expired by the taker's clock, or already the taker's. */
  predicate IsFreeFor(lease: TableLease, holder: Holder, now: int) {
    lease.HeldBy? && lease.expiresAt > now ==> lease.holder == holder
  }

  /** The ways in which one step can change the lease of a table. */
  ghost predicate LeaseMove(j: State, step: Step, t: Table, lease: TableLease, later: TableLease) {
    match step
    case LeaseForIngest(p, now, ttl) =>
      && p in j.ingests && j.ingests[p].table == t && ttl > 0 && IsFreeFor(lease, Ingestion(p), now)
      && later == HeldBy(Ingestion(p), now + ttl)
    case LeaseForRewind(q, now, ttl) =>
      && q in j.rewinders && j.rewinders[q].table == t && ttl > 0 && IsFreeFor(lease, Rewinding(q), now)
      && later == HeldBy(Rewinding(q), now + ttl)
    case RenewLease(holder, table, version, now, ttl) =>
      && table == t && ttl > 0 && Mark(j.marks, t).version == version
      && lease.HeldBy? && lease.holder == holder && lease.expiresAt > now && later == HeldBy(holder, now + ttl)
    case ReleaseLease(holder, table) =>
      table == t && lease.HeldBy? && lease.holder == holder && later == Unheld
    case _ => false
  }

  predicate TouchesLease(step: Step) {
    step.LeaseForIngest? || step.LeaseForRewind? || step.RenewLease? || step.ReleaseLease?
  }

  lemma SetLeaseIs(j: State, k: State, u: Table, lease: TableLease, t: Table)
    requires k.marks == j.marks
    ensures Mark(SetLease(k, u, lease).marks, t).lease == if t == u then lease else Mark(j.marks, t).lease
  {
  }

  lemma IngestLeaseMoves(j: State, p: nat, now: int, ttl: int, t: Table)
    ensures var later := Mark(DoLeaseForIngest(j, p, now, ttl).marks, t).lease;
      later == Mark(j.marks, t).lease || LeaseMove(j, LeaseForIngest(p, now, ttl), t, Mark(j.marks, t).lease, later)
  {
    hide Mark, SetLease;
    if DoLeaseForIngest(j, p, now, ttl) != j {
      var x := j.ingests[p];
      SetLeaseIs(j, Put(j, p, x.(stage := Leased, leaseVersion := Mark(j.marks, x.table).version)), x.table,
                 HeldBy(Ingestion(p), now + ttl), t);
    }
  }

  lemma RewindLeaseMoves(j: State, q: nat, now: int, ttl: int, t: Table)
    ensures var later := Mark(DoLeaseForRewind(j, q, now, ttl).marks, t).lease;
      later == Mark(j.marks, t).lease || LeaseMove(j, LeaseForRewind(q, now, ttl), t, Mark(j.marks, t).lease, later)
  {
    hide Mark, SetLease;
    if DoLeaseForRewind(j, q, now, ttl) != j {
      var w := j.rewinders[q];
      var k := j.(rewinders := j.rewinders[q := w.(leased := true, leaseVersion := Mark(j.marks, w.table).version)]);
      SetLeaseIs(j, k, w.table, HeldBy(Rewinding(q), now + ttl), t);
    }
  }

  lemma RenewalMoves(j: State, holder: Holder, u: Table, version: nat, now: int, ttl: int, t: Table)
    ensures var later := Mark(DoRenewLease(j, holder, u, version, now, ttl).marks, t).lease;
      || later == Mark(j.marks, t).lease
      || LeaseMove(j, RenewLease(holder, u, version, now, ttl), t, Mark(j.marks, t).lease, later)
  {
    hide Mark, SetLease;
    SetLeaseIs(j, j, u, HeldBy(holder, now + ttl), t);
  }

  lemma ReleaseMoves(j: State, holder: Holder, u: Table, t: Table)
    ensures var later := Mark(DoReleaseLease(j, holder, u).marks, t).lease;
      later == Mark(j.marks, t).lease || LeaseMove(j, ReleaseLease(holder, u), t, Mark(j.marks, t).lease, later)
  {
    hide Mark, SetLease;
    SetLeaseIs(j, j, u, Unheld, t);
  }

  lemma MayCommitAttempt(j: State, p: nat, now: int)
    requires MayCommit(j, p, now)
    ensures p in j.ingests
  {
  }

  lemma ReconcilableObject(j: State, key: Key)
    requires MayReconcile(j, key)
    ensures key in j.data && key in j.manifests
  {
  }

  lemma CursorKeepsLease(marks: map<Table, Watermark>, u: Table, cursor: Position, t: Table)
    ensures var m := Mark(marks, u);
      Mark(marks[u := m.(cursor := cursor, version := m.version + 1)], t).lease == Mark(marks, t).lease
  {
  }

  lemma MovesKeepLeases(j: State, step: Step, t: Table)
    requires G.MovesWatermark(step)
    ensures Mark(Apply(j, step).marks, t).lease == Mark(j.marks, t).lease
  {
    hide Mark, Land, SetStatus, MayCommit, MayReconcile, MayRewind, DoCommitRun, DoReconcile, DoRewindMark,
         DoReadWatermark, DoLookUp, DoReuseBatch, DoCheckSource, DoLeaseForIngest, DoOpenSnapshot,
         DoRegister, DoFinishNoData, DoExtract, DoVerify, DoStoreQuarantine, DoStoreData, DoStoreManifest, DoRecheck,
         DoFailRun, DoCrashRun, DoResolveRewind, DoLeaseForRewind, DoInspectOrphan, DoRenewLease, DoReleaseLease,
         S.Apply;
    match step
    case CommitRun(p, now) =>
      CommitNeeds(j, p, now);
      if MayCommit(j, p, now) {
        MayCommitAttempt(j, p, now);
        var x := j.ingests[p];
        LandKeepsLeases(Put(j, p, x.(stage := Finished, closed := true)).(runs := SetStatus(j.runs, p, Success)),
                        x.BatchKey(), Entry(p, x.seen, x.upper, x.valid, x.rejected), t);
      }
    case Reconcile(key) =>
      ReconcileNeeds(j, key);
      if DoReconcile(j, key) != j {
        ReconcilableObject(j, key);
        var f := j.manifests[key];
        LandKeepsLeases(j.(runs := SetStatus(j.runs, f.run, Success)), key,
                        Entry(f.run, f.before, f.upper, j.data[key].rows, {}), t);
      }
    case RewindMark(q, now) =>
      RewindNeeds(j, q, now);
      if q in j.rewinders {
        CursorKeepsLease(j.marks, j.rewinders[q].table, j.rewinders[q].target, t);
      } else {
        NotRewinding(j, q, now);
      }
    case _ =>
  }

  /**
   Table leases are not stolen: the lease of a table changes only when somebody takes it while it is
   free, expired by his clock or his own, when its live holder renews it, or when its holder gives
   it up; and each grant ends exactly `ttl` after the time it was asked at.
   */
  lemma LeaseMovesOnlySo(j: State, step: Step, t: Table)
    ensures var lease, later := Mark(j.marks, t).lease, Mark(Apply(j, step).marks, t).lease;
      later == lease || LeaseMove(j, step, t, lease, later)
  {
    hide Mark, LeaseMove, DoReadWatermark, DoLookUp, DoReuseBatch, DoCheckSource, DoLeaseForIngest, DoOpenSnapshot,
         DoRegister, DoFinishNoData, DoExtract, DoVerify, DoStoreQuarantine, DoStoreData, DoStoreManifest, DoRecheck,
         DoCommitRun, DoFailRun, DoCrashRun, DoResolveRewind, DoLeaseForRewind, DoRewindMark, DoInspectOrphan,
         DoReconcile, DoRenewLease, DoReleaseLease, S.Apply;
    if G.MovesWatermark(step) {
      MovesKeepLeases(j, step, t);
    } else {
      match step
      case LeaseForIngest(p, now, ttl) => IngestLeaseMoves(j, p, now, ttl, t);
      case LeaseForRewind(q, now, ttl) => RewindLeaseMoves(j, q, now, ttl, t);
      case RenewLease(holder, u, version, now, ttl) => RenewalMoves(j, holder, u, version, now, ttl, t);
      case ReleaseLease(holder, u) => ReleaseMoves(j, holder, u, t);
      case _ =>
    }
  }

  lemma SetLeaseKeepsAttempts(j: State, t: Table, lease: TableLease)
    ensures SetLease(j, t, lease).ingests == j.ingests && SetLease(j, t, lease).rewinders == j.rewinders
  {
    hide Mark;
  }

  /** And an attempt that may have its table lease gets it. */
  lemma FreeLeaseIsHadForIngest(j: State, p: nat, now: int, ttl: int)
    requires p in j.ingests && j.ingests[p].stage == Checked && !j.ingests[p].closed && ttl > 0
    requires IsFreeFor(Mark(j.marks, j.ingests[p].table).lease, Ingestion(p), now)
    ensures var t, k := j.ingests[p].table, DoLeaseForIngest(j, p, now, ttl);
      && Mark(k.marks, t).lease == HeldBy(Ingestion(p), now + ttl) && p in k.ingests && k.ingests[p].stage == Leased
      && k.ingests[p].leaseVersion == Mark(j.marks, t).version
  {
    hide Mark, SetLease;
    var x := j.ingests[p];
    var leased := Put(j, p, x.(stage := Leased, leaseVersion := Mark(j.marks, x.table).version));
    SetLeaseIs(j, leased, x.table, HeldBy(Ingestion(p), now + ttl), x.table);
    SetLeaseKeepsAttempts(leased, x.table, HeldBy(Ingestion(p), now + ttl));
  }

  /** So does a rewind. */
  lemma FreeLeaseIsHadForRewind(j: State, q: nat, now: int, ttl: int)
    requires q in j.rewinders && !j.rewinders[q].leased && ttl > 0
    requires IsFreeFor(Mark(j.marks, j.rewinders[q].table).lease, Rewinding(q), now)
    ensures var t, k := j.rewinders[q].table, DoLeaseForRewind(j, q, now, ttl);
      && Mark(k.marks, t).lease == HeldBy(Rewinding(q), now + ttl) && q in k.rewinders && k.rewinders[q].leased
      && k.rewinders[q].leaseVersion == Mark(j.marks, t).version
  {
    hide Mark, SetLease;
    var w := j.rewinders[q];
    var leased := j.(rewinders := j.rewinders[q := w.(leased := true, leaseVersion := Mark(j.marks, w.table).version)]);
    SetLeaseIs(j, leased, w.table, HeldBy(Rewinding(q), now + ttl), w.table);
    SetLeaseKeepsAttempts(leased, w.table, HeldBy(Rewinding(q), now + ttl));
  }
}
