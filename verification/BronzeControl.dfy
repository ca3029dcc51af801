/**
 The metadata tables of ingestion as their functions update them.

 Every method but the last is one database transaction on the watermark, run and catalog rows,
 with the checks in the order of the source and an error for each of them.  Commit, rewind and
 reconciliation are proved to be the transitions of `BronzeSystem`.  A refused transaction
 leaves every row as it was.
 */
module BronzeControl {
  import opened Cursors
  import opened Extraction
  import opened BronzeSystem
  import S = SourceSystem

  datatype ControlError =
    | LeaseUnavailable | LeaseOwnershipLost | RunNotRunning | WatermarkChanged | NotEarlier
    | RangeDiffers | AlreadyCataloged

  datatype Result<+T> = Ok(value: T) | Denied(error: ControlError)

  /** What a rewind reports for one table. */
  datatype RewindOutcome = RewindOutcome(table: Table, cursorBefore: Position, cursorAfter: Position,
                                         versionBefore: nat, versionAfter: nat)

  /** The last existing cursor of a table before the boundary. */
  function Target(source: S.Source, t: Table, boundary: int): Position
    requires Keyed(S.Rows(source, t))
  {
    CursorBefore(S.Rows(source, t), boundary)
  }

  /** One table of a rewind with the source state and the time it meets. */
  datatype Visit = Visit(table: Table, source: S.Source, now: int)

  ghost predicate VisitsKeyed(visits: seq<Visit>) {
    forall i :: 0 <= i < |visits| ==> Keyed(S.Rows(visits[i].source, visits[i].table))
  }

  /** The watermarks after the visits: each table moves to its target under a new version. */
  ghost function AfterVisits(was: map<Table, Watermark>, visits: seq<Visit>, boundary: int): map<Table, Watermark>
    requires VisitsKeyed(visits)
  {
    if visits == [] then was else
      var v := visits[|visits| - 1];
      var marks := AfterVisits(was, visits[..|visits| - 1], boundary);
      marks[v.table := Watermark(Target(v.source, v.table, boundary), Mark(marks, v.table).version + 1, Unheld)]
  }

  predicate SamePlace(m: Watermark, n: Watermark) {
    m.cursor == n.cursor && m.version == n.version
  }

  ghost predicate SamePlaces(marks: map<Table, Watermark>, later: map<Table, Watermark>) {
    forall t :: SamePlace(Mark(later, t), Mark(marks, t))
  }

  ghost predicate SameRows(marks: map<Table, Watermark>, later: map<Table, Watermark>) {
    forall t :: Mark(later, t) == Mark(marks, t)
  }

  function ReportOf(m: Watermark, v: Visit, boundary: int, dryRun: bool): RewindOutcome
    requires Keyed(S.Rows(v.source, v.table))
  {
    RewindOutcome(v.table, m.cursor, Target(v.source, v.table, boundary), m.version,
                  if dryRun then m.version else m.version + 1)
  }

  lemma ReportSays(m: Watermark, v: Visit, boundary: int, dryRun: bool)
    requires Keyed(S.Rows(v.source, v.table))
    ensures ReportOf(m, v, boundary, dryRun)
      == RewindOutcome(v.table, m.cursor, Target(v.source, v.table, boundary), m.version,
                       if dryRun then m.version else m.version + 1)
  {
  }

  /** Every report says where its visit found the table and where the visit put it. */
  ghost predicate Reports(outcomes: seq<RewindOutcome>, was: map<Table, Watermark>, visits: seq<Visit>, boundary: int,
                          dryRun: bool)
    requires VisitsKeyed(visits)
  {
    && |outcomes| == |visits|
    && forall i :: 0 <= i < |visits| ==>
         var marks := if dryRun then was else AfterVisits(was, visits[..i], boundary);
         outcomes[i] == ReportOf(Mark(marks, visits[i].table), visits[i], boundary, dryRun)
  }

  lemma NothingVisited(marks: map<Table, Watermark>, visits: seq<Visit>, boundary: int, dryRun: bool)
    requires VisitsKeyed(visits)
    ensures AfterVisits(marks, visits[..0], boundary) == marks && Reports([], marks, visits[..0], boundary, dryRun)
    ensures SameRows(marks, marks) && VisitsKeyed(visits[..0])
  {
  }

  lemma VisitKeyed(visits: seq<Visit>, i: nat)
    requires VisitsKeyed(visits) && i < |visits|
    ensures Keyed(S.Rows(visits[i].source, visits[i].table))
    ensures VisitsKeyed(visits[..i]) && VisitsKeyed(visits[..i + 1])
  {
    hide Keyed;
  }

  /** How often a table is visited. */
  function Visited(visits: seq<Visit>, t: Table): nat {
    if visits == [] then 0 else
      Visited(visits[..|visits| - 1], t) + if visits[|visits| - 1].table == t then 1 else 0
  }

  predicate IsLastVisit(visits: seq<Visit>, t: Table, i: nat) {
    && i < |visits| && visits[i].table == t
    && forall k :: i < k < |visits| ==> visits[k].table != t
  }

  lemma LastVisitStays(visits: seq<Visit>, n: nat, boundary: int, t: Table, p: Position)
    requires VisitsKeyed(visits) && n + 1 == |visits| && visits[n].table != t && VisitsKeyed(visits[..n])
    requires exists i: nat :: IsLastVisit(visits[..n], t, i) && p == Target(visits[..n][i].source, t, boundary)
    ensures exists i: nat :: IsLastVisit(visits, t, i) && p == Target(visits[i].source, t, boundary)
  {
    hide Target, Keyed;
    var i: nat :| IsLastVisit(visits[..n], t, i) && p == Target(visits[..n][i].source, t, boundary);
    assert IsLastVisit(visits, t, i);
  }

  /**
   Where the visits leave a table: an unvisited table is untouched, a visited one stands, free, at
   the target of its last visit, and its version counts its visits.
   */
  lemma {:induction false} VisitsLeave(was: map<Table, Watermark>, visits: seq<Visit>, boundary: int, t: Table)
    requires VisitsKeyed(visits)
    ensures var m := Mark(AfterVisits(was, visits, boundary), t);
      && m.version == Mark(was, t).version + Visited(visits, t)
      && (Visited(visits, t) == 0 ==> m == Mark(was, t))
      && (Visited(visits, t) > 0 ==>
            m.lease == Unheld
            && exists i: nat :: IsLastVisit(visits, t, i) && m.cursor == Target(visits[i].source, t, boundary))
  {
    hide Target, Keyed, VisitsKeyed;
    if visits == [] {
    } else {
      var n := |visits| - 1;
      VisitKeyed(visits, n);
      VisitsLeave(was, visits[..n], boundary, t);
      if visits[n].table == t {
        assert IsLastVisit(visits, t, n);
      } else if Visited(visits, t) > 0 {
        hide IsLastVisit;
        LastVisitStays(visits, n, boundary, t, Mark(AfterVisits(was, visits[..n], boundary), t).cursor);
      }
    }
  }

  /** Acquire, rewind and release of one table, taken together. */
  lemma RewindEffect(start: map<Table, Watermark>, leased: map<Table, Watermark>, moved: map<Table, Watermark>,
                     last: map<Table, Watermark>, t: Table, q: nat, target: Position, now: int, ttl: int,
                     rewound: Result<nat>)
    requires leased == start[t := Mark(start, t).(lease := HeldBy(Rewinding(q), now + ttl))] && ttl > 0
    requires rewound ==
      var m := Mark(leased, t);
      if m.version != Mark(start, t).version then Denied(WatermarkChanged)
      else if !Earlier(target, m.cursor) then Denied(NotEarlier)
      else if m.lease.Unheld? || m.lease.holder != Rewinding(q) || m.lease.expiresAt <= now
      then Denied(LeaseOwnershipLost)
      else Ok(m.version + 1)
    requires moved == if rewound.Denied? then leased else
      leased[t := Mark(leased, t).(cursor := target, version := Mark(leased, t).version + 1)]
    requires last == if Mark(moved, t).lease.HeldBy? && Mark(moved, t).lease.holder == Rewinding(q)
                     then moved[t := Mark(moved, t).(lease := Unheld)] else moved
    ensures forall u :: u != t ==> Mark(last, u) == Mark(start, u)
    ensures rewound.Ok? <==> Earlier(target, Mark(start, t).cursor)
    ensures rewound.Ok? ==>
      && rewound.value == Mark(start, t).version + 1
      && Mark(last, t) == Watermark(target, Mark(start, t).version + 1, Unheld)
    ensures rewound.Denied? ==> Mark(last, t) == Mark(start, t).(lease := Unheld)
  {
    hide Earlier;
  }

  lemma VisitFails(was: map<Table, Watermark>, start: map<Table, Watermark>, last: map<Table, Watermark>, t: Table)
    requires SameRows(was, start) && forall u :: u != t ==> Mark(last, u) == Mark(start, u)
    requires Mark(last, t) == Mark(start, t) || Mark(last, t) == Mark(start, t).(lease := Unheld)
    ensures SamePlaces(was, last)
  {
    hide Mark;
  }

  lemma SameRowsSamePlaces(marks: map<Table, Watermark>, later: map<Table, Watermark>)
    requires SameRows(marks, later)
    ensures SamePlaces(marks, later)
  {
    hide Mark;
  }

  /** Why a rewind stops at a visit: the lease is held by another holder, or the target is not earlier. */
  ghost predicate RewindRefused(was: map<Table, Watermark>, visits: seq<Visit>, i: nat, boundary: int, q: nat)
    requires VisitsKeyed(visits) && i < |visits| && VisitsKeyed(visits[..i])
  {
    var v, m := visits[i], Mark(AfterVisits(was, visits[..i], boundary), visits[i].table);
    || (m.lease.HeldBy? && m.lease.expiresAt > v.now && m.lease.holder != Rewinding(q))
    || !Earlier(Target(v.source, v.table, boundary), m.cursor)
  }

  lemma VisitRefused(was: map<Table, Watermark>, start: map<Table, Watermark>, visits: seq<Visit>, i: nat,
                     boundary: int, q: nat)
    requires VisitsKeyed(visits) && i < |visits| && VisitsKeyed(visits[..i])
    requires Keyed(S.Rows(visits[i].source, visits[i].table))
    requires SameRows(AfterVisits(was, visits[..i], boundary), start)
    requires var v, m := visits[i], Mark(start, visits[i].table);
      !(&& (m.lease.HeldBy? && m.lease.expiresAt > v.now ==> m.lease.holder == Rewinding(q))
        && Earlier(Target(v.source, v.table, boundary), m.cursor))
    ensures RewindRefused(was, visits, i, boundary, q)
  {
    hide Mark, Target, Keyed, Earlier, AfterVisits;
  }

  lemma OneMoreVisit(was: map<Table, Watermark>, visits: seq<Visit>, i: nat, boundary: int)
    requires VisitsKeyed(visits) && i < |visits| && VisitsKeyed(visits[..i]) && VisitsKeyed(visits[..i + 1])
    requires Keyed(S.Rows(visits[i].source, visits[i].table))
    ensures var marks, v := AfterVisits(was, visits[..i], boundary), visits[i];
      AfterVisits(was, visits[..i + 1], boundary)
        == marks[v.table := Watermark(Target(v.source, v.table, boundary), Mark(marks, v.table).version + 1, Unheld)]
  {
    hide Target, Keyed, Mark;
    assert visits[..i + 1][..i] == visits[..i];
  }

  /** One more table, rewound from where it stood. */
  lemma VisitSucceeds(was: map<Table, Watermark>, start: map<Table, Watermark>, last: map<Table, Watermark>,
                      visits: seq<Visit>, i: nat, boundary: int)
    requires VisitsKeyed(visits) && i < |visits| && VisitsKeyed(visits[..i]) && VisitsKeyed(visits[..i + 1])
    requires Keyed(S.Rows(visits[i].source, visits[i].table))
    requires SameRows(AfterVisits(was, visits[..i], boundary), start)
    requires forall u :: u != visits[i].table ==> Mark(last, u) == Mark(start, u)
    requires Mark(last, visits[i].table) == Watermark(Target(visits[i].source, visits[i].table, boundary),
                                                      Mark(start, visits[i].table).version + 1, Unheld)
    ensures SameRows(AfterVisits(was, visits[..i + 1], boundary), last)
  {
    hide Target, Keyed, AfterVisits;
    OneMoreVisit(was, visits, i, boundary);
  }

  lemma VisitReports(was: map<Table, Watermark>, start: map<Table, Watermark>, visits: seq<Visit>, i: nat,
                     boundary: int, dryRun: bool, outcomes: seq<RewindOutcome>)
    requires VisitsKeyed(visits) && i < |visits| && VisitsKeyed(visits[..i]) && VisitsKeyed(visits[..i + 1])
    requires Keyed(S.Rows(visits[i].source, visits[i].table))
    requires SameRows(if dryRun then was else AfterVisits(was, visits[..i], boundary), start)
    requires Reports(outcomes, was, visits[..i], boundary, dryRun)
    ensures Reports(outcomes + [ReportOf(Mark(start, visits[i].table), visits[i], boundary, dryRun)],
                    was, visits[..i + 1], boundary, dryRun)
  {
    hide Target, Keyed, Mark, AfterVisits, ReportOf;
    assert visits[..i + 1][..i] == visits[..i];
    assert forall k :: 0 <= k < i ==> visits[..i + 1][..k] == visits[..i][..k];
  }

  /** The rows under which an orphan may land. */
  predicate MayReconcile(marks: map<Table, Watermark>, runs: map<nat, RunRow>, catalog: map<Key, Entry>, key: Key,
                         f: Manifest)
  {
    && f.run in runs && runs[f.run].table == key.table && runs[f.run].status.Running?
    && runs[f.run].before == f.before && runs[f.run].upper == f.upper
    && Mark(marks, key.table).cursor == f.before && key !in catalog
  }

  lemma ReconcileLands(j: State, key: Key, f: Manifest, stored: DataObject)
    requires key in j.inspected && key in j.data && j.data[key] == stored
    requires key in j.manifests && j.manifests[key] == f && MayReconcile(j.marks, j.runs, j.catalog, key, f)
    ensures var m := Mark(j.marks, key.table);
      DoReconcile(j, key) == j.(
        catalog := j.catalog[key := Entry(f.run, f.before, f.upper, stored.rows, {})],
        runs := j.runs[f.run := j.runs[f.run].(status := Success)],
        marks := j.marks[key.table := m.(cursor := f.upper, version := m.version + 1)],
        history := j.history[key.table := Events(j.history, key.table) + [Advance(key.batch, m.cursor, f.upper)]])
  {
    hide Mark, Events;
  }

  lemma ReconcileStops(j: State, key: Key, f: Manifest)
    requires key in j.manifests && j.manifests[key] == f && !MayReconcile(j.marks, j.runs, j.catalog, key, f)
    ensures DoReconcile(j, key) == j
  {
    hide Mark;
  }

  class ControlTables {
    var marks: map<Table, Watermark>
    var runs: map<nat, RunRow>
    var catalog: map<Key, Entry>
    ghost var history: map<Table, seq<Event>>

    constructor (marks: map<Table, Watermark>, runs: map<nat, RunRow>, catalog: map<Key, Entry>,
                 ghost history: map<Table, seq<Event>>)
      ensures this.marks == marks && this.runs == runs && this.catalog == catalog && this.history == history
    {
      this.marks, this.runs, this.catalog, this.history := marks, runs, catalog, history;
    }

    /** The joint state with these tables in it; `rest` supplies source, storage and processes. */
    ghost function Joint(rest: State): State
      reads this
    {
      rest.(marks := marks, runs := runs, catalog := catalog, history := history)
    }

    // -------------------------------------------------------------------------------------
    // Table leases
    // -------------------------------------------------------------------------------------

    method AcquireTableLease(holder: Holder, t: Table, now: int, ttl: int) returns (r: Result<nat>)
      requires ttl > 0
      modifies `marks
      ensures var lease := Mark(old(marks), t).lease;
        (r.Ok? <==> (lease.HeldBy? && lease.expiresAt > now ==> lease.holder == holder))
      ensures r.Ok? ==>
        && r.value == Mark(old(marks), t).version
        && marks == old(marks)[t := Mark(old(marks), t).(lease := HeldBy(holder, now + ttl))]
      ensures r.Denied? ==> r.error == LeaseUnavailable && marks == old(marks)
    {
      var m := Mark(marks, t);
      if m.lease.HeldBy? && m.lease.expiresAt > now && m.lease.holder != holder {
        return Denied(LeaseUnavailable);
      }
      marks := marks[t := m.(lease := HeldBy(holder, now + ttl))];
      r := Ok(m.version);
    }

    method RenewTableLease(holder: Holder, t: Table, version: nat, now: int, ttl: int) returns (r: Result<int>)
      requires ttl > 0
      modifies `marks
      ensures r == Ok(now + ttl) || r == Denied(LeaseOwnershipLost)
      ensures var m := Mark(old(marks), t);
        (r.Ok? <==> m.lease.HeldBy? && m.lease.holder == holder && m.lease.expiresAt > now && m.version == version)
      ensures marks == if r.Denied? then old(marks)
                       else old(marks)[t := Mark(old(marks), t).(lease := HeldBy(holder, now + ttl))]
    {
      var m := Mark(marks, t);
      if !m.lease.HeldBy? || m.lease.holder != holder || m.lease.expiresAt <= now || m.version != version {
        return Denied(LeaseOwnershipLost);
      }
      marks := marks[t := m.(lease := HeldBy(holder, now + ttl))];
      r := Ok(now + ttl);
    }

    method AssertTableLease(holder: Holder, t: Table, version: nat, now: int) returns (r: Result<()>)
      ensures var m := Mark(marks, t);
        (r.Ok? <==> m.lease.HeldBy? && m.lease.holder == holder && m.lease.expiresAt > now && m.version == version)
      ensures r.Denied? ==> r.error == LeaseOwnershipLost
    {
      var m := Mark(marks, t);
      if !m.lease.HeldBy? || m.lease.holder != holder || m.lease.expiresAt <= now || m.version != version {
        return Denied(LeaseOwnershipLost);
      }
      r := Ok(());
    }

    method ReleaseTableLease(holder: Holder, t: Table) returns (r: Result<()>)
      modifies `marks
      ensures r.Ok? <==> Mark(old(marks), t).lease.HeldBy? && Mark(old(marks), t).lease.holder == holder
      ensures marks == if r.Denied? then old(marks) else old(marks)[t := Mark(old(marks), t).(lease := Unheld)]
    {
      var m := Mark(marks, t);
      if !m.lease.HeldBy? || m.lease.holder != holder {
        return Denied(LeaseOwnershipLost);
      }
      marks := marks[t := m.(lease := Unheld)];
      r := Ok(());
    }

    // -------------------------------------------------------------------------------------
    // Runs and commits
    // -------------------------------------------------------------------------------------

    /** Closes a RUNNING run without touching watermark or catalog. */
    method RecordEnd(p: nat, status: RunStatus) returns (r: Result<()>)
      modifies `runs
      ensures runs == SetStatus(old(runs), p, status)
      ensures r.Ok? <==> p in old(runs) && old(runs)[p].status.Running?
      ensures r.Ok? ==> runs == old(runs)[p := old(runs)[p].(status := status)]
      ensures r.Denied? ==> runs == old(runs) && r.error == RunNotRunning
    {
      if p !in runs || !runs[p].status.Running? {
        return Denied(RunNotRunning);
      }
      runs := runs[p := runs[p].(status := status)];
      r := Ok(());
    }

    /** Catalog entry, run status and watermark in one transaction. */
    method CommitTableRun(p: nat, x: Ingest, now: int, ghost rest: State) returns (r: Result<nat>)
      requires AtStage(rest, p, Rechecked) && rest.ingests[p] == x
      modifies this
      ensures r.Ok? ==>
        Joint(Put(rest, p, x.(stage := Finished, closed := true))) == DoCommitRun(old(Joint(rest)), p, now)
      ensures r.Denied? ==> Joint(rest) == old(Joint(rest)) == DoCommitRun(old(Joint(rest)), p, now)
      ensures var m := Mark(old(marks), x.table);
        r.Ok? <==>
          && m.lease.HeldBy? && m.lease.holder == Ingestion(p) && m.lease.expiresAt > now
          && p in old(runs) && old(runs)[p].status.Running?
          && m.version == x.seenVersion && m.cursor == x.seen
      ensures r.Ok? ==>
        var m := Mark(old(marks), x.table);
        && r.value == m.version + 1
        && catalog == old(catalog)[x.BatchKey() := Entry(p, x.seen, x.upper, x.valid, x.rejected)]
        && runs == old(runs)[p := old(runs)[p].(status := Success)]
        && marks == old(marks)[x.table := m.(cursor := x.upper, version := m.version + 1)]
      ensures r.Denied? ==>
        var m := Mark(old(marks), x.table);
        r.error == (if m.lease.Unheld? || m.lease.holder != Ingestion(p) || m.lease.expiresAt <= now
                    then LeaseOwnershipLost
                    else if p !in old(runs) || !old(runs)[p].status.Running? then RunNotRunning
                    else WatermarkChanged)
    {
      var m := Mark(marks, x.table);
      if !m.lease.HeldBy? || m.lease.holder != Ingestion(p) || m.lease.expiresAt <= now {
        return Denied(LeaseOwnershipLost);
      }
      if p !in runs || !runs[p].status.Running? {
        return Denied(RunNotRunning);
      }
      if m.version != x.seenVersion || m.cursor != x.seen {
        return Denied(WatermarkChanged);
      }
      catalog := catalog[x.BatchKey() := Entry(p, x.seen, x.upper, x.valid, x.rejected)];
      runs := runs[p := runs[p].(status := Success)];
      marks := marks[x.table := m.(cursor := x.upper, version := m.version + 1)];
      history := history[x.table := Events(history, x.table) + [Advance(x.batch, m.cursor, x.upper)]];
      r := Ok(m.version + 1);
    }

    method RewindWatermark(q: nat, w: Rewinder, now: int, ghost rest: State) returns (r: Result<nat>)
      requires q in rest.rewinders && rest.rewinders[q] == w && w.leased
      modifies `marks, `history
      ensures Joint(rest) == DoRewindMark(old(Joint(rest)), q, now)
      ensures r ==
        var m := Mark(old(marks), w.table);
        if m.version != w.leaseVersion then Denied(WatermarkChanged)
        else if !Earlier(w.target, m.cursor) then Denied(NotEarlier)
        else if m.lease.Unheld? || m.lease.holder != Rewinding(q) || m.lease.expiresAt <= now
        then Denied(LeaseOwnershipLost)
        else Ok(m.version + 1)
      ensures marks == if r.Denied? then old(marks) else
        old(marks)[w.table := Mark(old(marks), w.table).(cursor := w.target,
                                                         version := Mark(old(marks), w.table).version + 1)]
    {
      var m := Mark(marks, w.table);
      if m.version != w.leaseVersion {
        return Denied(WatermarkChanged);
      }
      if !Earlier(w.target, m.cursor) {
        return Denied(NotEarlier);
      }
      if !m.lease.HeldBy? || m.lease.holder != Rewinding(q) || m.lease.expiresAt <= now {
        return Denied(LeaseOwnershipLost);
      }
      marks := marks[w.table := m.(cursor := w.target, version := m.version + 1)];
      history := history[w.table := Events(history, w.table) + [Rewound(w.boundary, w.epoch, m.cursor, w.target)]];
      r := Ok(m.version + 1);
    }

    /** The metadata transaction of a reconciliation, after the storage side was inspected. */
    method ReconcileOrphan(key: Key, f: Manifest, stored: DataObject, ghost rest: State) returns (r: Result<nat>)
      requires key in rest.inspected && key in rest.data && rest.data[key] == stored
      requires key in rest.manifests && rest.manifests[key] == f
      modifies this
      ensures Joint(rest) == DoReconcile(old(Joint(rest)), key)
      ensures r.Ok? <==>
        && f.run in old(runs) && old(runs)[f.run].table == key.table && old(runs)[f.run].status.Running?
        && old(runs)[f.run].before == f.before && old(runs)[f.run].upper == f.upper
        && Mark(old(marks), key.table).cursor == f.before && key !in old(catalog)
      ensures r.Ok? ==>
        var m := Mark(old(marks), key.table);
        && r.value == m.version + 1
        && catalog == old(catalog)[key := Entry(f.run, f.before, f.upper, stored.rows, {})]
        && runs == old(runs)[f.run := old(runs)[f.run].(status := Success)]
        && marks == old(marks)[key.table := m.(cursor := f.upper, version := m.version + 1)]
      ensures r.Denied? ==> catalog == old(catalog) && marks == old(marks) && runs == old(runs)
      ensures r.Denied? ==>
        r.error == (if f.run !in old(runs) || old(runs)[f.run].table != key.table || !old(runs)[f.run].status.Running?
                    then RunNotRunning
                    else if old(runs)[f.run].before != f.before || old(runs)[f.run].upper != f.upper then RangeDiffers
                    else if Mark(old(marks), key.table).cursor != f.before then WatermarkChanged
                    else AlreadyCataloged)
    {
      hide Mark, Events, DoReconcile;
      ghost var start := Joint(rest);
      if MayReconcile(marks, runs, catalog, key, f) {
        ReconcileLands(start, key, f, stored);
      } else {
        ReconcileStops(start, key, f);
      }
      if f.run !in runs || runs[f.run].table != key.table || !runs[f.run].status.Running? {
        return Denied(RunNotRunning);
      }
      if runs[f.run].before != f.before || runs[f.run].upper != f.upper {
        return Denied(RangeDiffers);
      }
      var m := Mark(marks, key.table);
      if m.cursor != f.before {
        return Denied(WatermarkChanged);
      }
      if key in catalog {
        return Denied(AlreadyCataloged);
      }
      catalog := catalog[key := Entry(f.run, f.before, f.upper, stored.rows, {})];
      runs := runs[f.run := runs[f.run].(status := Success)];
      marks := marks[key.table := m.(cursor := f.upper, version := m.version + 1)];
      history := history[key.table := Events(history, key.table) + [Advance(key.batch, m.cursor, f.upper)]];
      r := Ok(m.version + 1);
    }

    // -------------------------------------------------------------------------------------
    // Rewinding several tables
    // -------------------------------------------------------------------------------------

    /** Acquires the lease of one table, rewinds it and releases the lease whatever happened. */
    method RewindTable(t: Table, target: Position, boundary: int, epoch: nat, q: nat, now: int, ttl: int,
                       ghost rest: State)
      returns (r: Result<nat>)
      requires ttl > 0
      modifies this
      ensures runs == old(runs) && catalog == old(catalog)
      ensures forall u :: u != t ==> Mark(marks, u) == Mark(old(marks), u)
      ensures var m := Mark(old(marks), t);
        (r.Ok? <==> && (m.lease.HeldBy? && m.lease.expiresAt > now ==> m.lease.holder == Rewinding(q))
                    && Earlier(target, m.cursor))
      ensures r.Ok? ==>
        && r.value == Mark(old(marks), t).version + 1
        && Mark(marks, t) == Watermark(target, Mark(old(marks), t).version + 1, Unheld)
      ensures r.Denied? ==>
        Mark(marks, t) == Mark(old(marks), t) || Mark(marks, t) == Mark(old(marks), t).(lease := Unheld)
    {
      hide *;
      ghost var start := marks;
      var lease := AcquireTableLease(Rewinding(q), t, now, ttl);
      if lease.Denied? {
        return Denied(lease.error);
      }
      var w := Rewinder(t, boundary, epoch, target, lease.value, true);
      ghost var during := rest.(rewinders := rest.rewinders[q := w]);
      ghost var leased := marks;
      r := RewindWatermark(q, w, now, during);
      ghost var moved := marks;
      var released := ReleaseTableLease(Rewinding(q), t);
      RewindEffect(start, leased, moved, marks, t, q, target, now, ttl, r);
    }

    /**
     Rewinds the tables one by one, each on the source state and at the time it meets; a table may
     be named twice.  On success the rows are those of `AfterVisits` and every table is reported.
     On an error the tables before the failing one stay rewound and the failing one keeps its
     cursor.  A dry run reports the same targets and writes nothing.
     */
    method RewindTables(visits: seq<Visit>, boundary: int, epoch: nat, q: nat, ttl: int, dryRun: bool,
                        ghost rest: State)
      returns (r: Result<seq<RewindOutcome>>, ghost done: nat)
      requires ttl > 0 && VisitsKeyed(visits)
      modifies this
      ensures done <= |visits| && runs == old(runs) && catalog == old(catalog)
      ensures dryRun ==> r.Ok? && marks == old(marks) && history == old(history)
      ensures VisitsKeyed(visits[..done])
      ensures !dryRun ==> SamePlaces(AfterVisits(old(marks), visits[..done], boundary), marks)
      ensures r.Ok? ==> done == |visits| && Reports(r.value, old(marks), visits, boundary, dryRun)
      ensures r.Ok? && !dryRun ==> SameRows(AfterVisits(old(marks), visits, boundary), marks)
      ensures r.Denied? ==> done < |visits| && RewindRefused(old(marks), visits, done, boundary, q)
    {
      hide *;
      var outcomes: seq<RewindOutcome> := [];
      var i := 0;
      done := 0;
      NothingVisited(marks, visits, boundary, dryRun);
      assert visits[..|visits|] == visits;
      while i < |visits|
        invariant i <= |visits| && done == i && runs == old(runs) && catalog == old(catalog)
        invariant dryRun ==> marks == old(marks) && history == old(history)
        invariant VisitsKeyed(visits[..i])
        invariant SameRows(if dryRun then old(marks) else AfterVisits(old(marks), visits[..i], boundary), marks)
        invariant Reports(outcomes, old(marks), visits[..i], boundary, dryRun)
      {
        VisitKeyed(visits, i);
        var v := visits[i];
        var target := Target(v.source, v.table, boundary);
        var before := Mark(marks, v.table);
        ghost var start := marks;
        VisitReports(old(marks), start, visits, i, boundary, dryRun, outcomes);
        ReportSays(before, v, boundary, dryRun);
        if dryRun {
          outcomes := outcomes + [RewindOutcome(v.table, before.cursor, target, before.version, before.version)];
        } else {
          var rewound := RewindTable(v.table, target, boundary, epoch, q, v.now, ttl, rest);
          if rewound.Denied? {
            VisitFails(AfterVisits(old(marks), visits[..i], boundary), start, marks, v.table);
            VisitRefused(old(marks), start, visits, i, boundary, q);
            return Denied(rewound.error), i;
          }
          VisitSucceeds(old(marks), start, marks, visits, i, boundary);
          outcomes := outcomes + [RewindOutcome(v.table, before.cursor, target, before.version, rewound.value)];
        }
        i, done := i + 1, i + 1;
      }
      if !dryRun {
        SameRowsSamePlaces(AfterVisits(old(marks), visits, boundary), marks);
      }
      r := Ok(outcomes);
    }
  }
}
