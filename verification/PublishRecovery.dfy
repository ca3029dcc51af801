/**
 The recovery pass that starts every publication, run to its end.

 The pass first closes the BUILDING rows of the same DAG run, then reads the stale rows and
 closes them one by one, cleaning up the files of every row it closed.  The method carries out
 the transitions of `Publish` in that order and is proved to close each row as it should.
 */
module PublishRecovery {
  import opened Publish

  /** A reclaimed row ends FAILED, a stale active one as its swap demands, and any other as it was. */
  predicate IsRecoveredTo(s: State, reclaim: Option<nat>, stale: set<RunId>, r: RunId, status: Status)
    requires r in s.rows
  {
    var row := s.rows[r];
    && (row.status == Building && reclaim == Some(row.dagRun) ==> status == Failed)
    && ((row.status == Building && reclaim != Some(row.dagRun)) || row.status == Publishing ==>
          status == if r !in stale then row.status else if r in s.swaps then Published else Failed)
    && (row.status == Published || row.status == Failed ==> status == row.status)
  }

  /** A BUILDING row of the DAG run, or a stale active one. */
  predicate Recovers(s: State, reclaim: Option<nat>, stale: set<RunId>, r: RunId)
    requires r in s.rows
  {
    var row := s.rows[r];
    || (row.status == Building && reclaim == Some(row.dagRun))
    || ((row.status == Building || row.status == Publishing) && r in stale)
  }

  /** The liveness assumption: no run that looks stale is between its status check and its swap. */
  ghost predicate NoneAboutToSwap(s: State, stale: set<RunId>) {
    forall r :: r in stale ==> !IsAt(s, r, Marked)
  }

  ghost predicate Ordered(s: State, order: seq<RunId>) {
    && (forall r :: r in order <==> r in s.rows)
    && (forall i, k :: 0 <= i < k < |order| ==> order[i] != order[k])
  }

  /** Rows that keep what a recovery does not decide. */
  predicate SameRun(a: Row, b: Row) {
    b.dagRun == a.dagRun && b.identity == a.identity && b.tested == a.tested && b.previous == a.previous
  }

  /** Row `r` was closed as its swap demands, its build file is gone and nothing else changed. */
  ghost predicate StaleClosed(s: State, k: State, r: RunId)
    requires r in s.rows
  {
    && Inv(k) && k.file == s.file && k.swaps == s.swaps && k.places == s.places
    && k.rows.Keys == s.rows.Keys && (forall t :: t in s.rows && t != r ==> k.rows[t] == s.rows[t])
    && SameRun(s.rows[r], k.rows[r]) && k.rows[r].status == (if r in s.swaps then Published else Failed)
    && k.builds.Keys <= s.builds.Keys - {r}
  }

  lemma ClaimSeesSwap(s: State, r: RunId)
    requires Inv(s) && r in s.rows && IsActive(s.rows[r])
    ensures var row := s.rows[r];
      (row.status.Publishing? && row.identity.Some? && s.file == row.identity) <==> r in s.swaps
  {
    RunFacts(s, r);
    if s.rows[r].status.Publishing? {
      IdentityTellsSwap(s, r);
    }
    hide Inv;
  }

  /** What a recovery reads of a run that is not about to swap holds when it closes the row at once. */
  lemma FreshClaimIsSound(s: State, r: RunId)
    requires Inv(s) && r in s.rows && IsActive(s.rows[r]) && !IsAt(s, r, Marked)
    ensures var k := DoReadStale(s, 0, r);
      && ClosesSoundly(k, 0) && k.rows == s.rows && k.file == s.file && k.swaps == s.swaps && k.places == s.places
      && k.builds == s.builds && 0 in k.claims && k.claims[0].run == r && (k.claims[0].published <==> r in s.swaps)
  {
    hide Inv;
    ClaimSeesSwap(s, r);
    if s.rows[r].status.Publishing? {
      IdentityTellsSwap(s, r);
    }
  }

  lemma StaleRunCloses(s: State, r: RunId)
    requires Inv(s) && r in s.rows && !IsAt(s, r, Marked)
    ensures IsActive(s.rows[r]) ==> StaleClosed(s, DoCleanUp(DoCloseStale(DoReadStale(s, 0, r), 0), r), r)
  {
    hide Inv, DoReadStale, ClosesSoundly;
    if IsActive(s.rows[r]) {
      FreshClaimIsSound(s, r);
      ReadStaleInv(s, 0, r);
      var read := DoReadStale(s, 0, r);
      CloseStaleInv(read, 0);
      CleanUpInv(DoCloseStale(read, 0), r);
    }
  }

  /** The rows a reclaim closes, in listing order. */
  function Reclaimed(s: State, order: seq<RunId>, dagRun: nat): seq<RunId> {
    if order == [] then [] else
      var r := order[|order| - 1];
      Reclaimed(s, order[..|order| - 1], dagRun)
        + (if r in s.rows && s.rows[r].status.Building? && s.rows[r].dagRun == dagRun then [r] else [])
  }

  lemma {:induction false} ReclaimedAre(s: State, order: seq<RunId>, dagRun: nat)
    ensures forall r :: r in Reclaimed(s, order, dagRun) <==>
      r in order && r in s.rows && s.rows[r].status.Building? && s.rows[r].dagRun == dagRun
  {
    if order == [] {
    } else {
      ReclaimedAre(s, order[..|order| - 1], dagRun);
      assert order == order[..|order| - 1] + [order[|order| - 1]];
    }
  }

  /** The row a reclaim leaves behind. */
  function AfterReclaim(row: Row, reclaim: Option<nat>): Row {
    if row.status.Building? && reclaim == Some(row.dagRun) then row.(status := Failed, closedWhileBuilding := true)
    else row
  }

  predicate RowAt(start: State, reclaim: Option<nat>, stale: set<RunId>, row: Row, r: RunId, done: bool)
    requires r in start.rows
  {
    && SameRun(start.rows[r], row)
    && (if done then IsRecoveredTo(start, reclaim, stale, r, row.status)
        else row == AfterReclaim(start.rows[r], reclaim))
  }

  predicate ClosedSoFar(start: State, reclaim: Option<nat>, stale: set<RunId>, r: RunId, done: bool)
    requires r in start.rows
  {
    if start.rows[r].status.Building? && reclaim == Some(start.rows[r].dagRun) then true
    else done && IsActive(start.rows[r]) && r in stale
  }

  /** The pass between two rows: `done` rows have their final status, the others what the reclaim left. */
  ghost predicate PassAt(start: State, reclaim: Option<nat>, stale: set<RunId>, s: State, done: seq<RunId>,
                         recovered: seq<RunId>)
  {
    && Inv(s) && NoneAboutToSwap(start, stale)
    && s.file == start.file && s.swaps == start.swaps && s.places == start.places && s.rows.Keys == start.rows.Keys
    && (forall r :: r in start.rows ==> RowAt(start, reclaim, stale, s.rows[r], r, r in done))
    && (forall r :: r in recovered <==> r in start.rows && ClosedSoFar(start, reclaim, stale, r, r in done))
    && (forall r :: r in recovered ==> r !in s.builds)
  }

  lemma PassStarts(start: State, stale: set<RunId>)
    requires Inv(start) && NoneAboutToSwap(start, stale)
    ensures PassAt(start, None, stale, start, [], [])
  {
    hide Inv;
  }

  lemma PassReclaims(start: State, dagRun: nat, stale: set<RunId>, s: State, recovered: seq<RunId>)
    requires Inv(s) && NoneAboutToSwap(start, stale)
    requires s.file == start.file && s.swaps == start.swaps && s.places == start.places
    requires s.rows == DoReclaim(start, dagRun).rows
    requires forall r :: r in recovered <==>
      r in start.rows && start.rows[r].status.Building? && start.rows[r].dagRun == dagRun
    requires forall r :: r in recovered ==> r !in s.builds
    ensures PassAt(start, Some(dagRun), stale, s, [], recovered)
  {
    hide Inv;
  }

  lemma PassVisits(start: State, reclaim: Option<nat>, stale: set<RunId>, s: State, order: seq<RunId>, i: nat,
                   recovered: seq<RunId>)
    requires i < |order| && PassAt(start, reclaim, stale, s, order[..i], recovered) && Ordered(start, order)
    ensures var r := order[i];
      && Inv(s) && r in s.rows && r in start.rows && r !in order[..i]
      && s.rows[r] == AfterReclaim(start.rows[r], reclaim)
      && (r in stale ==> !IsAt(s, r, Marked))
  {
    hide Inv;
    var r := order[i];
    assert r in start.rows && r !in order[..i];
    assert RowAt(start, reclaim, stale, s.rows[r], r, false);
  }

  lemma PassCloses(start: State, reclaim: Option<nat>, stale: set<RunId>, s: State, k: State, done: seq<RunId>,
                   r: RunId, recovered: seq<RunId>)
    requires PassAt(start, reclaim, stale, s, done, recovered) && r in start.rows && r !in done && r in stale
    requires r in s.rows && s.rows[r] == AfterReclaim(start.rows[r], reclaim) && IsActive(s.rows[r])
    requires StaleClosed(s, k, r)
    ensures PassAt(start, reclaim, stale, k, done + [r], recovered + [r])
  {
    hide Inv;
    assert RowAt(start, reclaim, stale, k.rows[r], r, true);
    assert ClosedSoFar(start, reclaim, stale, r, true);
    hide RowAt, ClosedSoFar, IsRecoveredTo, AfterReclaim, IsActive;
    assert forall t :: t in done + [r] <==> t in done || t == r;
    assert forall t :: t in recovered + [r] <==> t in recovered || t == r;
  }

  lemma PassSkips(start: State, reclaim: Option<nat>, stale: set<RunId>, s: State, done: seq<RunId>, r: RunId,
                  recovered: seq<RunId>)
    requires PassAt(start, reclaim, stale, s, done, recovered) && r in start.rows && r !in done
    requires r in s.rows && s.rows[r] == AfterReclaim(start.rows[r], reclaim)
    requires r !in stale || !IsActive(s.rows[r])
    ensures PassAt(start, reclaim, stale, s, done + [r], recovered)
  {
    hide Inv;
    assert RowAt(start, reclaim, stale, s.rows[r], r, true);
    assert ClosedSoFar(start, reclaim, stale, r, true) == ClosedSoFar(start, reclaim, stale, r, false);
    hide RowAt, ClosedSoFar, IsRecoveredTo, AfterReclaim, IsActive;
    assert forall t :: t in done + [r] <==> t in done || t == r;
  }

  lemma PassEnds(start: State, reclaim: Option<nat>, stale: set<RunId>, s: State, order: seq<RunId>,
                 recovered: seq<RunId>)
    requires PassAt(start, reclaim, stale, s, order, recovered) && Ordered(start, order)
    ensures Inv(s) && s.file == start.file && s.swaps == start.swaps && s.places == start.places
    ensures s.rows.Keys == start.rows.Keys
    ensures forall r :: r in s.rows ==>
      SameRun(start.rows[r], s.rows[r]) && IsRecoveredTo(start, reclaim, stale, r, s.rows[r].status)
    ensures forall r :: r in recovered <==> r in start.rows && Recovers(start, reclaim, stale, r)
    ensures forall r :: r in recovered ==> r !in s.builds
  {
    hide Inv;
    forall r | r in start.rows
      ensures SameRun(start.rows[r], s.rows[r]) && IsRecoveredTo(start, reclaim, stale, r, s.rows[r].status)
      ensures ClosedSoFar(start, reclaim, stale, r, true) == Recovers(start, reclaim, stale, r)
    {
      assert RowAt(start, reclaim, stale, s.rows[r], r, true);
    }
  }

  class Warehouse {
    var state: State

    constructor (state: State)
      ensures this.state == state
    {
      this.state := state;
    }

    /** Closes one stale row and cleans up its files. */
    method CloseStaleRun(r: RunId) returns (closed: bool)
      requires Inv(state) && r in state.rows
      requires !IsAt(state, r, Marked)
      modifies this
      ensures closed == IsActive(old(state).rows[r])
      ensures if closed then StaleClosed(old(state), state, r) else state == old(state)
    {
      hide *;
      var active := IsActive(state.rows[r]);
      StaleRunCloses(state, r);
      if !active {
        return false;
      }
      state := DoReadStale(state, 0, r);
      state := DoCloseStale(state, 0);
      state := DoCleanUp(state, r);
      closed := true;
    }

    /** Closes the BUILDING rows of a DAG run and cleans up their files. */
    method ReclaimDagRun(dagRun: nat, order: seq<RunId>) returns (recovered: seq<RunId>)
      requires Inv(state) && Ordered(state, order)
      modifies this
      ensures Inv(state)
      ensures state.file == old(state).file && state.swaps == old(state).swaps && state.places == old(state).places
      ensures state.rows == DoReclaim(old(state), dagRun).rows
      ensures state.rows.Keys == old(state).rows.Keys
      ensures forall r :: r in state.rows ==>
        var row := old(state).rows[r];
        if row.status == Building && row.dagRun == dagRun
        then state.rows[r].status == Failed && SameRun(row, state.rows[r])
        else state.rows[r] == row
      ensures forall r :: r in recovered <==>
        r in old(state).rows && old(state).rows[r].status.Building? && old(state).rows[r].dagRun == dagRun
      ensures forall r :: r in recovered ==> r !in state.builds
    {
      hide Inv, RunOk;
      ghost var start := state;
      ReclaimInv(state, dagRun);
      var reclaimed := Reclaimed(state, order, dagRun);
      ReclaimedAre(state, order, dagRun);
      state := DoReclaim(state, dagRun);
      recovered := [];
      for i := 0 to |reclaimed|
        invariant Inv(state) && state.rows == DoReclaim(start, dagRun).rows
        invariant state.file == start.file && state.swaps == start.swaps && state.places == start.places
        invariant recovered == reclaimed[..i]
        invariant forall r :: r in recovered ==> r !in state.builds
      {
        CleanUpInv(state, reclaimed[i]);
        state := DoCleanUp(state, reclaimed[i]);
        recovered := recovered + [reclaimed[i]];
      }
    }

    /**
     The whole pass, with nobody else interfering.  Every BUILDING row of the DAG run is
     closed as FAILED, every stale row as PUBLISHED exactly when its file was swapped in, all
     other rows stay, and the result lists the runs that were closed, whose build files are gone.
     */
    method RecoverIncompletePublishes(reclaim: Option<nat>, order: seq<RunId>, stale: set<RunId>)
      returns (recovered: seq<RunId>)
      requires Inv(state) && Ordered(state, order) && NoneAboutToSwap(state, stale)
      modifies this
      ensures Inv(state)
      ensures state.file == old(state).file && state.swaps == old(state).swaps && state.places == old(state).places
      ensures state.rows.Keys == old(state).rows.Keys
      ensures forall r :: r in state.rows ==>
        && SameRun(old(state).rows[r], state.rows[r])
        && IsRecoveredTo(old(state), reclaim, stale, r, state.rows[r].status)
      ensures forall r :: r in recovered <==>
        && r in old(state).rows
        && var row := old(state).rows[r];
        && (|| (row.status == Building && reclaim == Some(row.dagRun))
            || ((row.status == Building || row.status == Publishing) && r in stale))
      ensures forall r :: r in recovered ==> r !in state.builds
    {
      hide Inv, PassAt, NoneAboutToSwap, StaleClosed, SameRun, IsRecoveredTo, DoReclaim, AfterReclaim, IsActive, IsAt;
      recovered := [];
      ghost var start := state;
      PassStarts(start, stale);
      if reclaim.Some? {
        recovered := ReclaimDagRun(reclaim.value, order);
        PassReclaims(start, reclaim.value, stale, state, recovered);
      }
      assert order[..0] == [];
      for i := 0 to |order|
        invariant PassAt(start, reclaim, stale, state, order[..i], recovered)
      {
        var r := order[i];
        assert order[..i + 1] == order[..i] + [r];
        PassVisits(start, reclaim, stale, state, order, i, recovered);
        ghost var before := state;
        var closed := false;
        if r in stale {
          closed := CloseStaleRun(r);
        }
        if closed {
          PassCloses(start, reclaim, stale, before, state, order[..i], r, recovered);
          recovered := recovered + [r];
        } else {
          PassSkips(start, reclaim, stale, state, order[..i], r, recovered);
        }
      }
      assert order[..|order|] == order;
      PassEnds(start, reclaim, stale, state, order, recovered);
    }
  }
}
