/**
 One generator run from end to end, with nobody else interfering.

 The method carries out the transitions of `SourceSystem` in the order of the service: earlier
 success, lease, marker, run row, guard, source transaction with marker, fence, commit, run status, release.
 The rows the generator plans are a parameter; the model only demands that they carry the
 logical date and stay within the mutable tables.
 */
module GeneratorService {
  import opened Extraction
  import opened SourceLease
  import opened SourceSystem

  datatype Ending =
    | Reported(result: RunResult)   // the call returned
    | LeaseBusy                     // another owner holds the source lease
    | NotForward                    // some row is not older than the logical date

  /** The run is in a phase under the token in force; source and markers are those of `s`. */
  ghost predicate Holds(s: State, k: State, g: nat, input: Input, phase: Phase, now: int) {
    && g in k.gens && k.gens[g].input == input && k.gens[g].phase == phase
    && CheckCurrent(k.row, k.gens[g].token, now).Granted?
    && k.sources == s.sources && k.markers == s.markers && k.commitLog == s.commitLog
  }

  /** The source holds the run's rows and its marker on top of `s`. */
  ghost predicate HasWritten(s: State, k: State, g: nat, input: Input, writes: Writes, result: RunResult) {
    && k.sources == s.sources + [ApplyAll(s.Source(), writes)]
    && k.markers == s.markers[input := result]
    && k.commitLog == s.commitLog + [Commit(input, result)]
    && g in k.gens && k.gens[g].input == input
  }

  ghost predicate SameSource(s: State, k: State) {
    k.sources == s.sources && k.markers == s.markers && k.commitLog == s.commitLog
  }

  /** The lease is held by somebody else and has not expired. */
  predicate TakenByOther(row: Row, g: nat, now: int) {
    row.hold.Held? && row.hold.expiresAt > now && row.hold.owner != Owner(Generator, g)
  }

  /** Some row of a table the generator writes is not older than the date. */
  ghost predicate IsBehind(source: Source, date: int) {
    exists t, r :: t != Products && t != Sellers && r in Rows(source, t) && date <= r.cursor.ts
  }

  lemma ForwardIffNotBehind(source: Source, date: int)
    ensures Forward(source, date) <==> !IsBehind(source, date)
  {
    if !IsBehind(source, date) {
      forall t | Mutable(t) ensures AllBefore(Rows(source, t), date) {
        forall r | r in Rows(source, t) ensures r.cursor.ts < date {
        }
      }
    } else {
      var t, r :| t != Products && t != Sellers && r in Rows(source, t) && date <= r.cursor.ts;
      assert Mutable(t) && !AllBefore(Rows(source, t), date);
    }
  }

  /** Share locks, run history and reports, besides what `Holds` says. */
  ghost predicate Books(k: State, fences: set<nat>, runs: map<nat, RunRow>, reports: seq<Commit>) {
    k.fences == fences && k.runs == runs && k.reports == reports
  }

  /** The process is over, its lease is free again and no share lock is left. */
  ghost predicate IsOver(k: State, g: nat, runs: map<nat, RunRow>, reports: seq<Commit>) {
    && k.row.hold.Free? && Books(k, {}, runs, reports) && g in k.gens && k.gens[g].phase.Ended?
  }

  /** The process has ended with its token still the one in force. */
  ghost predicate HasEnded(k: State, l: State, g: nat) {
    && g in k.gens && g in l.gens && l.gens[g].token == k.gens[g].token && l.gens[g].phase.Ended?
    && l.row == k.row && Matches(l.row, l.gens[g].token)
  }

  lemma HolderMatches(s: State, k: State, g: nat, input: Input, phase: Phase, now: int)
    requires Holds(s, k, g, input, phase, now)
    ensures Matches(k.row, k.gens[g].token)
  {
  }

  lemma Acquires(s: State, g: nat, input: Input, now: int, ttl: int)
    requires g !in s.gens && s.fences == {} && ttl > 0
    ensures var k := DoGeneratorAcquire(s, g, input, now, ttl);
      && SameSource(s, k) && Books(k, {}, s.runs, s.reports)
      && (g !in k.gens <==> TakenByOther(s.row, g, now))
      && (if g in k.gens then Holds(s, k, g, input, Holding, now) else k == s)
  {
  }

  lemma StartsRun(s: State, k: State, g: nat, input: Input, now: int)
    requires Holds(s, k, g, input, Holding, now) && input !in k.markers && g !in k.runs
    ensures var l := DoRecordStart(DoMarkerMiss(k, g), g);
      Holds(s, l, g, input, Started, now) && Books(l, k.fences, k.runs[g := RunRow(input, Running)], k.reports)
  {
    hide CheckCurrent;
  }

  lemma OpensFenced(s: State, k: State, g: nat, input: Input, writes: Writes, result: RunResult, now: int)
    requires Holds(s, k, g, input, Started, now) && result.runId == g
    requires Forward(s.Source(), input.date) && WritesAllowed(writes, input.date)
    ensures var l := DoEnterFence(DoOpen(k, g, writes, result), g, now);
      && Holds(s, l, g, input, Fenced(writes, result), now) && Books(l, k.fences + {g}, k.runs, k.reports)
  {
    hide CheckCurrent, Forward, WritesAllowed;
  }

  lemma Commits(s: State, k: State, g: nat, input: Input, writes: Writes, result: RunResult, now: int)
    requires Holds(s, k, g, input, Fenced(writes, result), now) && result.runId == g && g in k.runs
    ensures var l := DoReturn(DoRecordSuccess(DoLeaveFence(DoCommit(k, g), g), g), g);
      && HasWritten(s, l, g, input, writes, result) && HasEnded(k, l, g)
      && Books(l, k.fences - {g}, k.runs[g := k.runs[g].(status := Success(result))],
               k.reports + [Commit(input, result)])
  {
    HolderMatches(s, k, g, input, Fenced(writes, result), now);
    hide CheckCurrent, ApplyAll;
  }

  lemma Reports(s: State, k: State, g: nat, input: Input, now: int)
    requires Holds(s, k, g, input, Holding, now) && input in k.markers
    ensures var l := DoMarkerHit(k, g);
      && SameSource(s, l) && HasEnded(k, l, g)
      && Books(l, k.fences, MarkSuccess(k, k.markers[input]).runs, k.reports + [Commit(input, k.markers[input])])
  {
    HolderMatches(s, k, g, input, Holding, now);
    hide CheckCurrent;
  }

  lemma ReleaseKeeps(s: State, token: Token)
    ensures SameSource(s, DoRelease(s, token)) && DoRelease(s, token).reports == s.reports
    ensures DoRelease(s, token).gens == s.gens
    ensures s.fences == {} && Matches(s.row, token) ==>
      DoRelease(s, token).row == Row(Free, token.version + 1) && Books(DoRelease(s, token), {}, s.runs, s.reports)
  {
  }

  lemma FailKeeps(s: State, k: State, g: nat, input: Input, now: int)
    requires Holds(s, k, g, input, Started, now) && g in k.runs
    ensures var l := DoFail(k, g);
      && SameSource(k, l) && HasEnded(k, l, g)
      && Books(l, k.fences - {g}, k.runs[g := k.runs[g].(status := Failed)], k.reports)
  {
    HolderMatches(s, k, g, input, Started, now);
    hide CheckCurrent;
  }

  /** The row of a successful run whose marker was found says so. */
  lemma MarkedIsSuccess(s: State, input: Input)
    requires Inv(s) && input in s.markers
    ensures var runs := MarkSuccess(s, s.markers[input]).runs;
      var h := s.markers[input].runId; h in s.runs && runs == s.runs[h := RunRow(input, Success(s.markers[input]))]
  {
    hide LeaseOk, GensOk, SourcesOk, RunsOk, EventsOk;
  }

  /** A reported result is the one commit of its input. */
  lemma ReportIsCommitted(s: State, c: Commit)
    requires Inv(s) && c in s.reports
    ensures c in s.commitLog
  {
    hide LeaseOk, GensOk, SourcesOk, EventsOk;
    var i :| 0 <= i < |s.reports| && s.reports[i] == c;
    assert IsMarked(s, s.reports[i]);
  }

  lemma SameMarkers(s: State, k: State, g: nat, input: Input, phase: Phase, now: int)
    requires Holds(s, k, g, input, phase, now)
    ensures g in k.gens && k.markers == s.markers && k.Source() == s.Source() && SameSource(s, k)
  {
  }

  lemma SameSourceTransitive(a: State, b: State, c: State)
    requires SameSource(a, b) && SameSource(b, c)
    ensures SameSource(a, c)
  {
  }

  lemma WrittenHasGen(s: State, k: State, g: nat, input: Input, writes: Writes, result: RunResult)
    requires HasWritten(s, k, g, input, writes, result)
    ensures g in k.gens && Commit(input, result) in k.commitLog
  {
  }

  lemma ReleasedHasWritten(s: State, k: State, l: State, g: nat, input: Input, writes: Writes, result: RunResult)
    requires HasWritten(s, k, g, input, writes, result) && SameSource(k, l) && l.gens == k.gens
    ensures HasWritten(s, l, g, input, writes, result) && Commit(input, result) in l.commitLog
  {
  }

  /** The run history already holds a successful run of the input. */
  predicate IsSuccessOf(s: State, h: nat, input: Input) {
    h in s.runs && s.runs[h].input == input && s.runs[h].status.Success?
  }

  predicate HasSucceeded(s: State, input: Input) {
    exists h :: h in s.runs && IsSuccessOf(s, h, input)
  }

  /** The result of a successful run is that of the marker, and of the one commit of its input. */
  lemma SuccessIsMarked(s: State, h: nat, input: Input)
    requires Inv(s) && IsSuccessOf(s, h, input)
    ensures input in s.markers && s.markers[input] == s.runs[h].status.result
    ensures Commit(input, s.runs[h].status.result) in s.commitLog
  {
    hide LeaseOk, GensOk, SourcesOk, EventsOk;
    assert IsMarked(s, Commit(input, s.runs[h].status.result));
  }

  lemma ReuseKeeps(s: State, h: nat, input: Input)
    requires IsSuccessOf(s, h, input)
    ensures DoReuse(s, h) == s.(reports := s.reports + [Commit(input, s.runs[h].status.result)])
    ensures SameSource(s, DoReuse(s, h))
  {
  }

  lemma BooksAre(k: State, fences: set<nat>, runs: map<nat, RunRow>, reports: seq<Commit>)
    requires Books(k, fences, runs, reports)
    ensures k.fences == fences && k.runs == runs && k.reports == reports
  {
  }

  lemma RunRowChanges(runs: map<nat, RunRow>, g: nat, input: Input, status: RunStatus)
    ensures var started := runs[g := RunRow(input, Running)];
      g in started && started[g := started[g].(status := status)] == runs[g := RunRow(input, status)]
  {
  }

  lemma EndedFacts(k: State, l: State, g: nat)
    requires HasEnded(k, l, g)
    ensures g in l.gens && l.gens[g].phase.Ended? && Matches(l.row, l.gens[g].token)
  {
  }

  lemma ReleasedIsOver(before: State, k: State, l: State, g: nat)
    requires HasEnded(before, k, g) && l.gens == k.gens && l.row.hold.Free? && Books(l, {}, k.runs, k.reports)
    ensures IsOver(l, g, k.runs, k.reports)
  {
  }

  lemma SucceededIsMarked(s: State, input: Input)
    requires Inv(s) && HasSucceeded(s, input)
    ensures input in s.markers
  {
    hide Inv;
    var h :| h in s.runs && IsSuccessOf(s, h, input);
    SuccessIsMarked(s, h, input);
  }

  class Service {
    var state: State

    constructor (state: State)
      ensures this.state == state
    {
      this.state := state;
    }

    /** Gives the lease of a process that has ended up. */
    method Release(g: nat, ghost before: State)
      requires Inv(state) && HasEnded(before, state, g) && state.fences == {}
      modifies this
      ensures Inv(state) && SameSource(old(state), state) && state.gens == old(state).gens
      ensures IsOver(state, g, old(state).runs, old(state).reports) && state.reports == old(state).reports
    {
      hide *;
      EndedFacts(before, state, g);
      ReleaseInv(state, state.gens[g].token);
      ReleaseKeeps(state, state.gens[g].token);
      ghost var ended := state;
      state := DoRelease(state, state.gens[g].token);
      ReleasedIsOver(before, ended, state, g);
    }

    /** An earlier call succeeded: its result is returned and nothing is acquired or written. */
    method ReuseRun(input: Input) returns (ending: Ending)
      requires Inv(state) && HasSucceeded(state, input)
      modifies this
      ensures Inv(state) && input in old(state).markers && ending == Reported(old(state).markers[input])
      ensures Commit(input, old(state).markers[input]) in state.commitLog && SameSource(old(state), state)
      ensures state == old(state).(reports := old(state).reports + [Commit(input, ending.result)])
    {
      hide Inv, SameSource, DoReuse;
      var h :| h in state.runs && IsSuccessOf(state, h, input);
      SuccessIsMarked(state, h, input);
      ReuseKeeps(state, h, input);
      ReuseInv(state, h);
      ending := Reported(state.runs[h].status.result);
      state := DoReuse(state, h);
    }

    method ReuseCommit(g: nat, input: Input, now: int, ghost start: State) returns (ending: Ending)
      requires Inv(state) && Holds(start, state, g, input, Holding, now) && input in state.markers
      requires state.fences == {}
      modifies this
      ensures Inv(state) && input in start.markers && ending == Reported(start.markers[input])
      ensures Commit(input, start.markers[input]) in state.commitLog && SameSource(start, state)
      ensures IsOver(state, g,
                     old(state).runs[start.markers[input].runId := RunRow(input, Success(start.markers[input]))],
                     old(state).reports + [Commit(input, start.markers[input])])
    {
      hide *;
      ghost var before := state;
      SameMarkers(start, state, g, input, Holding, now);
      ending := Reported(state.markers[input]);
      MarkedIsSuccess(state, input);
      MarkerHitInv(state, g);
      Reports(start, state, g, input, now);
      state := DoMarkerHit(state, g);
      BooksAre(state, {}, MarkSuccess(before, before.markers[input]).runs,
               before.reports + [Commit(input, before.markers[input])]);
      ghost var reported := state;
      Release(g, before);
      SameSourceTransitive(start, reported, state);
      ReportIsCommitted(state, Commit(input, start.markers[input]));
    }

    method CommitNew(g: nat, input: Input, writes: Writes, result: RunResult, now: int, ghost start: State)
      returns (ending: Ending)
      requires Inv(state) && Holds(start, state, g, input, Holding, now) && input !in state.markers && g !in state.runs
      requires result.runId == g && WritesAllowed(writes, input.date) && state.fences == {}
      modifies this
      ensures Inv(state) && input !in start.markers
      ensures ending == Reported(result) || ending == NotForward
      ensures ending.Reported? ==>
        && Commit(input, result) in state.commitLog && Forward(start.Source(), input.date)
        && HasWritten(start, state, g, input, writes, result)
        && IsOver(state, g, old(state).runs[g := RunRow(input, Success(result))],
                  old(state).reports + [Commit(input, result)])
      ensures ending.NotForward? ==>
        && SameSource(start, state) && !Forward(start.Source(), input.date)
        && IsOver(state, g, old(state).runs[g := RunRow(input, RunStatus.Failed)], old(state).reports)
    {
      hide *;
      ghost var runs, reports := state.runs, state.reports;
      SameMarkers(start, state, g, input, Holding, now);
      MarkerMissInv(state, g);
      StartsRun(start, state, g, input, now);
      state := DoMarkerMiss(state, g);
      RecordStartInv(state, g);
      state := DoRecordStart(state, g);
      SameMarkers(start, state, g, input, Started, now);
      BooksAre(state, {}, runs[g := RunRow(input, Running)], reports);
      RunRowChanges(runs, g, input, RunStatus.Failed);
      RunRowChanges(runs, g, input, Success(result));
      ghost var before := state;
      if !Forward(state.Source(), input.date) {
        FailInv(state, g);
        FailKeeps(start, state, g, input, now);
        state := DoFail(state, g);
        BooksAre(state, before.fences - {g}, before.runs[g := before.runs[g].(status := RunStatus.Failed)], reports);
        SameSourceTransitive(start, before, state);
        ghost var failed := state;
        Release(g, before);
        SameSourceTransitive(start, failed, state);
        return NotForward;
      }
      OpensFenced(start, state, g, input, writes, result, now);
      OpenInv(state, g, writes, result);
      state := DoOpen(state, g, writes, result);
      EnterFenceInv(state, g, now);
      state := DoEnterFence(state, g, now);
      BooksAre(state, before.fences + {g}, before.runs, reports);
      ghost var fenced := state;
      Commits(start, state, g, input, writes, result, now);
      CommitInv(state, g);
      state := DoCommit(state, g);
      LeaveFenceInv(state, g);
      state := DoLeaveFence(state, g);
      RecordSuccessInv(state, g);
      state := DoRecordSuccess(state, g);
      ReturnInv(state, g);
      state := DoReturn(state, g);
      WrittenHasGen(start, state, g, input, writes, result);
      BooksAre(state, fenced.fences - {g}, fenced.runs[g := fenced.runs[g].(status := Success(result))],
               reports + [Commit(input, result)]);
      ghost var returned := state;
      Release(g, fenced);
      ReleasedHasWritten(start, returned, state, g, input, writes, result);
      ending := Reported(result);
    }

    /**
     Runs the generator once.  What the call reports is the one commit of its input: the
     commit just made, or the earlier one whose marker it found.  Otherwise the source is as
     it was, and the ending says which guard refused.
     */
    method RunGenerator(g: nat, input: Input, writes: Writes, result: RunResult, now: int, ttl: int)
      returns (ending: Ending)
      requires Inv(state) && state.fences == {} && g !in state.gens && g !in state.runs && ttl > 0
      requires result.runId == g && WritesAllowed(writes, input.date)
      modifies this
      ensures Inv(state)
      ensures ending.Reported? ==> Commit(input, ending.result) in state.commitLog
      ensures ending.Reported? && input !in old(state).markers ==>
        && ending.result == result && Forward(old(state).Source(), input.date)
        && HasWritten(old(state), state, g, input, writes, result)
      ensures ending.Reported? && input in old(state).markers ==>
        ending.result == old(state).markers[input] && SameSource(old(state), state)
      ensures ending.LeaseBusy? <==> !HasSucceeded(old(state), input) && TakenByOther(old(state).row, g, now)
      ensures ending.LeaseBusy? ==> state == old(state)
      ensures ending.NotForward? <==>
        && !HasSucceeded(old(state), input) && !TakenByOther(old(state).row, g, now) && input !in old(state).markers
        && IsBehind(old(state).Source(), input.date)
      ensures ending.NotForward? ==>
        && SameSource(old(state), state)
        && IsOver(state, g, old(state).runs[g := RunRow(input, RunStatus.Failed)], old(state).reports)
      ensures ending.Reported? && !HasSucceeded(old(state), input) ==>
        IsOver(state, g, old(state).runs[ending.result.runId := RunRow(input, Success(ending.result))],
               old(state).reports + [Commit(input, ending.result)])
      ensures HasSucceeded(old(state), input) ==>
        ending.Reported? && state == old(state).(reports := old(state).reports + [Commit(input, ending.result)])
    {
      hide *;
      ghost var start := state;
      ForwardIffNotBehind(start.Source(), input.date);
      if HasSucceeded(state, input) {
        SucceededIsMarked(state, input);
        ending := ReuseRun(input);
        return;
      }
      GeneratorAcquireInv(state, g, input, now, ttl);
      Acquires(state, g, input, now, ttl);
      state := DoGeneratorAcquire(state, g, input, now, ttl);
      BooksAre(state, {}, start.runs, start.reports);
      if g !in state.gens {
        return LeaseBusy;
      }
      if input in state.markers {
        ending := ReuseCommit(g, input, now, start);
        return;
      }
      ending := CommitNew(g, input, writes, result, now, start);
    }
  }
}
