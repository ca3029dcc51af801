/**
 Generator runs under the source lease.

 The state joins the lease row, the source tables, the commit markers written in the source
 transaction, the run history and every generator process.  A step is one database
 transaction, one crash, or one return of a call; a step whose guard fails changes nothing.
 A run of the system is any sequence of steps, so every interleaving, retry, concurrent
 duplicate, lease expiry and crash is covered.  `now` is a free parameter of each step:
 nothing below depends on clocks that agree or move forward.
 */
module SourceSystem {
  import opened Cursors
  import opened Extraction
  import opened SourceLease

  datatype Table =
    | Customers | CustomerSubscriptions | CustomerMembershipTiers | SubscriptionPayments
    | Products | Sellers | Orders | OrderItems | OrderPayments

  /** Tables a generator writes, and whose newest cursor its guard looks at. */
  predicate Mutable(t: Table) {
    !t.Products? && !t.Sellers?
  }

  type Source = map<Table, set<Record>>

  function Rows(source: Source, t: Table): set<Record> {
    if t in source then source[t] else {}
  }

  type Writes = map<Table, set<Record>>

  function Written(writes: Writes, t: Table): set<Record> {
    if t in writes then writes[t] else {}
  }

  function ApplyAll(source: Source, writes: Writes): Source {
    map t | t in source.Keys + writes.Keys :: ApplyWrites(Rows(source, t), Written(writes, t))
  }

  /** The generator only writes rows of mutable tables stamped with its logical date. */
  predicate WritesAllowed(writes: Writes, date: int) {
    forall t :: WritesAt(Written(writes, t), date) && (!Mutable(t) ==> Written(writes, t) == {})
  }

  /** The forward-cursor guard over all mutable tables. */
  predicate Forward(source: Source, date: int) {
    forall t :: Mutable(t) ==> AllBefore(Rows(source, t), date)
  }

  ghost predicate SourceEvolved(source: Source, later: Source) {
    forall t :: Evolved(Rows(source, t), Rows(later, t))
  }

  ghost predicate SourceKeyed(source: Source) {
    forall t :: Keyed(Rows(source, t))
  }

  lemma RowsOfApplyAll(source: Source, writes: Writes, t: Table)
    ensures Rows(ApplyAll(source, writes), t) == ApplyWrites(Rows(source, t), Written(writes, t))
  {
  }

  lemma ApplyAllEvolves(source: Source, writes: Writes, date: int)
    requires SourceKeyed(source) && Forward(source, date) && WritesAllowed(writes, date)
    ensures SourceEvolved(source, ApplyAll(source, writes))
    ensures SourceKeyed(ApplyAll(source, writes))
  {
    var later := ApplyAll(source, writes);
    forall t ensures Evolved(Rows(source, t), Rows(later, t)) && Keyed(Rows(later, t)) {
      RowsOfApplyAll(source, writes, t);
      ApplyWritesKeyed(Rows(source, t), Written(writes, t));
      if Mutable(t) {
        WritesEvolve(Rows(source, t), Written(writes, t), date);
      } else {
        assert ApplyWrites(Rows(source, t), {}) == Rows(source, t);
        EvolvedReflexive(Rows(source, t));
      }
    }
  }

  // ---------------------------------------------------------------------------------------
  // State
  // ---------------------------------------------------------------------------------------

  /** The deterministic inputs of a generator run. */
  datatype Input = Input(snapshotId: string, seed: int, date: int, orderCount: nat,
                         profile: string, version: string, scale: nat)

  datatype RunResult = RunResult(runId: nat, counts: map<string, int>, hash: nat)

  datatype Phase =
    | Holding                                     // lease acquired, marker not yet looked up
    | Clear                                       // no marker was found for the input
    | Started                                     // RUNNING row recorded
    | Open(writes: Writes, result: RunResult)     // guard passed, rows and marker written
    | Fenced(writes: Writes, result: RunResult)   // share lock taken and lease checked under it
    | Committed(result: RunResult)                // source transaction committed, lock held
    | Unlocked(result: RunResult)                 // share lock given up
    | Recorded(result: RunResult)                 // SUCCESS recorded, not yet returned
    | Ended

  datatype Gen = Gen(input: Input, token: Token, phase: Phase)

  datatype RunStatus = Running | Success(result: RunResult) | Failed

  datatype RunRow = RunRow(input: Input, status: RunStatus)

  datatype LeaseEvent = Acquired(token: Token) | Released(token: Token) | SourceCommit(token: Token)

  datatype Commit = Commit(input: Input, result: RunResult)

  datatype State = State(
    row: Row,
    fences: set<nat>,                  // generators holding the share lock on the lease row
    issued: set<Token>,                // every token ever granted
    events: seq<LeaseEvent>,
    sources: seq<Source>,              // every state of the source, oldest first
    markers: map<Input, RunResult>,    // generator_commits
    commitLog: seq<Commit>,
    runs: map<nat, RunRow>,            // generator_runs
    gens: map<nat, Gen>,
    reports: seq<Commit>)              // what returned calls reported
  {
    function Source(): Source {
      if sources == [] then map[] else sources[|sources| - 1]
    }
  }

  ghost predicate Initial(s: State) {
    && s.row == Row(Free, 0) && s.fences == {} && s.issued == {} && s.events == []
    && |s.sources| == 1 && SourceKeyed(s.sources[0])
    && s.markers == map[] && s.commitLog == [] && s.runs == map[] && s.gens == map[]
    && s.reports == []
  }

  // ---------------------------------------------------------------------------------------
  // Steps
  // ---------------------------------------------------------------------------------------

  datatype Step =
    | ReuseRun(g: nat)
    | GeneratorAcquire(g: nat, input: Input, now: int, ttl: int)
    | MarkerHit(g: nat)
    | MarkerMiss(g: nat)
    | RecordStart(g: nat)
    | OpenTransaction(g: nat, writes: Writes, result: RunResult)
    | EnterFence(g: nat, now: int)
    | CommitSource(g: nat)
    | LeaveFence(g: nat)
    | RecordSuccess(g: nat)
    | Return(g: nat)
    | Fail(g: nat)
    | Crash(g: nat)
    | WarehouseAcquire(id: nat, now: int, ttl: int)
    | Renew(token: Token, now: int, ttl: int)
    | Release(token: Token)

  predicate InPhase(s: State, g: nat, p: Phase) {
    g in s.gens && s.gens[g].phase == p
  }

  function Move(s: State, g: nat, p: Phase): State
    requires g in s.gens
  {
    s.(gens := s.gens[g := s.gens[g].(phase := p)])
  }

  /** An earlier call with the same input already succeeded: its result is returned. */
  function DoReuse(s: State, g: nat): State {
    if g in s.runs && s.runs[g].status.Success? then
      s.(reports := s.reports + [Commit(s.runs[g].input, s.runs[g].status.result)])
    else s
  }

  /** Lease row updates take the row lock and so wait for every share lock. */
  function DoAcquire(s: State, owner: Owner, now: int, ttl: int): (State, Outcome<Token>) {
    if s.fences != {} then (s, Refused(Unavailable)) else
      var (row, outcome) := AfterAcquire(s.row, owner, now, ttl);
      if outcome.Granted? then
        (s.(row := row, issued := s.issued + {outcome.value},
            events := if row == s.row then s.events else s.events + [Acquired(outcome.value)]),
         outcome)
      else (s, outcome)
  }

  function DoGeneratorAcquire(s: State, g: nat, input: Input, now: int, ttl: int): State {
    if g in s.gens then s else
      var (after, outcome) := DoAcquire(s, Owner(Generator, g), now, ttl);
      if outcome.Granted? then after.(gens := after.gens[g := Gen(input, outcome.value, Holding)])
      else after
  }

  function MarkSuccess(s: State, result: RunResult): State {
    if result.runId in s.runs then
      s.(runs := s.runs[result.runId := s.runs[result.runId].(status := Success(result))])
    else s
  }

  /** The marker is found: its run is recorded as successful and its result returned. */
  function DoMarkerHit(s: State, g: nat): State {
    if InPhase(s, g, Holding) && s.gens[g].input in s.markers then
      var result := s.markers[s.gens[g].input];
      var recorded := MarkSuccess(s, result);
      Move(recorded, g, Ended).(reports := s.reports + [Commit(s.gens[g].input, result)])
    else s
  }

  function DoMarkerMiss(s: State, g: nat): State {
    if InPhase(s, g, Holding) && s.gens[g].input !in s.markers then Move(s, g, Clear) else s
  }

  function DoRecordStart(s: State, g: nat): State {
    if InPhase(s, g, Clear) && g !in s.runs then
      Move(s, g, Started).(runs := s.runs[g := RunRow(s.gens[g].input, Running)])
    else s
  }

  function DoOpen(s: State, g: nat, writes: Writes, result: RunResult): State {
    if && InPhase(s, g, Started) && result.runId == g
       && Forward(s.Source(), s.gens[g].input.date) && WritesAllowed(writes, s.gens[g].input.date)
    then Move(s, g, Open(writes, result)) else s
  }

  function DoEnterFence(s: State, g: nat, now: int): State {
    if g in s.gens && s.gens[g].phase.Open? && CheckCurrent(s.row, s.gens[g].token, now).Granted? then
      var p := s.gens[g].phase;
      Move(s, g, Fenced(p.writes, p.result)).(fences := s.fences + {g})
    else s
  }

  /**
   The source transaction commits with its rows and its marker.  The unique index on the
   marker inputs is not consulted: `MarkerIndexNeverRefuses` shows that it cannot refuse.
   */
  function DoCommit(s: State, g: nat): State {
    if g in s.gens && s.gens[g].phase.Fenced? then
      var gen := s.gens[g];
      Move(s, g, Committed(gen.phase.result)).(
        sources := s.sources + [ApplyAll(s.Source(), gen.phase.writes)],
        markers := s.markers[gen.input := gen.phase.result],
        commitLog := s.commitLog + [Commit(gen.input, gen.phase.result)],
        events := s.events + [SourceCommit(gen.token)])
    else s
  }

  function DoLeaveFence(s: State, g: nat): State {
    if g in s.gens && s.gens[g].phase.Committed? then
      Move(s, g, Unlocked(s.gens[g].phase.result)).(fences := s.fences - {g})
    else s
  }

  function DoRecordSuccess(s: State, g: nat): State {
    if g in s.gens && s.gens[g].phase.Unlocked? then
      Move(MarkSuccess(s, s.gens[g].phase.result), g, Recorded(s.gens[g].phase.result))
    else s
  }

  function DoReturn(s: State, g: nat): State {
    if g in s.gens && s.gens[g].phase.Recorded? then
      Move(s, g, Ended).(reports := s.reports + [Commit(s.gens[g].input, s.gens[g].phase.result)])
    else s
  }

  /** An exception rolls back, gives up the lock and records FAILED once a run row exists. */
  function DoFail(s: State, g: nat): State {
    if g in s.gens && !s.gens[g].phase.Ended? then
      var started := !s.gens[g].phase.Holding? && !s.gens[g].phase.Clear?;
      Move(s, g, Ended).(
        fences := s.fences - {g},
        runs := if started && g in s.runs then s.runs[g := s.runs[g].(status := Failed)] else s.runs)
    else s
  }

  function DoCrash(s: State, g: nat): State {
    if g in s.gens then Move(s, g, Ended).(fences := s.fences - {g}) else s
  }

  function DoRenew(s: State, token: Token, now: int, ttl: int): State {
    if s.fences != {} then s else s.(row := AfterRenew(s.row, token, now, ttl).0)
  }

  function DoRelease(s: State, token: Token): State {
    if s.fences != {} then s else
      var (row, outcome) := AfterRelease(s.row, token);
      if outcome.Granted? then s.(row := row, events := s.events + [Released(token)]) else s
  }

  function Apply(s: State, step: Step): State {
    match step
    case ReuseRun(g) => DoReuse(s, g)
    case GeneratorAcquire(g, input, now, ttl) => DoGeneratorAcquire(s, g, input, now, ttl)
    case MarkerHit(g) => DoMarkerHit(s, g)
    case MarkerMiss(g) => DoMarkerMiss(s, g)
    case RecordStart(g) => DoRecordStart(s, g)
    case OpenTransaction(g, writes, result) => DoOpen(s, g, writes, result)
    case EnterFence(g, now) => DoEnterFence(s, g, now)
    case CommitSource(g) => DoCommit(s, g)
    case LeaveFence(g) => DoLeaveFence(s, g)
    case RecordSuccess(g) => DoRecordSuccess(s, g)
    case Return(g) => DoReturn(s, g)
    case Fail(g) => DoFail(s, g)
    case Crash(g) => DoCrash(s, g)
    case WarehouseAcquire(id, now, ttl) => DoAcquire(s, Owner(Warehouse, id), now, ttl).0
    case Renew(token, now, ttl) => DoRenew(s, token, now, ttl)
    case Release(token) => DoRelease(s, token)
  }

  function Execute(s: State, steps: seq<Step>): State
    decreases |steps|
  {
    if steps == [] then s else Execute(Apply(s, steps[0]), steps[1..])
  }

  // ---------------------------------------------------------------------------------------
  // Invariant
  // ---------------------------------------------------------------------------------------

  /** Versions fence: one owner per version, and no token from the future. */
  ghost predicate LeaseOk(s: State) {
    && (forall a, b :: a in s.issued && b in s.issued && a.version == b.version ==> a == b)
    && (forall a :: a in s.issued ==> a.version <= s.row.version)
    && (s.row.hold.Held? ==> Token(s.row.hold.owner, s.row.version) in s.issued)
  }

  predicate PastMarker(p: Phase) {
    p.Clear? || p.Started? || p.Open? || p.Fenced?
  }

  predicate InTransaction(p: Phase) {
    p.Open? || p.Fenced?
  }

  predicate HoldsLock(p: Phase) {
    p.Fenced? || p.Committed?
  }

  predicate HasCommitted(p: Phase) {
    p.Committed? || p.Unlocked? || p.Recorded?
  }

  ghost predicate GenOk(s: State, g: nat)
    requires g in s.gens
  {
    var gen := s.gens[g];
    var p := gen.phase;
    && gen.token in s.issued && gen.token.owner == Owner(Generator, g)
    && (HoldsLock(p) <==> g in s.fences)
    && (HoldsLock(p) ==> Matches(s.row, gen.token))
    && (PastMarker(p) && s.row.version == gen.token.version ==> gen.input !in s.markers)
    && (InTransaction(p) ==> WritesAllowed(p.writes, gen.input.date) && p.result.runId == g)
    && (InTransaction(p) && s.row.version == gen.token.version ==> Forward(s.Source(), gen.input.date))
    && (p.Started? || InTransaction(p) || HasCommitted(p) ==> g in s.runs && s.runs[g].input == gen.input)
    && (HasCommitted(p) ==> gen.input in s.markers && s.markers[gen.input] == p.result)
  }

  ghost predicate GensOk(s: State) {
    s.fences <= s.gens.Keys && forall g :: g in s.gens ==> GenOk(s, g)
  }

  ghost predicate SourcesOk(s: State) {
    && s.sources != []
    && (forall i :: 0 <= i < |s.sources| ==> SourceKeyed(s.sources[i]))
    && (forall i :: 0 <= i < |s.sources| - 1 ==> SourceEvolved(s.sources[i], s.sources[i + 1]))
  }

  ghost predicate IsMarked(s: State, c: Commit) {
    c.input in s.markers && s.markers[c.input] == c.result
  }

  /** The markers are the commit log, entry by entry, and no input occurs twice in it. */
  ghost predicate MarkersOk(s: State) {
    && (forall i, j :: 0 <= i < j < |s.commitLog| ==> s.commitLog[i].input != s.commitLog[j].input)
    && (forall i :: 0 <= i < |s.commitLog| ==> IsMarked(s, s.commitLog[i]))
    && (forall input :: input in s.markers ==> Commit(input, s.markers[input]) in s.commitLog)
    && (forall input :: input in s.markers ==>
          s.markers[input].runId in s.runs && s.runs[s.markers[input].runId].input == input)
  }

  ghost predicate RunsOk(s: State) {
    && (forall g :: g in s.runs && s.runs[g].status.Success? ==>
          IsMarked(s, Commit(s.runs[g].input, s.runs[g].status.result)))
    && (forall i :: 0 <= i < |s.reports| ==> IsMarked(s, s.reports[i]))
  }

  /** `events[i]` granted the token and nothing was granted or released since. */
  ghost predicate GrantedSince(events: seq<LeaseEvent>, i: nat, j: nat, token: Token) {
    && i < j <= |events| && events[i] == Acquired(token)
    && forall k :: i < k < j ==> events[k].SourceCommit?
  }

  ghost predicate EventsOk(s: State) {
    && (s.row.hold.Held? ==>
          exists i :: GrantedSince(s.events, i, |s.events|, Token(s.row.hold.owner, s.row.version)))
    && (forall j :: 0 <= j < |s.events| && s.events[j].SourceCommit? ==>
          exists i :: GrantedSince(s.events, i, j, s.events[j].token))
  }

  ghost predicate Inv(s: State) {
    LeaseOk(s) && GensOk(s) && SourcesOk(s) && MarkersOk(s) && RunsOk(s) && EventsOk(s)
  }

  // ---------------------------------------------------------------------------------------
  // Preservation
  // ---------------------------------------------------------------------------------------

  lemma InitialHasInv(s: State)
    requires Initial(s)
    ensures Inv(s)
  {
  }

  ghost predicate KeepsHistory(s: State, t: State) {
    && s.issued <= t.issued
    && (forall k :: k in s.runs ==> k in t.runs && t.runs[k].input == s.runs[k].input)
    && (forall i :: i in s.markers ==> i in t.markers && t.markers[i] == s.markers[i])
  }

  /** A generator that did not move stays consistent when nothing it relies on moved. */
  lemma GenFrame(s: State, t: State, g: nat)
    requires g in s.gens && g in t.gens && t.gens[g] == s.gens[g] && GenOk(s, g)
    requires KeepsHistory(s, t)
    requires g in s.fences <==> g in t.fences
    requires HoldsLock(s.gens[g].phase) ==> Matches(t.row, s.gens[g].token)
    requires t.row.version == s.gens[g].token.version ==>
      t.row.version == s.row.version && t.markers == s.markers && t.Source() == s.Source()
    ensures GenOk(t, g)
  {
  }

  /** `GenOk` reads only these parts of the state. */
  lemma SameFrame(s: State, t: State, g: nat)
    requires g in s.gens && g in t.gens && t.gens[g] == s.gens[g] && GenOk(s, g)
    requires t.row == s.row && t.fences == s.fences && t.issued == s.issued
    requires t.markers == s.markers && t.sources == s.sources && t.runs == s.runs
    ensures GenOk(t, g)
  {
  }

  /** Steps of one generator that touch neither lease, source nor markers. */
  ghost predicate LocalStep(s: State, t: State, g: nat) {
    && g in s.gens && t.gens.Keys == s.gens.Keys
    && (forall k :: k in s.gens && k != g ==> t.gens[k] == s.gens[k])
    && t.row == s.row && t.issued == s.issued && t.events == s.events && t.sources == s.sources
    && t.markers == s.markers && t.commitLog == s.commitLog
    && (forall k :: k != g ==> (k in t.fences <==> k in s.fences)) && t.fences <= t.gens.Keys
    && KeepsHistory(s, t)
  }

  lemma InvFacts(s: State, g: nat)
    requires Inv(s) && g in s.gens
    ensures GenOk(s, g) && s.fences <= s.gens.Keys && RunsOk(s) && MarkersOk(s) && s.sources != []
  {
    hide GenOk, LeaseOk, MarkersOk, RunsOk, EventsOk;
  }

  lemma LockMatches(s: State, g: nat)
    requires g in s.gens && GenOk(s, g)
    ensures HoldsLock(s.gens[g].phase) ==> Matches(s.row, s.gens[g].token)
  {
  }

  lemma LocalStepGens(s: State, t: State, g: nat)
    requires GensOk(s) && LocalStep(s, t, g) && GenOk(t, g)
    ensures GensOk(t)
  {
    hide GenOk, KeepsHistory;
    forall k | k in t.gens ensures GenOk(t, k) {
      if k != g {
        assert GenOk(s, k);
        LockMatches(s, k);
        GenFrame(s, t, k);
      }
    }
  }

  lemma LocalStepInv(s: State, t: State, g: nat)
    requires Inv(s) && LocalStep(s, t, g) && GenOk(t, g) && RunsOk(t)
    ensures Inv(t)
  {
    hide GenOk, GensOk, RunsOk, SourceEvolved, SourceKeyed, GrantedSince;
    LocalStepGens(s, t, g);
  }

  lemma RunsFrame(s: State, t: State)
    requires RunsOk(s) && t.runs == s.runs && t.reports == s.reports && t.markers == s.markers
    ensures RunsOk(t)
  {
  }

  lemma RunsStarted(s: State, t: State, g: nat)
    requires RunsOk(s) && t.reports == s.reports && t.markers == s.markers
    requires g !in s.runs && g in t.runs && t.runs == s.runs[g := t.runs[g]] && t.runs[g].status.Running?
    ensures RunsOk(t)
  {
  }

  lemma RunsFailed(s: State, t: State, g: nat)
    requires RunsOk(s) && t.reports == s.reports && t.markers == s.markers
    requires t.runs == s.runs || (g in s.runs && t.runs == s.runs[g := s.runs[g].(status := Failed)])
    ensures RunsOk(t)
  {
  }

  /** A return reports a committed result. */
  lemma RunsReported(s: State, t: State, c: Commit)
    requires RunsOk(s) && IsMarked(s, c)
    requires t.runs == s.runs && t.markers == s.markers && t.reports == s.reports + [c]
    ensures RunsOk(t)
  {
  }

  lemma MarkerMissInv(s: State, g: nat)
    requires Inv(s)
    ensures Inv(DoMarkerMiss(s, g))
  {
    hide Inv, GensOk, RunsOk, MarkersOk, WritesAllowed, Forward;
    var t := DoMarkerMiss(s, g);
    if t != s {
      InvFacts(s, g);
      RunsFrame(s, t);
      LocalStepInv(s, t, g);
    }
  }

  lemma RecordStartInv(s: State, g: nat)
    requires Inv(s)
    ensures Inv(DoRecordStart(s, g))
  {
    hide Inv, GensOk, RunsOk, MarkersOk, WritesAllowed, Forward;
    var t := DoRecordStart(s, g);
    if t != s {
      InvFacts(s, g);
      RunsStarted(s, t, g);
      LocalStepInv(s, t, g);
    }
  }

  lemma OpenInv(s: State, g: nat, writes: Writes, result: RunResult)
    requires Inv(s)
    ensures Inv(DoOpen(s, g, writes, result))
  {
    hide Inv, GensOk, RunsOk, MarkersOk, WritesAllowed, Forward;
    var t := DoOpen(s, g, writes, result);
    if t != s {
      InvFacts(s, g);
      RunsFrame(s, t);
      LocalStepInv(s, t, g);
    }
  }

  lemma EnterFenceInv(s: State, g: nat, now: int)
    requires Inv(s)
    ensures Inv(DoEnterFence(s, g, now))
  {
    hide Inv, GensOk, RunsOk, MarkersOk, WritesAllowed, Forward;
    var t := DoEnterFence(s, g, now);
    if t != s {
      InvFacts(s, g);
      RunsFrame(s, t);
      LocalStepInv(s, t, g);
    }
  }

  lemma LeaveFenceInv(s: State, g: nat)
    requires Inv(s)
    ensures Inv(DoLeaveFence(s, g))
  {
    hide Inv, GensOk, RunsOk, MarkersOk, WritesAllowed, Forward;
    var t := DoLeaveFence(s, g);
    if t != s {
      InvFacts(s, g);
      RunsFrame(s, t);
      LocalStepInv(s, t, g);
    }
  }

  lemma FailInv(s: State, g: nat)
    requires Inv(s)
    ensures Inv(DoFail(s, g))
  {
    hide Inv, GensOk, RunsOk, MarkersOk, WritesAllowed, Forward;
    var t := DoFail(s, g);
    if t != s {
      InvFacts(s, g);
      RunsFailed(s, t, g);
      LocalStepInv(s, t, g);
    }
  }

  lemma CrashInv(s: State, g: nat)
    requires Inv(s)
    ensures Inv(DoCrash(s, g))
  {
    hide Inv, GensOk, RunsOk, MarkersOk, WritesAllowed, Forward;
    var t := DoCrash(s, g);
    if g in s.gens {
      InvFacts(s, g);
      RunsFrame(s, t);
      LocalStepInv(s, t, g);
    }
  }

  /** Recording SUCCESS with a committed result keeps the run history consistent. */
  lemma MarkSuccessKeeps(s: State, c: Commit)
    requires MarkersOk(s) && RunsOk(s) && IsMarked(s, c)
    ensures RunsOk(MarkSuccess(s, c.result)) && KeepsHistory(s, MarkSuccess(s, c.result))
  {
  }

  lemma RecordSuccessInv(s: State, g: nat)
    requires Inv(s)
    ensures Inv(DoRecordSuccess(s, g))
  {
    hide Inv, GensOk, RunsOk, MarkersOk, WritesAllowed, Forward;
    var t := DoRecordSuccess(s, g);
    if t != s {
      InvFacts(s, g);
      MarkSuccessKeeps(s, Commit(s.gens[g].input, s.gens[g].phase.result));
      RunsFrame(MarkSuccess(s, s.gens[g].phase.result), t);
      LocalStepInv(s, t, g);
    }
  }

  lemma MarkerHitInv(s: State, g: nat)
    requires Inv(s)
    ensures Inv(DoMarkerHit(s, g))
  {
    hide Inv, GensOk, RunsOk, MarkersOk, WritesAllowed, Forward;
    var t := DoMarkerHit(s, g);
    if t != s {
      InvFacts(s, g);
      MarkSuccessKeeps(s, Commit(s.gens[g].input, s.markers[s.gens[g].input]));
      RunsReported(MarkSuccess(s, s.markers[s.gens[g].input]), t, Commit(s.gens[g].input, s.markers[s.gens[g].input]));
      LocalStepInv(s, t, g);
    }
  }

  lemma ReturnInv(s: State, g: nat)
    requires Inv(s)
    ensures Inv(DoReturn(s, g))
  {
    hide Inv, GensOk, RunsOk, MarkersOk, WritesAllowed, Forward;
    var t := DoReturn(s, g);
    if t != s {
      InvFacts(s, g);
      RunsReported(s, t, Commit(s.gens[g].input, s.gens[g].phase.result));
      LocalStepInv(s, t, g);
    }
  }

  lemma ReuseInv(s: State, g: nat)
    requires Inv(s)
    ensures Inv(DoReuse(s, g))
  {
    var t := DoReuse(s, g);
    if t != s {
      RunsReported(s, t, Commit(s.runs[g].input, s.runs[g].status.result));
      hide RunsOk, GrantedSince, SourceEvolved, SourceKeyed;
      forall k | k in t.gens ensures GenOk(t, k) {
        SameFrame(s, t, k);
      }
    }
  }

  /** While `g` holds the share lock no other generator carries the current version. */
  lemma OthersAreFenced(s: State, g: nat, k: nat)
    requires LeaseOk(s) && g in s.gens && k in s.gens && g != k && GenOk(s, g) && GenOk(s, k)
    requires HoldsLock(s.gens[g].phase)
    ensures s.gens[k].token.version != s.row.version && !HoldsLock(s.gens[k].phase)
  {
  }

  lemma CommitGens(s: State, g: nat)
    requires LeaseOk(s) && GensOk(s) && s.sources != [] && g in s.gens && s.gens[g].phase.Fenced?
    ensures GensOk(DoCommit(s, g))
  {
    hide LeaseOk, Forward, WritesAllowed;
    var t := DoCommit(s, g);
    assert GenOk(s, g);
    forall k | k in t.gens ensures GenOk(t, k) {
      if k != g {
        assert GenOk(s, k);
        OthersAreFenced(s, g, k);
        GenFrame(s, t, k);
      }
    }
  }

  lemma CommitSources(s: State, g: nat)
    requires SourcesOk(s) && g in s.gens && s.gens[g].phase.Fenced? && GenOk(s, g)
    ensures SourcesOk(DoCommit(s, g))
  {
    var gen := s.gens[g];
    ApplyAllEvolves(s.Source(), gen.phase.writes, gen.input.date);
    hide WritesAllowed, Forward, SourceKeyed, SourceEvolved;
  }

  lemma CommitRuns(s: State, g: nat)
    requires RunsOk(s) && g in s.gens && s.gens[g].phase.Fenced?
    requires s.gens[g].input !in s.markers
    ensures RunsOk(DoCommit(s, g))
  {
  }

  /**
   The unique index on marker inputs never refuses a commit: a generator that reaches the
   fence still holds the tenure in which it looked for the marker.
   */
  lemma MarkerIndexNeverRefuses(s: State, g: nat)
    requires Inv(s) && g in s.gens && s.gens[g].phase.Fenced?
    ensures s.gens[g].input !in s.markers
  {
    InvFacts(s, g);
  }

  lemma LogGrows(s: State, t: State, c: Commit)
    requires MarkersOk(s) && c.input !in s.markers
    requires t.commitLog == s.commitLog + [c] && t.markers == s.markers[c.input := c.result]
    requires t.runs == s.runs && c.result.runId in s.runs && s.runs[c.result.runId].input == c.input
    ensures MarkersOk(t)
  {
    forall i | 0 <= i < |s.commitLog|
      ensures IsMarked(t, t.commitLog[i]) && t.commitLog[i].input != c.input
    {
      assert IsMarked(s, s.commitLog[i]);
    }
    assert t.commitLog[|s.commitLog|] == c;
    forall input | input in s.markers ensures Commit(input, s.markers[input]) in t.commitLog {
      assert Commit(input, s.markers[input]) in s.commitLog;
    }
  }

  lemma CommitMarkers(s: State, g: nat)
    requires Inv(s) && g in s.gens && s.gens[g].phase.Fenced?
    ensures MarkersOk(DoCommit(s, g))
  {
    MarkerIndexNeverRefuses(s, g);
    InvFacts(s, g);
    hide Inv, WritesAllowed, Forward, ApplyAll;
    LogGrows(s, DoCommit(s, g), Commit(s.gens[g].input, s.gens[g].phase.result));
  }

  lemma GrantedExtends(events: seq<LeaseEvent>, more: seq<LeaseEvent>, i: nat, j: nat, token: Token)
    requires GrantedSince(events, i, j, token) && events <= more
    ensures GrantedSince(more, i, j, token)
  {
  }

  /** Earlier commit events keep their witness when events are appended. */
  lemma EventsExtend(s: State, t: State)
    requires EventsOk(s) && s.events <= t.events
    ensures forall j :: 0 <= j < |s.events| && t.events[j].SourceCommit? ==>
      exists i :: GrantedSince(t.events, i, j, t.events[j].token)
  {
    hide GrantedSince;
    forall j | 0 <= j < |s.events| && t.events[j].SourceCommit?
      ensures exists i :: GrantedSince(t.events, i, j, t.events[j].token)
    {
      var i :| GrantedSince(s.events, i, j, s.events[j].token);
      GrantedExtends(s.events, t.events, i, j, s.events[j].token);
    }
  }

  /** A commit event of the token in force is covered by the grant of that token. */
  lemma EventsGrow(s: State, t: State, e: LeaseEvent, token: Token)
    requires EventsOk(s) && Matches(s.row, token) && e == SourceCommit(token)
    requires t.events == s.events + [e] && t.row == s.row
    ensures EventsOk(t)
  {
    var n := |s.events|;
    var i :| GrantedSince(s.events, i, n, token);
    assert t.events[..n] == s.events;
    GrantedExtends(s.events, t.events, i, n, token);
    assert GrantedSince(t.events, i, n + 1, token);
    EventsExtend(s, t);
  }

  lemma CommitEvents(s: State, g: nat)
    requires Inv(s) && g in s.gens && s.gens[g].phase.Fenced?
    ensures EventsOk(DoCommit(s, g))
  {
    InvFacts(s, g);
    assert EventsOk(s);
    var t := DoCommit(s, g);
    var token := s.gens[g].token;
    hide Inv, WritesAllowed, Forward, ApplyAll, MarkersOk, RunsOk;
    EventsGrow(s, t, SourceCommit(token), token);
  }

  /** The commit: only the generator of the current tenure can be here. */
  lemma CommitInv(s: State, g: nat)
    requires Inv(s)
    ensures Inv(DoCommit(s, g))
  {
    hide GenOk, MarkersOk, EventsOk, WritesAllowed, Forward, ApplyAll;
    var t := DoCommit(s, g);
    if t != s {
      InvFacts(s, g);
      CommitGens(s, g);
      CommitSources(s, g);
      CommitMarkers(s, g);
      CommitEvents(s, g);
      MarkerIndexNeverRefuses(s, g);
      CommitRuns(s, g);
    }
  }

  /** Lease row updates happen while no share lock is held. */
  lemma LeaseMoveInv(s: State, t: State)
    requires Inv(s) && s.fences == {}
    requires t == s.(row := t.row, issued := t.issued, events := t.events)
    requires s.row.version <= t.row.version && s.issued <= t.issued
    requires LeaseOk(t) && EventsOk(t)
    ensures Inv(t)
  {
    forall g | g in t.gens ensures GenOk(t, g) {
      assert GenOk(s, g);
      GenFrame(s, t, g);
    }
  }

  lemma AcquireInv(s: State, owner: Owner, now: int, ttl: int)
    requires Inv(s)
    ensures Inv(DoAcquire(s, owner, now, ttl).0)
    ensures var (t, outcome) := DoAcquire(s, owner, now, ttl);
      outcome.Granted? ==> outcome.value in t.issued && outcome.value.owner == owner && t.fences == {}
    ensures DoAcquire(s, owner, now, ttl).0.gens == s.gens
  {
    var (t, outcome) := DoAcquire(s, owner, now, ttl);
    if s.fences == {} && outcome.Granted? {
      if t.row != s.row {
        var n := |s.events|;
        assert t.events[..n] == s.events;
        EventsExtend(s, t);
        assert GrantedSince(t.events, n, n + 1, outcome.value);
      }
      LeaseMoveInv(s, t);
    }
  }

  lemma NewGenRest(s: State, t: State)
    requires LeaseOk(s) && SourcesOk(s) && MarkersOk(s) && RunsOk(s) && EventsOk(s)
    requires t == s.(gens := t.gens)
    ensures LeaseOk(t) && SourcesOk(t) && MarkersOk(t) && RunsOk(t) && EventsOk(t)
  {
    hide SourceKeyed, SourceEvolved, GrantedSince;
  }

  /** A new generator process with a granted token. */
  lemma NewGenInv(s: State, g: nat, gen: Gen)
    requires Inv(s) && g !in s.gens && s.fences == {}
    requires gen.phase.Holding? && gen.token in s.issued && gen.token.owner == Owner(Generator, g)
    ensures Inv(s.(gens := s.gens[g := gen]))
  {
    hide LeaseOk, SourceKeyed, SourceEvolved, GrantedSince, MarkersOk, RunsOk, WritesAllowed, Forward;
    var t := s.(gens := s.gens[g := gen]);
    assert GenOk(t, g);
    forall k | k in t.gens && k != g ensures GenOk(t, k) {
      SameFrame(s, t, k);
    }
    NewGenRest(s, t);
  }

  lemma GeneratorAcquireInv(s: State, g: nat, input: Input, now: int, ttl: int)
    requires Inv(s)
    ensures Inv(DoGeneratorAcquire(s, g, input, now, ttl))
  {
    hide Inv;
    if g !in s.gens {
      var owner := Owner(Generator, g);
      AcquireInv(s, owner, now, ttl);
      var (m, outcome) := DoAcquire(s, owner, now, ttl);
      if outcome.Granted? {
        NewGenInv(m, g, Gen(input, outcome.value, Holding));
      }
    }
  }

  lemma RenewInv(s: State, token: Token, now: int, ttl: int)
    requires Inv(s)
    ensures Inv(DoRenew(s, token, now, ttl))
  {
    if s.fences == {} {
      LeaseMoveInv(s, DoRenew(s, token, now, ttl));
    }
  }

  lemma ReleaseInv(s: State, token: Token)
    requires Inv(s)
    ensures Inv(DoRelease(s, token))
  {
    var t := DoRelease(s, token);
    if t != s {
      assert t.events[..|s.events|] == s.events;
      EventsExtend(s, t);
      LeaseMoveInv(s, t);
    }
  }

  /** Every step of every process keeps the invariant. */
  lemma StepInv(s: State, step: Step)
    requires Inv(s)
    ensures Inv(Apply(s, step))
  {
    hide Inv;
    match step
    case ReuseRun(g) => ReuseInv(s, g);
    case GeneratorAcquire(g, input, now, ttl) => GeneratorAcquireInv(s, g, input, now, ttl);
    case MarkerHit(g) => MarkerHitInv(s, g);
    case MarkerMiss(g) => MarkerMissInv(s, g);
    case RecordStart(g) => RecordStartInv(s, g);
    case OpenTransaction(g, writes, result) => OpenInv(s, g, writes, result);
    case EnterFence(g, now) => EnterFenceInv(s, g, now);
    case CommitSource(g) => CommitInv(s, g);
    case LeaveFence(g) => LeaveFenceInv(s, g);
    case RecordSuccess(g) => RecordSuccessInv(s, g);
    case Return(g) => ReturnInv(s, g);
    case Fail(g) => FailInv(s, g);
    case Crash(g) => CrashInv(s, g);
    case WarehouseAcquire(id, now, ttl) => AcquireInv(s, Owner(Warehouse, id), now, ttl);
    case Renew(token, now, ttl) => RenewInv(s, token, now, ttl);
    case Release(token) => ReleaseInv(s, token);
  }

  lemma {:induction false} ExecuteInv(s: State, steps: seq<Step>)
    requires Inv(s)
    ensures Inv(Execute(s, steps))
    decreases |steps|
  {
    if steps == [] {
    } else {
      StepInv(s, steps[0]);
      ExecuteInv(Apply(s, steps[0]), steps[1..]);
    }
  }

  // ---------------------------------------------------------------------------------------
  // Theorems over whole runs
  // ---------------------------------------------------------------------------------------

  /** No step moves the lease version backwards. */
  lemma VersionNeverDecreases(s: State, step: Step)
    ensures s.row.version <= Apply(s, step).row.version
  {
    hide Forward, WritesAllowed, ApplyAll;
  }

  predicate IsAcquisition(step: Step) {
    step.GeneratorAcquire? || step.WarehouseAcquire?
  }

  /** Whom an acquisition would make the owner. */
  function Taker(step: Step): Owner
    requires IsAcquisition(step)
  {
    match step
    case GeneratorAcquire(g, _, _, _) => Owner(Generator, g)
    case WarehouseAcquire(id, _, _) => Owner(Warehouse, id)
  }

  /** The lease is taken when it is free or has expired by the taker's clock, for `ttl`, under the next version. */
  predicate IsTaken(row: Row, later: Row, owner: Owner, now: int, ttl: int) {
    && ttl > 0 && (row.hold.Held? ==> row.hold.expiresAt <= now)
    && later == Row(Held(owner, now + ttl), row.version + 1)
  }

  /** The owner extends a lease that has not expired. */
  predicate IsRenewed(row: Row, later: Row, token: Token, now: int, ttl: int) {
    && ttl > 0 && row.hold.Held? && row.hold.owner == token.owner && row.version == token.version
    && row.hold.expiresAt > now && later == Row(Held(token.owner, now + ttl), row.version)
  }

  /** The owner of the current version gives the lease up. */
  predicate IsGivenUp(row: Row, later: Row, token: Token) {
    && row.hold.Held? && row.hold.owner == token.owner && row.version == token.version
    && later == Row(Free, row.version + 1)
  }

  /** No step but a taking, a renewal or a release moves the lease row, and none moves it under a share lock. */
  lemma LeaseMovesOnlySo(s: State, step: Step)
    requires Apply(s, step).row != s.row
    ensures s.fences == {}
    ensures var later := Apply(s, step).row;
      || (IsAcquisition(step) && IsTaken(s.row, later, Taker(step), step.now, step.ttl))
      || (step.Renew? && IsRenewed(s.row, later, step.token, step.now, step.ttl))
      || (step.Release? && IsGivenUp(s.row, later, step.token))
  {
    hide Forward, WritesAllowed, ApplyAll;
  }

  /**
   A lease is not stolen: a step after which another owner holds it is an acquisition that found
   the earlier hold expired at its own time, and holds it for the time it asked for.
   */
  lemma HolderChangesAfterExpiry(s: State, step: Step)
    requires s.row.hold.Held? && Apply(s, step).row.hold.Held?
    requires Apply(s, step).row.hold.owner != s.row.hold.owner
    ensures IsAcquisition(step) && s.row.hold.expiresAt <= step.now
    ensures Apply(s, step).row == Row(Held(Taker(step), step.now + step.ttl), s.row.version + 1)
  {
    hide Apply;
    LeaseMovesOnlySo(s, step);
  }

  /**
   Unless a share lock is held, a lease that is free or has expired is granted, a live one goes to
   its own owner only, and a generator process exists exactly when it got its lease.
   */
  lemma AcquisitionIsAnswered(s: State, step: Step)
    requires IsAcquisition(step) && step.ttl > 0 && (step.GeneratorAcquire? ==> step.g !in s.gens)
    ensures var live := s.row.hold.Held? && s.row.hold.expiresAt > step.now;
      Apply(s, step).row == if s.fences != {} || live then s.row
                            else Row(Held(Taker(step), step.now + step.ttl), s.row.version + 1)
    ensures step.GeneratorAcquire? ==>
      var mine := s.row.hold.Held? && s.row.hold.expiresAt > step.now ==> s.row.hold.owner == Taker(step);
      (step.g in Apply(s, step).gens <==> s.fences == {} && mine)
  {
  }

  /** A renewal of the current token is granted while the lease lives, and a release of it always. */
  lemma CurrentTokenIsAnswered(s: State, token: Token, now: int, ttl: int)
    requires s.fences == {} && s.row.hold.Held? && s.row.hold.owner == token.owner && s.row.version == token.version
    ensures Apply(s, Release(token)).row == Row(Free, s.row.version + 1)
    ensures ttl > 0 && s.row.hold.expiresAt > now ==>
      Apply(s, Renew(token, now, ttl)).row == Row(Held(token.owner, now + ttl), s.row.version)
  {
  }

  /** A source transaction is fenced only under a lease that is still its generator's and has not expired. */
  lemma FenceNeedsLiveLease(s: State, g: nat, now: int)
    ensures Apply(s, EnterFence(g, now)) != s <==>
      && g in s.gens && s.gens[g].phase.Open?
      && s.row.hold.Held? && s.row.hold.owner == s.gens[g].token.owner && s.row.version == s.gens[g].token.version
      && s.row.hold.expiresAt > now
  {
    if Apply(s, EnterFence(g, now)) != s {
    } else if g in s.gens && s.gens[g].phase.Open? {
      assert CheckCurrent(s.row, s.gens[g].token, now).Refused?;
    }
  }

  /**
   Fencing: in every run, each version was granted to one owner only, and whenever a source
   commit completes under a token, that token was granted earlier and since then nobody
   acquired or released the lease.  No clock reading enters the statement.
   */
  lemma Fencing(s: State, steps: seq<Step>)
    requires Initial(s)
    ensures var t := Execute(s, steps);
      && (forall a, b :: a in t.issued && b in t.issued && a.version == b.version ==> a.owner == b.owner)
      && (forall j :: 0 <= j < |t.events| && t.events[j].SourceCommit? ==>
            exists i :: GrantedSince(t.events, i, j, t.events[j].token))
  {
    InitialHasInv(s);
    ExecuteInv(s, steps);
    hide Execute, GrantedSince, GensOk, SourcesOk, MarkersOk, RunsOk;
  }

  /**
   Exactly once: in every run, at most one source transaction commits per deterministic
   input, and every call that returned reported the run id, counts and hash of that commit.
   */
  lemma ExactlyOnce(s: State, steps: seq<Step>)
    requires Initial(s)
    ensures var t := Execute(s, steps);
      && (forall i, j :: 0 <= i < j < |t.commitLog| ==> t.commitLog[i].input != t.commitLog[j].input)
      && (forall k :: 0 <= k < |t.reports| ==> t.reports[k] in t.commitLog)
  {
    InitialHasInv(s);
    ExecuteInv(s, steps);
    var t := Execute(s, steps);
    hide Execute, LeaseOk, GensOk, SourcesOk, EventsOk;
    forall k | 0 <= k < |t.reports| ensures t.reports[k] in t.commitLog {
      assert IsMarked(t, t.reports[k]);
    }
  }

  lemma {:induction false} EvolvedBetween(sources: seq<Source>, i: nat, j: nat, t: Table)
    requires i <= j < |sources|
    requires forall k :: 0 <= k < |sources| - 1 ==> SourceEvolved(sources[k], sources[k + 1])
    ensures Evolved(Rows(sources[i], t), Rows(sources[j], t))
    decreases j - i
  {
    hide Evolved;
    if i == j {
      EvolvedReflexive(Rows(sources[i], t));
    } else {
      EvolvedBetween(sources, i, j - 1, t);
      assert SourceEvolved(sources[j - 1], sources[j - 1 + 1]);
      EvolvedTransitive(Rows(sources[i], t), Rows(sources[j - 1], t), Rows(sources[j], t));
    }
  }

  /** Every row ever added to a table is newer than all rows the table had before it. */
  lemma SourceOnlyMovesForward(s: State, steps: seq<Step>, i: nat, j: nat, table: Table)
    requires Initial(s)
    requires i <= j < |Execute(s, steps).sources|
    ensures var t := Execute(s, steps);
      Evolved(Rows(t.sources[i], table), Rows(t.sources[j], table))
  {
    InitialHasInv(s);
    ExecuteInv(s, steps);
    EvolvedBetween(Execute(s, steps).sources, i, j, table);
  }
}
