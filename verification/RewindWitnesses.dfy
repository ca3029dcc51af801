/**
 Two rewinds that do not bring back what they promise.

 Both are runs of the joint system from its seeded start.  In the first a row is written between
 the resolution of the rewind's target and the next snapshot, stamped before the boundary; in
 the second an orphan older than the rewind is reconciled onto the rewound watermark.  The runs
 are made of blocks, one process after the other: block `n` runs at time 10n, holds its leases
 for ten units and uses `n` as the identity of its process and as the length of its batch name.
 */
module RewindWitnesses {
  import opened Cursors
  import opened Extraction
  import opened SourceLease
  import opened BronzeSystem
  import opened BronzeSafety
  import G = BronzeGuarantees
  import I = IngestionService
  import S = SourceSystem
  import V = Validation

  const TABLE: Table := S.Customers

  function Name(n: nat): string {
    seq(n, _ => 'b')
  }

  function NameKey(n: nat): Key {
    Key(Name(n), TABLE)
  }

  // ---------------------------------------------------------------------------------------
  // Runs are concatenated
  // ---------------------------------------------------------------------------------------

  lemma ExecuteFirst(j: State, step: Step, rest: seq<Step>)
    ensures Execute(j, [step] + rest) == Execute(Apply(j, step), rest)
  {
    hide Apply;
    assert ([step] + rest)[1..] == rest;
  }

  lemma {:induction false} ExecuteAppend(j: State, steps: seq<Step>, more: seq<Step>)
    ensures Execute(j, steps + more) == Execute(Execute(j, steps), more)
    decreases |steps|
  {
    hide Apply;
    if steps == [] {
      assert steps + more == more;
    } else {
      assert (steps + more)[1..] == steps[1..] + more;
      ExecuteAppend(Apply(j, steps[0]), steps[1..], more);
    }
  }

  lemma ExecutesNone(j: State)
    ensures Execute(j, []) == j
  {
  }

  lemma ExecutesOne(j: State, a: Step)
    ensures Execute(j, [a]) == Apply(j, a)
  {
    hide Apply, Execute;
    assert [a] == [a] + [];
    ExecuteFirst(j, a, []);
    ExecutesNone(Apply(j, a));
  }

  lemma ExecutesTwo(j: State, a: Step, b: Step)
    ensures Execute(j, [a, b]) == Apply(Apply(j, a), b)
  {
    hide Apply, Execute;
    assert [a, b] == [a] + [b];
    ExecuteFirst(j, a, [b]);
    ExecutesOne(Apply(j, a), b);
  }

  lemma ExecutesThree(j: State, a: Step, b: Step, c: Step)
    ensures Execute(j, [a, b, c]) == Apply(Apply(Apply(j, a), b), c)
  {
    hide Apply, Execute;
    assert [a, b, c] == [a] + [b, c];
    ExecuteFirst(j, a, [b, c]);
    ExecutesTwo(Apply(j, a), b, c);
  }

  // ---------------------------------------------------------------------------------------
  // A generator run
  // ---------------------------------------------------------------------------------------

  function InputOf(n: nat, w: Record): S.Input {
    S.Input("", n, w.cursor.ts, 0, "", "", 1)
  }

  function WritesOf(w: Record): S.Writes {
    map[TABLE := {w}]
  }

  function ResultOf(n: nat): S.RunResult {
    S.RunResult(n, map[], 0)
  }

  /**
   The source between two blocks: `past` holds the table's rows in every source state, all other
   tables are empty, and no lock, lease or identity stands in the way of block `n`.
   */
  ghost predicate Quiet(s: S.State, n: nat, past: seq<set<Record>>) {
    && s.fences == {} && s.row.version == n && (s.row.hold.Held? ==> s.row.hold.expiresAt <= 10 * n)
    && past != [] && |s.sources| == |past|
    && (forall i :: 0 <= i < |past| ==> S.Rows(s.sources[i], TABLE) == past[i])
    && (forall t :: t != TABLE ==> S.Rows(s.Source(), t) == {})
    && (forall g :: g in s.gens || g in s.runs ==> g < n)
    && (forall i :: i in s.markers ==> i.seed < n)
  }

  /** Generator `n` is in a phase; everything else of the source stands as in `s`. */
  ghost predicate Generating(s: S.State, k: S.State, n: nat, input: S.Input, phase: S.Phase) {
    && k.row == Row(Held(Owner(Generator, n), 10 * n + 10), n + 1)
    && k.sources == s.sources && k.markers == s.markers
    && n in k.gens && k.gens[n] == S.Gen(input, Token(Owner(Generator, n), n + 1), phase)
    && (forall g :: g != n ==> (g in k.gens <==> g in s.gens) && (g in k.runs <==> g in s.runs))
  }

  lemma GeneratorStarts(s: S.State, n: nat, past: seq<set<Record>>, input: S.Input)
    requires Quiet(s, n, past) && input.seed == n
    ensures var k := S.DoRecordStart(S.DoMarkerMiss(S.DoGeneratorAcquire(s, n, input, 10 * n, 10), n), n);
      Generating(s, k, n, input, S.Started) && k.fences == {} && n in k.runs
  {
  }

  lemma GeneratorFenced(s: S.State, k: S.State, n: nat, input: S.Input, writes: S.Writes, result: S.RunResult)
    requires Generating(s, k, n, input, S.Started) && k.fences == {} && n in k.runs && result.runId == n
    requires S.Forward(s.Source(), input.date) && S.WritesAllowed(writes, input.date)
    ensures var l := S.DoEnterFence(S.DoOpen(k, n, writes, result), n, 10 * n);
      Generating(s, l, n, input, S.Fenced(writes, result)) && l.fences == {n} && n in l.runs
  {
    hide S.Forward, S.WritesAllowed;
  }

  lemma GeneratorCommits(s: S.State, k: S.State, n: nat, input: S.Input, writes: S.Writes, result: S.RunResult)
    requires Generating(s, k, n, input, S.Fenced(writes, result)) && k.fences == {n} && n in k.runs
    requires result.runId == n
    ensures var l := S.DoReturn(S.DoRecordSuccess(S.DoLeaveFence(S.DoCommit(k, n), n), n), n);
      && l.row == k.row && l.fences == {} && l.sources == s.sources + [S.ApplyAll(s.Source(), writes)]
      && l.markers == s.markers[input := result]
      && (forall g :: g != n ==> (g in l.gens <==> g in s.gens) && (g in l.runs <==> g in s.runs))
  {
    hide S.ApplyAll;
  }

  lemma MayWrite(s: S.State, n: nat, past: seq<set<Record>>, w: Record)
    requires Quiet(s, n, past) && AllBefore(past[|past| - 1], w.cursor.ts)
    ensures S.Forward(s.Source(), w.cursor.ts) && S.WritesAllowed(WritesOf(w), w.cursor.ts)
  {
    forall t | S.Mutable(t) ensures AllBefore(S.Rows(s.Source(), t), w.cursor.ts) {
      if t != TABLE {
        assert S.Rows(s.Source(), t) == {};
      }
    }
  }

  lemma WrittenRows(source: S.Source, w: Record)
    requires forall t :: t != TABLE ==> S.Rows(source, t) == {}
    ensures var later := S.ApplyAll(source, WritesOf(w));
      && S.Rows(later, TABLE) == ApplyWrites(S.Rows(source, TABLE), {w})
      && forall t :: t != TABLE ==> S.Rows(later, t) == {}
  {
    hide S.ApplyAll;
    S.RowsOfApplyAll(source, WritesOf(w), TABLE);
    forall t | t != TABLE ensures S.Rows(S.ApplyAll(source, WritesOf(w)), t) == {} {
      S.RowsOfApplyAll(source, WritesOf(w), t);
      assert S.Rows(source, t) == {};
    }
  }

  lemma QuietAfterCommit(s: S.State, l: S.State, n: nat, past: seq<set<Record>>, w: Record)
    requires Quiet(s, n, past) && l.fences == {} && l.row == Row(Held(Owner(Generator, n), 10 * n + 10), n + 1)
    requires l.sources == s.sources + [S.ApplyAll(s.Source(), WritesOf(w))]
    requires l.markers == s.markers[InputOf(n, w) := ResultOf(n)]
    requires forall g :: g != n ==> (g in l.gens <==> g in s.gens) && (g in l.runs <==> g in s.runs)
    ensures Quiet(l, n + 1, past + [ApplyWrites(past[|past| - 1], {w})])
  {
    hide S.ApplyAll, ApplyWrites;
    WrittenRows(s.Source(), w);
    var longer := past + [ApplyWrites(past[|past| - 1], {w})];
    forall i | 0 <= i < |longer| ensures S.Rows(l.sources[i], TABLE) == longer[i] {
      if i < |past| {
        assert l.sources[i] == s.sources[i];
      }
    }
  }

  /** A generator run that writes one row. */
  function GeneratorSteps(n: nat, w: Record): seq<Step> {
    [SourceStep(S.GeneratorAcquire(n, InputOf(n, w), 10 * n, 10)), SourceStep(S.MarkerMiss(n)),
     SourceStep(S.RecordStart(n))]
    + [SourceStep(S.OpenTransaction(n, WritesOf(w), ResultOf(n))), SourceStep(S.EnterFence(n, 10 * n)),
       SourceStep(S.CommitSource(n))]
    + [SourceStep(S.LeaveFence(n)), SourceStep(S.RecordSuccess(n)), SourceStep(S.Return(n))]
  }

  function Generated(s: S.State, n: nat, w: Record): S.State {
    var started := S.DoRecordStart(S.DoMarkerMiss(S.DoGeneratorAcquire(s, n, InputOf(n, w), 10 * n, 10), n), n);
    var fenced := S.DoEnterFence(S.DoOpen(started, n, WritesOf(w), ResultOf(n)), n, 10 * n);
    S.DoReturn(S.DoRecordSuccess(S.DoLeaveFence(S.DoCommit(fenced, n), n), n), n)
  }

  lemma SourceThree(j: State, a: S.Step, b: S.Step, c: S.Step)
    ensures Execute(j, [SourceStep(a), SourceStep(b), SourceStep(c)])
      == j.(src := S.Apply(S.Apply(S.Apply(j.src, a), b), c))
  {
    hide Execute, S.Apply;
    ExecutesThree(j, SourceStep(a), SourceStep(b), SourceStep(c));
  }

  lemma GeneratorExecutes(j: State, n: nat, w: Record)
    ensures Execute(j, GeneratorSteps(n, w)) == j.(src := Generated(j.src, n, w))
  {
    hide Apply, Execute, S.DoGeneratorAcquire, S.DoMarkerMiss, S.DoRecordStart, S.DoOpen, S.DoEnterFence, S.DoCommit,
         S.DoLeaveFence, S.DoRecordSuccess, S.DoReturn, InputOf, WritesOf, ResultOf;
    var a := [SourceStep(S.GeneratorAcquire(n, InputOf(n, w), 10 * n, 10)), SourceStep(S.MarkerMiss(n)),
              SourceStep(S.RecordStart(n))];
    var b := [SourceStep(S.OpenTransaction(n, WritesOf(w), ResultOf(n))), SourceStep(S.EnterFence(n, 10 * n)),
              SourceStep(S.CommitSource(n))];
    var c := [SourceStep(S.LeaveFence(n)), SourceStep(S.RecordSuccess(n)), SourceStep(S.Return(n))];
    ExecuteAppend(j, a + b, c);
    ExecuteAppend(j, a, b);
    SourceThree(j, a[0].step, a[1].step, a[2].step);
    SourceThree(Execute(j, a), b[0].step, b[1].step, b[2].step);
    SourceThree(Execute(Execute(j, a), b), c[0].step, c[1].step, c[2].step);
  }

  lemma SeedOf(n: nat, w: Record)
    ensures InputOf(n, w).seed == n && InputOf(n, w).date == w.cursor.ts && ResultOf(n).runId == n
  {
  }

  lemma FencedRow(s: S.State, k: S.State, n: nat, input: S.Input, phase: S.Phase)
    requires Generating(s, k, n, input, phase)
    ensures k.row == Row(Held(Owner(Generator, n), 10 * n + 10), n + 1)
  {
  }

  lemma GeneratedIs(s: S.State, n: nat, w: Record)
    ensures var started := S.DoRecordStart(S.DoMarkerMiss(S.DoGeneratorAcquire(s, n, InputOf(n, w), 10 * n, 10), n), n);
      var fenced := S.DoEnterFence(S.DoOpen(started, n, WritesOf(w), ResultOf(n)), n, 10 * n);
      Generated(s, n, w) == S.DoReturn(S.DoRecordSuccess(S.DoLeaveFence(S.DoCommit(fenced, n), n), n), n)
  {
    hide S.DoGeneratorAcquire, S.DoMarkerMiss, S.DoRecordStart, S.DoOpen, S.DoEnterFence, S.DoCommit,
         S.DoLeaveFence, S.DoRecordSuccess, S.DoReturn;
  }

  lemma GeneratorStaysQuiet(s: S.State, n: nat, past: seq<set<Record>>, w: Record)
    requires Quiet(s, n, past) && AllBefore(past[|past| - 1], w.cursor.ts)
    ensures Quiet(Generated(s, n, w), n + 1, past + [ApplyWrites(past[|past| - 1], {w})])
  {
    hide *;
    var input := InputOf(n, w);
    SeedOf(n, w);
    var started := S.DoRecordStart(S.DoMarkerMiss(S.DoGeneratorAcquire(s, n, input, 10 * n, 10), n), n);
    GeneratorStarts(s, n, past, input);
    MayWrite(s, n, past, w);
    GeneratorFenced(s, started, n, input, WritesOf(w), ResultOf(n));
    var fenced := S.DoEnterFence(S.DoOpen(started, n, WritesOf(w), ResultOf(n)), n, 10 * n);
    GeneratorCommits(s, fenced, n, input, WritesOf(w), ResultOf(n));
    FencedRow(s, fenced, n, input, S.Fenced(WritesOf(w), ResultOf(n)));
    GeneratedIs(s, n, w);
    QuietAfterCommit(s, Generated(s, n, w), n, past, w);
  }

  // ---------------------------------------------------------------------------------------
  // What an attempt leaves alone
  // ---------------------------------------------------------------------------------------

  ghost predicate OnlyAt<V>(m: map<nat, V>, later: map<nat, V>, n: nat) {
    later == m || (n in later && later == m[n := later[n]])
  }

  lemma OnlyAtTransitive<V>(a: map<nat, V>, b: map<nat, V>, c: map<nat, V>, n: nat)
    requires OnlyAt(a, b, n) && OnlyAt(b, c, n)
    ensures OnlyAt(a, c, n)
  {
  }

  /** Nothing was quarantined, no rewind moved and only attempt `n` changed. */
  ghost predicate Frame(j: State, k: State, n: nat) {
    && k.rewinders == j.rewinders && k.quarantine == j.quarantine
    && OnlyAt(j.ingests, k.ingests, n) && OnlyAt(j.runs, k.runs, n)
  }

  ghost predicate SameAttempt(j: State, k: State, i: nat) {
    && (i in k.ingests <==> i in j.ingests) && (i in j.ingests ==> k.ingests[i] == j.ingests[i])
    && (i in k.runs <==> i in j.runs) && (i in j.runs ==> k.runs[i] == j.runs[i])
  }

  lemma FrameKeeps(j: State, k: State, n: nat, i: nat)
    requires Frame(j, k, n) && i != n
    ensures SameAttempt(j, k, i)
  {
  }

  /** A step of attempt `n`, or of the source. */
  predicate StepOf(step: Step, n: nat) {
    match step
    case SourceStep(_) => true
    case ReadWatermark(p, _, _) => p == n
    case LookUp(p) => p == n
    case CheckSource(p, _, _) => p == n
    case LeaseForIngest(p, _, _) => p == n
    case OpenSnapshot(p) => p == n
    case Register(p) => p == n
    case Extract(p, _, _) => p == n
    case Verify(p, _) => p == n
    case StoreData(p) => p == n
    case StoreManifest(p) => p == n
    case Recheck(p, _) => p == n
    case CommitRun(p, _) => p == n
    case CrashRun(p) => p == n
    case _ => false
  }

  lemma FrameOfPut(j: State, k: State, n: nat, x: Ingest)
    requires k.ingests == j.ingests[n := x] && k.rewinders == j.rewinders && k.quarantine == j.quarantine
    requires k.runs == j.runs || (n in k.runs && k.runs == j.runs[n := k.runs[n]])
    ensures Frame(j, k, n)
  {
  }

  lemma SourceFrame(j: State, k: State, n: nat)
    requires k == j.(src := k.src)
    ensures Frame(j, k, n)
  {
  }

  lemma FrameReflexive(j: State, n: nat)
    ensures Frame(j, j, n)
  {
  }

  lemma StepFrame(j: State, step: Step, n: nat)
    requires StepOf(step, n)
    ensures Frame(j, Apply(j, step), n)
  {
    hide Frame, Mark, CheckCurrent, Now, Keyed, FetchUpperBound, Leasable, HoldsLease, InRange, RowsAt, LeasesCurrent,
         RejectRateAccepted, Events, S.Apply;
    var k := Apply(j, step);
    FrameReflexive(j, n);
    if step.SourceStep? {
      SourceFrame(j, k, n);
    } else if k != j {
      FrameOfPut(j, k, n, k.ingests[n]);
    }
  }

  lemma FrameTransitive(a: State, b: State, c: State, n: nat)
    requires Frame(a, b, n) && Frame(b, c, n)
    ensures Frame(a, c, n)
  {
    hide OnlyAt;
    OnlyAtTransitive(a.ingests, b.ingests, c.ingests, n);
    OnlyAtTransitive(a.runs, b.runs, c.runs, n);
  }

  lemma {:induction false} ExecuteFrame(j: State, steps: seq<Step>, n: nat)
    requires forall step :: step in steps ==> StepOf(step, n)
    ensures Frame(j, Execute(j, steps), n)
    decreases |steps|
  {
    hide Frame, StepOf, Apply;
    if steps == [] {
      FrameReflexive(j, n);
    } else {
      StepFrame(j, steps[0], n);
      ExecuteFrame(Apply(j, steps[0]), steps[1..], n);
      FrameTransitive(j, Apply(j, steps[0]), Execute(j, steps), n);
    }
  }

  // ---------------------------------------------------------------------------------------
  // An attempt up to its manifest
  // ---------------------------------------------------------------------------------------

  ghost predicate AttemptsBefore(j: State, n: nat) {
    && (forall p :: p in j.ingests ==> p < n && j.ingests[p].batch == Name(p))
    && (forall p :: p in j.runs ==> p < n)
  }

  predicate LeaseIsOver(m: Watermark, now: int) {
    m.lease.HeldBy? ==> m.lease.expiresAt <= now
  }

  /** The system between two blocks. */
  ghost predicate Stands(j: State, n: nat, past: seq<set<Record>>) {
    && Inv(j) && Quiet(j.src, n, past) && AttemptsBefore(j, n)
    && LeaseIsOver(Mark(j.marks, TABLE), 10 * n) && j.quarantine == map[]
  }

  function TokenOf(n: nat): Token {
    Token(Owner(Warehouse, n), n + 1)
  }

  function Ask(n: nat): I.Request {
    I.Request(TABLE, Name(n), 1, TokenOf(n), 10 * n, 10, 1, V.TableConfig([], [], [], []), [])
  }

  function StartSteps(n: nat): seq<Step> {
    [SourceStep(S.WarehouseAcquire(n, 10 * n, 10)), ReadWatermark(n, TABLE, Name(n)), LookUp(n)]
  }

  function LeaseSteps(n: nat): seq<Step> {
    [CheckSource(n, TokenOf(n), 10 * n), LeaseForIngest(n, 10 * n, 10), OpenSnapshot(n)]
  }

  function ReadSteps(n: nat, valid: set<Record>): seq<Step> {
    [Register(n), Extract(n, valid, {}), Verify(n, 10 * n)]
  }

  /** An attempt up to its manifest; nothing is rejected. */
  function StoreSteps(n: nat, valid: set<Record>): seq<Step> {
    StartSteps(n) + LeaseSteps(n) + ReadSteps(n, valid) + [StoreQuarantine(n), StoreData(n), StoreManifest(n)]
  }

  function AcquiredBy(j: State, n: nat): State {
    j.(src := S.DoAcquire(j.src, Owner(Warehouse, n), 10 * n, 10).0)
  }

  function Verifying(j: State, n: nat, valid: set<Record>): State {
    DoVerify(DoExtract(I.Registering(AcquiredBy(j, n), n, Ask(n)), n, valid, {}), n, 10 * n)
  }

  function Storing(j: State, n: nat, valid: set<Record>): State {
    DoStoreManifest(DoStoreData(DoStoreQuarantine(Verifying(j, n, valid), n), n), n)
  }

  lemma StartExecutes(j: State, n: nat)
    ensures Execute(j, StartSteps(n)) == I.Lookup(AcquiredBy(j, n), n, Ask(n))
  {
    hide Execute, S.DoAcquire, DoReadWatermark, DoLookUp, TokenOf, Name;
    ExecutesThree(j, SourceStep(S.WarehouseAcquire(n, 10 * n, 10)), ReadWatermark(n, TABLE, Name(n)), LookUp(n));
  }

  lemma LeaseExecutes(j: State, n: nat)
    ensures Execute(j, LeaseSteps(n))
      == DoOpenSnapshot(DoLeaseForIngest(DoCheckSource(j, n, TokenOf(n), 10 * n), n, 10 * n, 10), n)
  {
    hide Execute, DoCheckSource, DoLeaseForIngest, DoOpenSnapshot, TokenOf;
    ExecutesThree(j, CheckSource(n, TokenOf(n), 10 * n), LeaseForIngest(n, 10 * n, 10), OpenSnapshot(n));
  }

  lemma ReadExecutes(j: State, n: nat, valid: set<Record>)
    ensures Execute(j, ReadSteps(n, valid)) == DoVerify(DoExtract(DoRegister(j, n), n, valid, {}), n, 10 * n)
  {
    hide Execute, DoRegister, DoExtract, DoVerify;
    ExecutesThree(j, Register(n), Extract(n, valid, {}), Verify(n, 10 * n));
  }

  lemma VerifyingExecutes(j: State, n: nat, valid: set<Record>)
    ensures Execute(j, StartSteps(n) + LeaseSteps(n) + ReadSteps(n, valid)) == Verifying(j, n, valid)
  {
    hide Apply, Execute, I.Lookup, AcquiredBy, DoCheckSource, DoLeaseForIngest, DoOpenSnapshot, DoRegister, DoExtract,
         DoVerify, TokenOf, Name, StartSteps, LeaseSteps, ReadSteps;
    var a, b, c := StartSteps(n), LeaseSteps(n), ReadSteps(n, valid);
    ExecuteAppend(j, a + b, c);
    ExecuteAppend(j, a, b);
    StartExecutes(j, n);
    LeaseExecutes(Execute(j, a), n);
    ReadExecutes(Execute(Execute(j, a), b), n, valid);
  }

  lemma UploadExecutes(j: State, n: nat)
    ensures Execute(j, [StoreQuarantine(n), StoreData(n), StoreManifest(n)])
      == DoStoreManifest(DoStoreData(DoStoreQuarantine(j, n), n), n)
  {
    hide Execute, DoStoreQuarantine, DoStoreData, DoStoreManifest;
    ExecutesThree(j, StoreQuarantine(n), StoreData(n), StoreManifest(n));
  }

  lemma StoreExecutes(j: State, n: nat, valid: set<Record>)
    ensures Execute(j, StoreSteps(n, valid)) == Storing(j, n, valid)
  {
    hide Apply, Execute, Verifying, DoStoreQuarantine, DoStoreData, DoStoreManifest, StartSteps, LeaseSteps, ReadSteps;
    VerifyingExecutes(j, n, valid);
    var read := StartSteps(n) + LeaseSteps(n) + ReadSteps(n, valid);
    ExecuteAppend(j, read, [StoreQuarantine(n), StoreData(n), StoreManifest(n)]);
    UploadExecutes(Execute(j, read), n);
  }

  lemma AcquireWorks(s: S.State, n: nat, past: seq<set<Record>>)
    requires Quiet(s, n, past)
    ensures var k := S.DoAcquire(s, Owner(Warehouse, n), 10 * n, 10).0;
      && Quiet(k, n + 1, past) && k.sources == s.sources && k.row == Row(Held(Owner(Warehouse, n), 10 * n + 10), n + 1)
  {
    assert S.DoAcquire(s, Owner(Warehouse, n), 10 * n, 10).0.Source() == s.Source();
  }

  lemma EntryHasAttempt(j: State, key: Key)
    requires key in j.catalog && EntryOk(key, j.catalog[key], j.ingests)
    ensures j.catalog[key].run in j.ingests && j.ingests[j.catalog[key].run].BatchKey() == key
  {
  }

  /** No object or catalog row can carry the batch of an attempt that has not started. */
  lemma BatchIsNew(j: State, n: nat)
    requires Inv(j) && AttemptsBefore(j, n)
    ensures NameKey(n) !in j.data && NameKey(n) !in j.manifests && NameKey(n) !in j.catalog
  {
    hide Inv, Mark, EntryOk, VersionOk, TenureOk, SnapshotOk, UploadOk;
    StorageFacts(j);
    assert forall p: nat :: p < n ==> |Name(p)| < |Name(n)|;
    if NameKey(n) in j.catalog {
      G.EntryAttempt(j, NameKey(n));
      EntryHasAttempt(j, NameKey(n));
    }
  }

  /** What an attempt leaves behind once its manifest is stored. */
  ghost predicate Stored(k: State, n: nat, epoch: nat, seen: Position, upper: Position, valid: set<Record>) {
    && n in k.ingests && n in k.runs && k.runs[n] == RunRow(TABLE, seen, upper, Running)
    && var x := k.ingests[n];
    && x.table == TABLE && x.batch == Name(n) && x.seen == seen && x.upper == upper && x.epoch == epoch
    && x.valid == valid && x.rejected == {} && x.stage == ManifestStored
  }

  ghost predicate IsTop(top: Record, rows: set<Record>) {
    top in rows && forall r :: r in rows && r != top ==> Less(r.cursor, top.cursor)
  }

  lemma TopIsUpper(rows: set<Record>, seen: Position, top: Record)
    requires Keyed(rows) && IsTop(top, Beyond(rows, seen))
    ensures FetchUpperBound(rows, seen) == At(top.cursor)
    ensures InRange(rows, seen, At(top.cursor)) == Beyond(rows, seen)
  {
    UpperBoundClosesRange(rows, seen);
    var upper := FetchUpperBound(rows, seen);
    assert UpTo(top.cursor, upper) by {
      assert top in InRange(rows, seen, upper);
    }
    var last :| last in Beyond(rows, seen) && last.cursor == upper.cursor;
    LessTrichotomy(last.cursor, top.cursor);
  }

  /** The state in which the attempt takes up its work. */
  lemma BlockStarts(j: State, n: nat, past: seq<set<Record>>)
    requires Stands(j, n, past)
    ensures var k := AcquiredBy(j, n);
      && Inv(k) && Quiet(k.src, n + 1, past) && I.SourceHeld(k, Ask(n))
      && n !in k.ingests && n !in k.runs && NameKey(n) !in k.catalog && NameKey(n) !in k.data
      && NameKey(n) !in k.manifests && Leasable(Mark(k.marks, TABLE), Ingestion(n), 10 * n)
      && Now(k.src.sources, TABLE) == past[|past| - 1] && Keyed(past[|past| - 1])
  {
    hide Inv, Mark, Keyed, S.DoAcquire;
    BatchIsNew(j, n);
    SourceStepInv(j, S.WarehouseAcquire(n, 10 * n, 10));
    AcquireWorks(j.src, n, past);
    I.SnapshotReady(AcquiredBy(j, n), Ask(n));
  }

  lemma RegistersRow(j: State, n: nat)
    requires AtStage(j, n, Opened) && n !in j.runs
    ensures var k, x := DoRegister(j, n), j.ingests[n];
      n in k.runs && k.runs[n] == RunRow(x.table, x.seen, x.upper, Running)
  {
  }

  lemma BlockRegisters(j: State, n: nat)
    requires j.src.sources != [] && Keyed(Now(j.src.sources, TABLE)) && I.SourceHeld(j, Ask(n))
    requires n !in j.ingests && n !in j.runs && NameKey(n) !in j.catalog
    requires Leasable(Mark(j.marks, TABLE), Ingestion(n), 10 * n)
    ensures var k, x := I.Registering(j, n, Ask(n)), I.Registration(j, n, Ask(n));
      && I.Live(j, k, n, Ask(n), x) && k.runs[n] == RunRow(TABLE, x.seen, x.upper, Running)
      && k.data == j.data && k.manifests == j.manifests
  {
    hide I.Leasing, Leasable, Mark, Keyed, FetchUpperBound, I.SourceHeld, Now, DoOpenSnapshot, DoRegister, SameMarks;
    var q := Ask(n);
    I.LeasingHolds(j, n, q);
    I.SnapshotHolds(j, I.Leasing(j, n, q), n, q);
    var atSnapshot := DoOpenSnapshot(I.Leasing(j, n, q), n);
    I.RegisterHolds(j, atSnapshot, n, q);
    RegistersRow(atSnapshot, n);
    I.HoldsIsLive(j, I.Registering(j, n, q), n, q, I.Registration(j, n, q));
  }

  lemma ExtractKeepsRuns(j: State, n: nat, valid: set<Record>, rejected: set<Record>)
    ensures DoExtract(j, n, valid, rejected).runs == j.runs
    ensures DoExtract(j, n, valid, rejected).data == j.data && DoExtract(j, n, valid, rejected).manifests == j.manifests
  {
    hide InRange, RowsAt;
  }

  lemma NothingRejected(valid: set<Record>, rejected: set<Record>)
    requires rejected == {}
    ensures RejectRateAccepted(|valid|, |rejected|) && valid !! rejected && valid + rejected == valid
  {
  }

  /** Pages read and both leases checked again. */
  lemma BlockVerifies(j: State, k: State, n: nat, valid: set<Record>)
    requires j.src.sources != [] && Keyed(Now(j.src.sources, TABLE)) && I.SourceHeld(j, Ask(n))
    requires I.Live(j, k, n, Ask(n), I.Registration(j, n, Ask(n))) && I.Registration(j, n, Ask(n)).upper.At?
    requires valid == InRange(Now(j.src.sources, TABLE), Mark(j.marks, TABLE).cursor,
                              I.Registration(j, n, Ask(n)).upper)
    ensures var l := DoVerify(DoExtract(k, n, valid, {}), n, 10 * n);
      && I.Live(j, l, n, Ask(n), I.ReadAttempt(j, n, Ask(n), valid, {}, Verified))
      && l.runs == k.runs && l.data == k.data && l.manifests == k.manifests
  {
    hide Mark, Keyed, FetchUpperBound, I.SourceHeld, Now, SameMarks, InRange, DoExtract, DoVerify, LeasesCurrent,
         RejectRateAccepted;
    var q := Ask(n);
    NothingRejected(valid, {});
    I.LiveExtracts(j, k, n, q, valid, {});
    ExtractKeepsRuns(k, n, valid, {});
    var extracted := DoExtract(k, n, valid, {});
    var x := I.ReadAttempt(j, n, q, valid, {}, Extracted);
    I.LiveLeases(j, extracted, n, q, x);
    I.VerifyAdvances(extracted, n, q.now);
    I.VerifyStoresNothing(extracted, n, q.now);
    I.UnderwayIsLive(j, extracted, DoVerify(extracted, n, q.now), n, q, x, Verified);
  }

  /** Nothing to quarantine, then the object and its manifest. */
  lemma BlockUploads(j: State, k: State, n: nat, x: Ingest)
    requires I.Live(j, k, n, Ask(n), x) && x.stage == Verified && x.rejected == {} && x.BatchKey() == NameKey(n)
    requires NameKey(n) !in k.data && NameKey(n) !in k.manifests
    ensures var l := DoStoreManifest(DoStoreData(DoStoreQuarantine(k, n), n), n);
      I.Live(j, l, n, Ask(n), x.(stage := ManifestStored)) && l.runs == k.runs
  {
    hide Mark, SameMarks, DoStoreQuarantine, DoStoreData, DoStoreManifest;
    var q := Ask(n);
    I.QuarantineAdvances(k, n);
    I.UnderwayIsLive(j, k, DoStoreQuarantine(k, n), n, q, x, QuarantineStored);
    var a := DoStoreQuarantine(k, n);
    I.DataAdvances(a, n);
    I.UnderwayIsLive(j, a, DoStoreData(a, n), n, q, x.(stage := QuarantineStored), DataStored);
    var b := DoStoreData(a, n);
    I.ManifestAdvances(b, n);
    I.UnderwayIsLive(j, b, DoStoreManifest(b, n), n, q, x.(stage := DataStored), ManifestStored);
  }

  lemma VerifyingFrame(j: State, n: nat, valid: set<Record>)
    ensures Frame(j, Verifying(j, n, valid), n)
  {
    hide Apply, Execute, Verifying, Frame;
    VerifyingExecutes(j, n, valid);
    ExecuteFrame(j, StartSteps(n) + LeaseSteps(n) + ReadSteps(n, valid), n);
  }

  lemma QuarantineFrame(j: State, n: nat)
    requires n in j.ingests && j.ingests[n].rejected == {}
    ensures Frame(j, DoStoreQuarantine(j, n), n)
  {
    hide Frame;
    FrameReflexive(j, n);
    if AtStage(j, n, Verified) {
      FrameOfPut(j, DoStoreQuarantine(j, n), n, DoStoreQuarantine(j, n).ingests[n]);
    }
  }

  lemma StoringFrame(j: State, n: nat, valid: set<Record>)
    requires n in Verifying(j, n, valid).ingests && Verifying(j, n, valid).ingests[n].rejected == {}
    ensures Frame(j, Storing(j, n, valid), n)
  {
    hide Verifying, Frame, DoStoreQuarantine, DoStoreData, DoStoreManifest;
    var a := Verifying(j, n, valid);
    VerifyingFrame(j, n, valid);
    QuarantineFrame(a, n);
    var b := DoStoreQuarantine(a, n);
    StepFrame(b, StoreData(n), n);
    StepFrame(DoStoreData(b, n), StoreManifest(n), n);
    FrameTransitive(j, a, b, n);
    FrameTransitive(j, b, DoStoreData(b, n), n);
    FrameTransitive(j, DoStoreData(b, n), Storing(j, n, valid), n);
  }

  /** The attempt as it stands once its manifest is stored. */
  function StoredAttempt(j: State, n: nat, valid: set<Record>): Ingest
    requires j.src.sources != [] && Keyed(Now(j.src.sources, TABLE))
  {
    I.ReadAttempt(j, n, Ask(n), valid, {}, ManifestStored)
  }

  lemma StoringIsLive(j: State, n: nat, past: seq<set<Record>>, valid: set<Record>, top: Record)
    requires Stands(j, n, past) && IsTop(top, Beyond(past[|past| - 1], Mark(j.marks, TABLE).cursor))
    requires valid == Beyond(past[|past| - 1], Mark(j.marks, TABLE).cursor)
    ensures var m, k := AcquiredBy(j, n), Storing(j, n, valid);
      && m.src.sources != [] && Keyed(Now(m.src.sources, TABLE)) && I.SourceHeld(m, Ask(n)) && Quiet(m.src, n + 1, past)
      && I.Live(m, k, n, Ask(n), StoredAttempt(m, n, valid))
      && k.runs[n] == RunRow(TABLE, Mark(j.marks, TABLE).cursor, At(top.cursor), Running)
      && StoredAttempt(m, n, valid).upper == At(top.cursor) && StoredAttempt(m, n, valid).epoch == |past| - 1
      && Frame(j, k, n)
  {
    hide Inv, Mark, Keyed, FetchUpperBound, I.SourceHeld, Now, SameMarks, InRange, DoExtract, DoVerify, I.Live, Frame,
         DoStoreQuarantine, DoStoreData, DoStoreManifest, I.Registering, Beyond, IsTop, Leasable, S.DoAcquire;
    var m := AcquiredBy(j, n);
    BlockStarts(j, n, past);
    TopIsUpper(past[|past| - 1], Mark(j.marks, TABLE).cursor, top);
    BlockRegisters(m, n);
    var k := I.Registering(m, n, Ask(n));
    BlockVerifies(m, k, n, valid);
    var x := I.ReadAttempt(m, n, Ask(n), valid, {}, Verified);
    I.LiveIs(m, Verifying(j, n, valid), n, Ask(n), x);
    BlockUploads(m, Verifying(j, n, valid), n, x);
    StoringFrame(j, n, valid);
  }

  lemma RunsAfter(j: State, k: State, n: nat)
    requires AttemptsBefore(j, n) && Frame(j, k, n) && (n in k.ingests ==> k.ingests[n].batch == Name(n))
    ensures AttemptsBefore(k, n + 1)
  {
    forall p | p in k.ingests || p in k.runs ensures p < n + 1 && (p in k.ingests ==> k.ingests[p].batch == Name(p)) {
      if p != n {
        FrameKeeps(j, k, n, p);
      }
    }
  }

  lemma StandsAfter(j: State, k: State, n: nat, past: seq<set<Record>>)
    requires Stands(j, n, past) && Frame(j, k, n) && Inv(k) && Quiet(k.src, n + 1, past)
    requires n in k.ingests ==> k.ingests[n].batch == Name(n)
    requires LeaseIsOver(Mark(k.marks, TABLE), 10 * (n + 1))
    ensures Stands(k, n + 1, past)
  {
    hide Inv, Quiet, Mark, AttemptsBefore;
    RunsAfter(j, k, n);
  }

  lemma LiveStands(j: State, m: State, k: State, n: nat, past: seq<set<Record>>, x: Ingest)
    requires Stands(j, n, past) && Frame(j, k, n) && Inv(k) && Quiet(m.src, n + 1, past)
    requires I.Live(m, k, n, Ask(n), x) && x.batch == Name(n)
    ensures Stands(k, n + 1, past)
  {
    hide Inv, Quiet, Frame, AttemptsBefore;
    StandsAfter(j, k, n, past);
  }

  /** An attempt that stores its object and manifest and goes no further. */
  lemma StoreBlock(j: State, n: nat, past: seq<set<Record>>, valid: set<Record>, top: Record)
    requires Stands(j, n, past) && IsTop(top, Beyond(past[|past| - 1], Mark(j.marks, TABLE).cursor))
    requires valid == Beyond(past[|past| - 1], Mark(j.marks, TABLE).cursor)
    ensures var k := Execute(j, StoreSteps(n, valid));
      && Stands(k, n + 1, past) && Frame(j, k, n) && k.src.sources == j.src.sources
      && Stored(k, n, |past| - 1, Mark(j.marks, TABLE).cursor, At(top.cursor), valid)
      && k.catalog == j.catalog && k.history == j.history && SameMarks(j.marks, k.marks)
  {
    hide Inv, Quiet, Frame, AttemptsBefore, Mark, Storing, Keyed, Now, FetchUpperBound, I.SourceHeld, Execute, Beyond,
         IsTop, LeaseIsOver, S.DoAcquire;
    StoreExecutes(j, n, valid);
    ExecuteInv(j, StoreSteps(n, valid));
    StoringIsLive(j, n, past, valid, top);
    AcquireWorks(j.src, n, past);
    var m := AcquiredBy(j, n);
    LiveStands(j, m, Storing(j, n, valid), n, past, StoredAttempt(m, n, valid));
  }

  // ---------------------------------------------------------------------------------------
  // An attempt up to its commit
  // ---------------------------------------------------------------------------------------

  function CommitSteps(n: nat, valid: set<Record>): seq<Step> {
    StoreSteps(n, valid) + [Recheck(n, 10 * n), CommitRun(n, 10 * n)]
  }

  lemma LandHistory(j: State, key: Key, e: Entry)
    ensures Events(Land(j, key, e).history, key.table)
      == Events(j.history, key.table) + [Advance(key.batch, Mark(j.marks, key.table).cursor, e.upper)]
    ensures Land(j, key, e).src == j.src && Land(j, key, e).ingests == j.ingests
  {
  }

  lemma CommitHistory(m: State, k: State, n: nat, x: Ingest)
    requires I.Live(m, k, n, Ask(n), x) && x.stage == Rechecked && x.BatchKey() == NameKey(n)
    requires x.seen == Mark(m.marks, TABLE).cursor && x.seenVersion == Mark(m.marks, TABLE).version
    ensures var l := DoCommitRun(k, n, 10 * n);
      && l.src == k.src && Events(l.history, TABLE) == Events(m.history, TABLE) + [Advance(Name(n), x.seen, x.upper)]
      && n in l.ingests && l.ingests[n].batch == Name(n) && l.ingests[n].epoch == x.epoch
  {
    hide Land, SetStatus;
    LandHistory(Put(k, n, x.(stage := Finished, closed := true)).(runs := SetStatus(k.runs, n, Success)), NameKey(n),
                Entry(n, x.seen, x.upper, x.valid, x.rejected));
  }

  lemma EndExecutes(j: State, n: nat)
    ensures Execute(j, [Recheck(n, 10 * n), CommitRun(n, 10 * n)]) == DoCommitRun(DoRecheck(j, n, 10 * n), n, 10 * n)
  {
    hide Execute, DoRecheck, DoCommitRun;
    ExecutesTwo(j, Recheck(n, 10 * n), CommitRun(n, 10 * n));
  }

  lemma RecheckAndCommit(m: State, k: State, n: nat, x: Ingest)
    requires I.Live(m, k, n, Ask(n), x) && I.SourceHeld(m, Ask(n)) && x.stage == ManifestStored
    requires x.BatchKey() == NameKey(n) && x.token == TokenOf(n) && x.leaseVersion == Mark(m.marks, TABLE).version
    requires x.seen == Mark(m.marks, TABLE).cursor && x.seenVersion == Mark(m.marks, TABLE).version
    ensures var l := DoCommitRun(DoRecheck(k, n, 10 * n), n, 10 * n);
      && l.src == m.src && Frame(k, l, n)
      && Mark(l.marks, TABLE).cursor == x.upper && LeaseIsOver(Mark(l.marks, TABLE), 10 * (n + 1))
      && l.catalog == m.catalog[NameKey(n) := Entry(n, x.seen, x.upper, x.valid, x.rejected)]
      && Events(l.history, TABLE) == Events(m.history, TABLE) + [Advance(Name(n), x.seen, x.upper)]
      && n in l.ingests && l.ingests[n].batch == Name(n) && l.ingests[n].epoch == x.epoch
  {
    hide Frame, Mark, I.SourceHeld, DoRecheck, DoCommitRun, LeasesCurrent, SameMarks, Events;
    I.LiveLeases(m, k, n, Ask(n), x);
    I.RecheckAdvances(k, n, 10 * n);
    var l := DoRecheck(k, n, 10 * n);
    I.UnderwayIsLive(m, k, l, n, Ask(n), x, Rechecked);
    I.CommitLands(m, l, n, Ask(n), x.(stage := Rechecked));
    CommitHistory(m, l, n, x.(stage := Rechecked));
    StepFrame(k, Recheck(n, 10 * n), n);
    StepFrame(l, CommitRun(n, 10 * n), n);
    FrameTransitive(k, l, DoCommitRun(l, n, 10 * n), n);
  }

  /** An attempt that commits everything after the watermark. */
  lemma CommitBlock(j: State, n: nat, past: seq<set<Record>>, valid: set<Record>, top: Record)
    requires Stands(j, n, past) && IsTop(top, Beyond(past[|past| - 1], Mark(j.marks, TABLE).cursor))
    requires valid == Beyond(past[|past| - 1], Mark(j.marks, TABLE).cursor)
    ensures var k, seen := Execute(j, CommitSteps(n, valid)), Mark(j.marks, TABLE).cursor;
      && Stands(k, n + 1, past) && Frame(j, k, n) && k.src.sources == j.src.sources
      && Mark(k.marks, TABLE).cursor == At(top.cursor)
      && k.catalog == j.catalog[NameKey(n) := Entry(n, seen, At(top.cursor), valid, {})]
      && Events(k.history, TABLE) == Events(j.history, TABLE) + [Advance(Name(n), seen, At(top.cursor))]
      && n in k.ingests && k.ingests[n].epoch == |past| - 1
  {
    hide Inv, Quiet, Frame, AttemptsBefore, Mark, Storing, Keyed, Now, FetchUpperBound, I.SourceHeld, Execute, Apply,
         Beyond, IsTop, S.DoAcquire, DoRecheck, DoCommitRun, Events, StoreSteps, I.Live, LeaseIsOver;
    StoreExecutes(j, n, valid);
    StoringIsLive(j, n, past, valid, top);
    AcquireWorks(j.src, n, past);
    var m, k := AcquiredBy(j, n), Storing(j, n, valid);
    ExecuteAppend(j, StoreSteps(n, valid), [Recheck(n, 10 * n), CommitRun(n, 10 * n)]);
    EndExecutes(k, n);
    RecheckAndCommit(m, k, n, StoredAttempt(m, n, valid));
    var l := DoCommitRun(DoRecheck(k, n, 10 * n), n, 10 * n);
    FrameTransitive(j, k, l, n);
    ExecuteInv(j, CommitSteps(n, valid));
    StandsAfter(j, l, n, past);
  }

  lemma GeneratorBlock(j: State, n: nat, past: seq<set<Record>>, w: Record)
    requires Stands(j, n, past) && AllBefore(past[|past| - 1], w.cursor.ts)
    ensures var k := Execute(j, GeneratorSteps(n, w));
      && k == j.(src := k.src) && Stands(k, n + 1, past + [ApplyWrites(past[|past| - 1], {w})])
  {
    hide Inv, Quiet, Mark, Generated, ApplyWrites, Execute;
    GeneratorExecutes(j, n, w);
    GeneratorStaysQuiet(j.src, n, past, w);
    ExecuteInv(j, GeneratorSteps(n, w));
  }

  /** The process is gone; what it stored stays. */
  lemma CrashBlock(j: State, n: nat, past: seq<set<Record>>, p: nat)
    requires Stands(j, n, past) && p in j.ingests
    ensures var k := Execute(j, [CrashRun(p)]);
      && Stands(k, n, past) && Frame(j, k, p) && k.src == j.src && SameTables(j, k) && k.runs == j.runs
      && p in k.ingests && k.ingests[p] == j.ingests[p].(closed := true)
  {
    hide Inv, Quiet, Mark, Execute, Frame;
    ExecutesOne(j, CrashRun(p));
    ExecuteInv(j, [CrashRun(p)]);
    StepFrame(j, CrashRun(p), p);
  }

  // ---------------------------------------------------------------------------------------
  // A rewind and a reconciliation
  // ---------------------------------------------------------------------------------------

  lemma ResolveBlock(j: State, n: nat, past: seq<set<Record>>, boundary: int)
    requires Stands(j, n, past) && 0 !in j.rewinders
    ensures Keyed(past[|past| - 1])
    ensures var k := Execute(j, [ResolveRewind(0, TABLE, boundary)]);
      && Stands(k, n, past) && k == j.(rewinders := k.rewinders)
      && 0 in k.rewinders
      && k.rewinders[0] == Rewinder(TABLE, boundary, |past| - 1, CursorBefore(past[|past| - 1], boundary), 0, false)
  {
    hide Inv, Mark, Execute, Keyed, CursorBefore;
    ExecutesOne(j, ResolveRewind(0, TABLE, boundary));
    ExecuteInv(j, [ResolveRewind(0, TABLE, boundary)]);
    I.SnapshotReady(j, Ask(n));
  }

  function RewindSteps(n: nat): seq<Step> {
    [LeaseForRewind(0, 10 * n, 10), RewindMark(0, 10 * n), ReleaseLease(Rewinding(0), TABLE)]
  }

  /** The rewind of the table as its last event, with the lease given up. */
  ghost predicate HasRewound(j: State, k: State, w: Rewinder) {
    && k == j.(rewinders := k.rewinders, marks := k.marks, history := k.history)
    && Mark(k.marks, TABLE).cursor == w.target && Mark(k.marks, TABLE).lease == Unheld
    && Events(k.history, TABLE)
         == Events(j.history, TABLE) + [Rewound(w.boundary, w.epoch, Mark(j.marks, TABLE).cursor, w.target)]
  }

  lemma RewindHappens(j: State, n: nat)
    requires 0 in j.rewinders && j.rewinders[0].table == TABLE && !j.rewinders[0].leased
    requires LeaseIsOver(Mark(j.marks, TABLE), 10 * n) && Earlier(j.rewinders[0].target, Mark(j.marks, TABLE).cursor)
    ensures var k := DoReleaseLease(DoRewindMark(DoLeaseForRewind(j, 0, 10 * n, 10), 0, 10 * n), Rewinding(0), TABLE);
      HasRewound(j, k, j.rewinders[0])
  {
    hide Less;
    var l := DoLeaseForRewind(j, 0, 10 * n, 10);
    assert Mark(l.marks, TABLE) == Mark(j.marks, TABLE).(lease := HeldBy(Rewinding(0), 10 * n + 10));
    assert l.history == j.history;
  }

  lemma RewindBlock(j: State, n: nat, past: seq<set<Record>>)
    requires Stands(j, n, past) && 0 in j.rewinders && j.rewinders[0].table == TABLE && !j.rewinders[0].leased
    requires Earlier(j.rewinders[0].target, Mark(j.marks, TABLE).cursor)
    ensures var k := Execute(j, RewindSteps(n)); Stands(k, n, past) && HasRewound(j, k, j.rewinders[0])
  {
    hide Inv, Quiet, Mark, Execute, DoLeaseForRewind, DoRewindMark, DoReleaseLease, Events;
    ExecutesThree(j, LeaseForRewind(0, 10 * n, 10), RewindMark(0, 10 * n), ReleaseLease(Rewinding(0), TABLE));
    RewindHappens(j, n);
    ExecuteInv(j, RewindSteps(n));
  }

  function OrphanSteps(p: nat): seq<Step> {
    [InspectOrphan(NameKey(p)), Reconcile(NameKey(p))]
  }

  lemma LandCatalog(j: State, key: Key, e: Entry)
    ensures Land(j, key, e).catalog == j.catalog[key := e]
  {
  }

  lemma ReconcileHappens(j: State, key: Key, f: Manifest)
    requires key in j.data && key in j.manifests && key !in j.quarantine && j.manifests[key] == f
    requires f.run in j.runs && j.runs[f.run] == RunRow(key.table, f.before, f.upper, Running)
    requires Mark(j.marks, key.table).cursor == f.before && key !in j.catalog
    ensures var k := DoReconcile(DoInspectOrphan(j, key), key);
      && k.catalog == j.catalog[key := Entry(f.run, f.before, f.upper, j.data[key].rows, {})]
      && Events(k.history, key.table) == Events(j.history, key.table) + [Advance(key.batch, f.before, f.upper)]
      && k.src == j.src && k.ingests == j.ingests
  {
    hide Land, SetStatus;
    var inspected := DoInspectOrphan(j, key);
    LandHistory(inspected.(runs := SetStatus(j.runs, f.run, Success)), key,
                Entry(f.run, f.before, f.upper, j.data[key].rows, {}));
    LandCatalog(inspected.(runs := SetStatus(j.runs, f.run, Success)), key,
                Entry(f.run, f.before, f.upper, j.data[key].rows, {}));
  }

  lemma OrphanExecutes(j: State, p: nat)
    ensures Execute(j, OrphanSteps(p)) == DoReconcile(DoInspectOrphan(j, NameKey(p)), NameKey(p))
  {
    hide Execute, DoInspectOrphan, DoReconcile;
    ExecutesTwo(j, InspectOrphan(NameKey(p)), Reconcile(NameKey(p)));
  }

  lemma OrphanIsStored(j: State, p: nat)
    requires Inv(j) && p in j.ingests && j.ingests[p].Passed(ManifestStored)
    ensures var x := j.ingests[p]; var key := x.BatchKey();
      && key in j.data && j.data[key] == DataObject(p, x.valid)
      && key in j.manifests && j.manifests[key] == Manifest(p, x.seen, x.upper)
  {
    hide Inv, VersionOk, TenureOk, SnapshotOk, EpochsAgree;
    IngestFacts(j, p);
  }

  /** An attempt that stopped after its manifest is reconciled when the cursor is where it started. */
  lemma OrphanBlock(j: State, p: nat, seen: Position, upper: Position, valid: set<Record>)
    requires Inv(j) && j.quarantine == map[] && p in j.ingests && NameKey(p) !in j.catalog
    requires j.ingests[p].table == TABLE && j.ingests[p].batch == Name(p) && j.ingests[p].Passed(ManifestStored)
    requires j.ingests[p].seen == seen && j.ingests[p].upper == upper && j.ingests[p].valid == valid
    requires p in j.runs && j.runs[p] == RunRow(TABLE, seen, upper, Running) && Mark(j.marks, TABLE).cursor == seen
    ensures var k := Execute(j, OrphanSteps(p));
      && k.catalog == j.catalog[NameKey(p) := Entry(p, seen, upper, valid, {})]
      && Events(k.history, TABLE) == Events(j.history, TABLE) + [Advance(Name(p), seen, upper)]
      && k.src == j.src && k.ingests == j.ingests
  {
    hide Inv, Mark, Execute, Apply, DoInspectOrphan, DoReconcile, Events, OrphanSteps;
    OrphanExecutes(j, p);
    OrphanIsStored(j, p);
    ReconcileHappens(j, NameKey(p), Manifest(p, seen, upper));
  }

  // ---------------------------------------------------------------------------------------
  // The rows of both runs
  // ---------------------------------------------------------------------------------------

  const FIRST := Record(Cursor(1, [Num(1)]), [])

  /** One row of the table, written at 7 and again at 20. */
  const AT_7 := Record(Cursor(7, [Num(2)]), [])
  const AT_20 := Record(Cursor(20, [Num(2)]), [])

  const BOUNDARY := 10

  function Start(): State {
    var src := S.State(Row(Free, 0), {}, {}, [], [map[TABLE := {FIRST}]], map[], [], map[], map[], []);
    State(src, map[], map[], map[], map[], map[], {}, map[], map[], map[], map[])
  }

  lemma StartStands()
    ensures IsInitial(Start()) && Stands(Start(), 0, [{FIRST}])
  {
    hide Inv;
    assert S.SourceKeyed(Start().src.sources[0]);
    InitialHasInv(Start());
  }

  lemma WrittenAt7()
    ensures ApplyWrites({FIRST}, {AT_7}) == {FIRST, AT_7} && AllBefore({FIRST}, 7)
  {
  }

  lemma WrittenAt20()
    ensures ApplyWrites({FIRST, AT_7}, {AT_20}) == {FIRST, AT_20} && AllBefore({FIRST, AT_7}, 20)
  {
    assert AT_7.cursor.keys == AT_20.cursor.keys;
  }

  lemma Ranges()
    ensures Beyond({FIRST}, Initial) == {FIRST} && IsTop(FIRST, {FIRST})
    ensures Beyond({FIRST, AT_7}, Initial) == {FIRST, AT_7} && IsTop(AT_7, {FIRST, AT_7})
    ensures Beyond({FIRST, AT_7}, At(FIRST.cursor)) == {AT_7} && IsTop(AT_7, {AT_7})
    ensures Beyond({FIRST, AT_20}, At(FIRST.cursor)) == {AT_20} && IsTop(AT_20, {AT_20})
  {
    LessTrichotomy(FIRST.cursor, FIRST.cursor);
  }

  lemma SameRowsBefore(rows: set<Record>, more: set<Record>, boundary: int)
    requires Keyed(rows) && Keyed(more)
    requires (set r | r in rows && r.cursor.ts < boundary) == (set r | r in more && r.cursor.ts < boundary)
    ensures CursorBefore(rows, boundary) == CursorBefore(more, boundary)
  {
    hide Ordered, Keyed;
  }

  lemma Targets()
    ensures Keyed({FIRST}) && CursorBefore({FIRST}, BOUNDARY) == At(FIRST.cursor)
    ensures Keyed({FIRST, AT_20}) && CursorBefore({FIRST, AT_20}, BOUNDARY) == At(FIRST.cursor)
  {
    hide Ordered;
    LoneCursorBefore(FIRST, BOUNDARY);
    var before := set r | r in {FIRST, AT_20} && r.cursor.ts < BOUNDARY;
    assert before == (set r | r in {FIRST} && r.cursor.ts < BOUNDARY);
    SameRowsBefore({FIRST}, {FIRST, AT_20}, BOUNDARY);
  }

  // ---------------------------------------------------------------------------------------
  // A row written after the target was resolved
  // ---------------------------------------------------------------------------------------

  /** The target is resolved, a row is written at 7 and committed. */
  function EarlyResolution(): seq<Step> {
    [ResolveRewind(0, TABLE, BOUNDARY)] + GeneratorSteps(0, AT_7) + CommitSteps(1, {FIRST, AT_7})
  }

  function LateRowSteps(): seq<Step> {
    EarlyResolution() + RewindSteps(2) + CommitSteps(2, {AT_7})
  }

  lemma FrameKeepsRewinders(j: State, k: State, n: nat)
    requires Frame(j, k, n)
    ensures k.rewinders == j.rewinders
  {
  }

  lemma AfterEarlyResolution()
    ensures var j := Execute(Start(), EarlyResolution());
      && Stands(j, 2, [{FIRST}, {FIRST, AT_7}])
      && 0 in j.rewinders && j.rewinders[0] == Rewinder(TABLE, BOUNDARY, 0, At(FIRST.cursor), 0, false)
      && Mark(j.marks, TABLE).cursor == At(AT_7.cursor)
      && Events(j.history, TABLE) == [Advance(Name(1), Initial, At(AT_7.cursor))]
  {
    hide Inv, Quiet, Frame, AttemptsBefore, Execute, Beyond, IsTop, Stands, GeneratorSteps, CommitSteps, ApplyWrites,
         CursorBefore, Keyed;
    var a := Start();
    StartStands();
    ResolveBlock(a, 0, [{FIRST}], BOUNDARY);
    var b := Execute(a, [ResolveRewind(0, TABLE, BOUNDARY)]);
    Targets();
    WrittenAt7();
    GeneratorBlock(b, 0, [{FIRST}], AT_7);
    assert [{FIRST}] + [{FIRST, AT_7}] == [{FIRST}, {FIRST, AT_7}];
    var c := Execute(b, GeneratorSteps(0, AT_7));
    Ranges();
    CommitBlock(c, 1, [{FIRST}, {FIRST, AT_7}], {FIRST, AT_7}, AT_7);
    ExecuteAppend(a, [ResolveRewind(0, TABLE, BOUNDARY)] + GeneratorSteps(0, AT_7), CommitSteps(1, {FIRST, AT_7}));
    ExecuteAppend(a, [ResolveRewind(0, TABLE, BOUNDARY)], GeneratorSteps(0, AT_7));
    FrameKeepsRewinders(c, Execute(c, CommitSteps(1, {FIRST, AT_7})), 1);
  }

  lemma PastRows(j: State, n: nat, past: seq<set<Record>>, i: nat)
    requires Stands(j, n, past) && i < |past|
    ensures RowsAt(j.src.sources, i, TABLE) == past[i]
  {
    hide Inv;
  }

  lemma RewoundStands(j: State, k: State, w: Rewinder)
    requires HasRewound(j, k, w)
    ensures k == j.(rewinders := k.rewinders, marks := k.marks, history := k.history)
    ensures Mark(k.marks, TABLE).cursor == w.target
    ensures Events(k.history, TABLE)
      == Events(j.history, TABLE) + [Rewound(w.boundary, w.epoch, Mark(j.marks, TABLE).cursor, w.target)]
  {
  }

  lemma LateRunEnds()
    ensures var e := Execute(Start(), LateRowSteps());
      && Stands(e, 3, [{FIRST}, {FIRST, AT_7}])
      && Events(e.history, TABLE) == [Advance(Name(1), Initial, At(AT_7.cursor)),
                                      Rewound(BOUNDARY, 0, At(AT_7.cursor), At(FIRST.cursor)),
                                      Advance(Name(2), At(FIRST.cursor), At(AT_7.cursor))]
      && NameKey(2) in e.catalog
      && e.catalog[NameKey(2)] == Entry(2, At(FIRST.cursor), At(AT_7.cursor), {AT_7}, {})
      && 2 in e.ingests && e.ingests[2].epoch == 1
  {
    hide Inv, Quiet, Frame, AttemptsBefore, Execute, Beyond, IsTop, Stands, CommitSteps, HasRewound, EarlyResolution,
         RewindSteps, Mark, Events;
    var a := Start();
    AfterEarlyResolution();
    var b := Execute(a, EarlyResolution());
    RewindBlock(b, 2, [{FIRST}, {FIRST, AT_7}]);
    var c := Execute(b, RewindSteps(2));
    RewoundStands(b, c, b.rewinders[0]);
    Ranges();
    CommitBlock(c, 2, [{FIRST}, {FIRST, AT_7}], {AT_7}, AT_7);
    ExecuteAppend(a, EarlyResolution() + RewindSteps(2), CommitSteps(2, {AT_7}));
    ExecuteAppend(a, EarlyResolution(), RewindSteps(2));
  }

  /**
   The boundary lies past every row when the target is resolved.  A row stamped before the
   boundary is written and committed, the rewind is accepted, and the first range committed
   after it holds that row and misses the promise.
   */
  lemma LateRowAfterRewind()
    ensures IsInitial(Start())
    ensures var e := Execute(Start(), LateRowSteps());
      var events := Events(e.history, TABLE);
      && |events| == 3 && events[1].Rewound? && events[1].boundary == BOUNDARY && events[2].Advance?
      && var key := Key(events[2].batch, TABLE);
      && key in e.catalog && AT_7 in e.catalog[key].valid && AT_7.cursor.ts < BOUNDARY
      && G.EpochOf(e, key) > events[1].epoch
      && !BoundaryCovered(RowsAt(e.src.sources, events[1].epoch, TABLE), BOUNDARY)
      && !G.IsExact(e.catalog[key].valid + e.catalog[key].rejected, RowsAt(e.src.sources, G.EpochOf(e, key), TABLE),
                    BOUNDARY)
  {
    hide Inv, Stands, Execute, Events, RowsAt, LateRowSteps;
    StartStands();
    LateRunEnds();
    var e := Execute(Start(), LateRowSteps());
    PastRows(e, 3, [{FIRST}, {FIRST, AT_7}], 0);
    assert AT_7 in e.catalog[NameKey(2)].valid + e.catalog[NameKey(2)].rejected;
  }

  // ---------------------------------------------------------------------------------------
  // An orphan older than the rewind
  // ---------------------------------------------------------------------------------------

  /** The row is stored at 7 by an attempt that crashes, then written again at 20 and committed. */
  function OrphanIsLeft(): seq<Step> {
    CommitSteps(0, {FIRST}) + GeneratorSteps(1, AT_7) + StoreSteps(2, {AT_7}) + [CrashRun(2)]
  }

  function OvertakenSteps(): seq<Step> {
    GeneratorSteps(3, AT_20) + CommitSteps(4, {AT_20}) + [ResolveRewind(0, TABLE, BOUNDARY)] + RewindSteps(5)
  }

  function OlderOrphanSteps(): seq<Step> {
    OrphanIsLeft() + OvertakenSteps() + OrphanSteps(2)
  }

  /** What the crashed attempt left. */
  ghost predicate IsOrphan(j: State) {
    && 2 in j.ingests && 2 in j.runs
    && j.runs[2] == RunRow(TABLE, At(FIRST.cursor), At(AT_7.cursor), Running)
    && var x := j.ingests[2];
    && x.table == TABLE && x.batch == Name(2) && x.Passed(ManifestStored) && x.epoch == 1
    && x.seen == At(FIRST.cursor) && x.upper == At(AT_7.cursor) && x.valid == {AT_7}
  }

  lemma StoredIsOrphan(j: State, k: State)
    requires Stored(j, 2, 1, At(FIRST.cursor), At(AT_7.cursor), {AT_7})
    requires 2 in k.ingests && k.ingests[2] == j.ingests[2].(closed := true) && k.runs == j.runs
    ensures IsOrphan(k)
  {
  }

  lemma OrphanStays(j: State, k: State, n: nat)
    requires IsOrphan(j) && Frame(j, k, n) && n != 2
    ensures IsOrphan(k)
  {
    FrameKeeps(j, k, n, 2);
  }

  lemma CursorsSame(j: State, k: State)
    requires SameMarks(j.marks, k.marks)
    ensures Mark(k.marks, TABLE).cursor == Mark(j.marks, TABLE).cursor
  {
    hide Mark;
  }

  lemma FirstCommit()
    ensures var j := Execute(Start(), CommitSteps(0, {FIRST}));
      && Stands(j, 1, [{FIRST}]) && Mark(j.marks, TABLE).cursor == At(FIRST.cursor) && j.rewinders == map[]
      && j.catalog.Keys == {NameKey(0)}
      && Events(j.history, TABLE) == [Advance(Name(0), Initial, At(FIRST.cursor))]
  {
    hide Inv, Quiet, Frame, AttemptsBefore, Execute, Beyond, IsTop, Stands, CommitSteps;
    StartStands();
    Ranges();
    CommitBlock(Start(), 0, [{FIRST}], {FIRST}, FIRST);
    FrameKeepsRewinders(Start(), Execute(Start(), CommitSteps(0, {FIRST})), 0);
  }

  lemma StoredHasAttempt(k: State, n: nat, epoch: nat, seen: Position, upper: Position, valid: set<Record>)
    requires Stored(k, n, epoch, seen, upper, valid)
    ensures n in k.ingests
  {
  }

  lemma AfterOrphanIsLeft()
    ensures var j := Execute(Start(), OrphanIsLeft());
      && Stands(j, 3, [{FIRST}, {FIRST, AT_7}]) && Mark(j.marks, TABLE).cursor == At(FIRST.cursor)
      && j.rewinders == map[] && j.catalog.Keys == {NameKey(0)} && IsOrphan(j)
      && Events(j.history, TABLE) == [Advance(Name(0), Initial, At(FIRST.cursor))]
  {
    hide Inv, Quiet, Frame, AttemptsBefore, Execute, Beyond, IsTop, Stands, CommitSteps, GeneratorSteps, StoreSteps,
         Mark, Events, SameMarks, ApplyWrites, IsOrphan, Stored;
    FirstCommit();
    var a := Execute(Start(), CommitSteps(0, {FIRST}));
    WrittenAt7();
    GeneratorBlock(a, 1, [{FIRST}], AT_7);
    assert [{FIRST}] + [{FIRST, AT_7}] == [{FIRST}, {FIRST, AT_7}];
    var b := Execute(a, GeneratorSteps(1, AT_7));
    Ranges();
    StoreBlock(b, 2, [{FIRST}, {FIRST, AT_7}], {AT_7}, AT_7);
    var c := Execute(b, StoreSteps(2, {AT_7}));
    FrameKeepsRewinders(b, c, 2);
    CursorsSame(b, c);
    StoredHasAttempt(c, 2, 1, At(FIRST.cursor), At(AT_7.cursor), {AT_7});
    CrashBlock(c, 3, [{FIRST}, {FIRST, AT_7}], 2);
    var d := Execute(c, [CrashRun(2)]);
    FrameKeepsRewinders(c, d, 2);
    StoredIsOrphan(c, d);
    ExecuteAppend(Start(), CommitSteps(0, {FIRST}) + GeneratorSteps(1, AT_7) + StoreSteps(2, {AT_7}), [CrashRun(2)]);
    ExecuteAppend(Start(), CommitSteps(0, {FIRST}) + GeneratorSteps(1, AT_7), StoreSteps(2, {AT_7}));
    ExecuteAppend(Start(), CommitSteps(0, {FIRST}), GeneratorSteps(1, AT_7));
  }

  lemma NamesDiffer()
    ensures NameKey(0) != NameKey(2) && NameKey(4) != NameKey(2)
  {
    assert |Name(0)| == 0 && |Name(2)| == 2 && |Name(4)| == 4;
  }

  /** The row's newer version is committed and the table rewound to before it. */
  lemma AfterOvertaken(j: State)
    requires Stands(j, 3, [{FIRST}, {FIRST, AT_7}]) && Mark(j.marks, TABLE).cursor == At(FIRST.cursor)
    requires j.rewinders == map[] && j.catalog.Keys == {NameKey(0)} && IsOrphan(j)
    ensures var k := Execute(j, OvertakenSteps());
      && Stands(k, 5, [{FIRST}, {FIRST, AT_7}, {FIRST, AT_20}]) && Mark(k.marks, TABLE).cursor == At(FIRST.cursor)
      && k.catalog.Keys == {NameKey(0), NameKey(4)} && IsOrphan(k)
      && Events(k.history, TABLE) == Events(j.history, TABLE)
           + [Advance(Name(4), At(FIRST.cursor), At(AT_20.cursor)),
              Rewound(BOUNDARY, 2, At(AT_20.cursor), At(FIRST.cursor))]
  {
    hide Inv, Quiet, Frame, AttemptsBefore, Execute, Beyond, IsTop, Stands, CommitSteps, GeneratorSteps, RewindSteps,
         Mark, Events, ApplyWrites, HasRewound, CursorBefore, Keyed;
    var past := [{FIRST}, {FIRST, AT_7}, {FIRST, AT_20}];
    WrittenAt20();
    GeneratorBlock(j, 3, [{FIRST}, {FIRST, AT_7}], AT_20);
    assert [{FIRST}, {FIRST, AT_7}] + [{FIRST, AT_20}] == past;
    var a := Execute(j, GeneratorSteps(3, AT_20));
    Ranges();
    CommitBlock(a, 4, past, {AT_20}, AT_20);
    var b := Execute(a, CommitSteps(4, {AT_20}));
    OrphanStays(a, b, 4);
    FrameKeepsRewinders(a, b, 4);
    ResolveBlock(b, 5, past, BOUNDARY);
    Targets();
    var c := Execute(b, [ResolveRewind(0, TABLE, BOUNDARY)]);
    RewindBlock(c, 5, past);
    var d := Execute(c, RewindSteps(5));
    RewoundStands(c, d, c.rewinders[0]);
    ExecuteAppend(j, GeneratorSteps(3, AT_20) + CommitSteps(4, {AT_20}) + [ResolveRewind(0, TABLE, BOUNDARY)],
                  RewindSteps(5));
    ExecuteAppend(j, GeneratorSteps(3, AT_20) + CommitSteps(4, {AT_20}), [ResolveRewind(0, TABLE, BOUNDARY)]);
    ExecuteAppend(j, GeneratorSteps(3, AT_20), CommitSteps(4, {AT_20}));
  }

  lemma StandsIsSound(j: State, n: nat, past: seq<set<Record>>)
    requires Stands(j, n, past)
    ensures Inv(j) && j.quarantine == map[]
  {
    hide Inv;
  }

  lemma OrphanRunEnds()
    ensures var e := Execute(Start(), OlderOrphanSteps());
      && Events(e.history, TABLE) == [Advance(Name(0), Initial, At(FIRST.cursor)),
                                      Advance(Name(4), At(FIRST.cursor), At(AT_20.cursor)),
                                      Rewound(BOUNDARY, 2, At(AT_20.cursor), At(FIRST.cursor)),
                                      Advance(Name(2), At(FIRST.cursor), At(AT_7.cursor))]
      && NameKey(2) in e.catalog
      && e.catalog[NameKey(2)] == Entry(2, At(FIRST.cursor), At(AT_7.cursor), {AT_7}, {})
      && 2 in e.ingests && e.ingests[2].epoch == 1
      && RowsAt(e.src.sources, 1, TABLE) == {FIRST, AT_7} && RowsAt(e.src.sources, 2, TABLE) == {FIRST, AT_20}
  {
    hide Inv, Quiet, Execute, Stands, Mark, Events, OrphanIsLeft, OvertakenSteps, OrphanSteps, RowsAt;
    AfterOrphanIsLeft();
    var a := Execute(Start(), OrphanIsLeft());
    AfterOvertaken(a);
    var b := Execute(a, OvertakenSteps());
    var past := [{FIRST}, {FIRST, AT_7}, {FIRST, AT_20}];
    StandsIsSound(b, 5, past);
    PastRows(b, 5, past, 1);
    PastRows(b, 5, past, 2);
    NamesDiffer();
    OrphanBlock(b, 2, At(FIRST.cursor), At(AT_7.cursor), {AT_7});
    ExecuteAppend(Start(), OrphanIsLeft() + OvertakenSteps(), OrphanSteps(2));
    ExecuteAppend(Start(), OrphanIsLeft(), OvertakenSteps());
  }

  /**
   The boundary is covered when the target is resolved, and still the first range after the
   rewind is wrong: an attempt from before the rewind left an object with a row stamped 7, the
   row has been written again at 20 since, and reconciling the orphan lands the old version and
   nothing stamped at or after the boundary.
   */
  lemma OlderOrphanAfterRewind()
    ensures IsInitial(Start())
    ensures var e := Execute(Start(), OlderOrphanSteps());
      var events := Events(e.history, TABLE);
      && |events| == 4 && events[2].Rewound? && events[2].boundary == BOUNDARY && events[3].Advance?
      && var key := Key(events[3].batch, TABLE);
      && key in e.catalog && AT_7 in e.catalog[key].valid && AT_7.cursor.ts < BOUNDARY
      && G.EpochOf(e, key) < events[2].epoch
      && BoundaryCovered(RowsAt(e.src.sources, events[2].epoch, TABLE), BOUNDARY)
      && !G.IsExact(e.catalog[key].valid + e.catalog[key].rejected, RowsAt(e.src.sources, G.EpochOf(e, key), TABLE),
                    BOUNDARY)
  {
    hide Inv, Stands, Execute, Events, RowsAt, OlderOrphanSteps;
    StartStands();
    OrphanRunEnds();
    var e := Execute(Start(), OlderOrphanSteps());
    assert AT_20 in RowsAt(e.src.sources, 2, TABLE);
    assert AT_7 in e.catalog[NameKey(2)].valid + e.catalog[NameKey(2)].rejected;
  }
}
