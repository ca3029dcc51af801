/**
 Build-then-swap publication of the warehouse file, with crash recovery.

 Status rows live in a database, files on a disk, and no transaction spans the two.  A file
 identity is the run that wrote the file and a count of its writes, so no two writes share
 one.  A step is one row update, one file operation, one exception or one crash.  Reading the
 rows that look stale and closing one of them are separate steps of a recovery, and which rows
 look stale is left free.  A recovery closes a PUBLISHING row only under `ClosesSoundly`;
 `CloseIsHarmless` shows that this condition is exactly what crash safety needs, and
 `TimelyCloseIsSound` that it holds whenever rows look stale only after their process stopped.
 */
module Publish {

  type RunId = nat

  datatype Option<+T> = None | Some(value: T)

  datatype FileId = Seeded | Written(run: RunId, count: nat)

  datatype Status = Building | Publishing | Published | Failed

  /** `previous` is the run published last when this one started. */
  datatype Row = Row(dagRun: nat, status: Status, identity: Option<FileId>, tested: Option<bool>,
                     previous: Option<RunId>, closedWhileBuilding: bool)

  /** Where the process of a run stands between prepare, build and publish. */
  datatype Place =
    | Starting                    // row inserted
    | Prepared                    // build file copied and catalog synchronized
    | Built                       // dbt succeeded and its result is recorded
    | Flushed                     // build file checkpointed
    | Identified(identity: FileId)
    | Marked                      // row moved to PUBLISHING
    | Swapped                     // build file moved to the published path
    | Failing                     // an exception reached the failure handler
    | Isolated                    // failure handler moved the build file away
    | Stopped

  /** What a recovery has read about a row that looked stale. */
  datatype Claim = Claim(run: RunId, published: bool, afterStop: bool)

  datatype State = State(
    rows: map<RunId, Row>,
    places: map<RunId, Place>,
    writes: map<RunId, nat>,
    builds: map<RunId, FileId>,        // files in the build directory
    file: Option<FileId>,              // the published file
    swaps: seq<RunId>,                 // every run whose file was moved to the published path
    closings: seq<RunId>,              // every run closed as PUBLISHED, in that order
    claims: map<nat, Claim>)

  ghost predicate Initial(s: State) {
    && (s.file == None || s.file == Some(Seeded))
    && s == State(map[], map[], map[], map[], s.file, [], [], map[])
  }

  predicate IsActive(r: Row) {
    r.status.Building? || r.status.Publishing?
  }

  ghost predicate HasActive(s: State) {
    exists r :: r in s.rows && IsActive(s.rows[r])
  }

  function Latest(closings: seq<RunId>): Option<RunId> {
    if closings == [] then None else Some(closings[|closings| - 1])
  }

  predicate IsClosed(r: Row) {
    r.status.Published? || r.status.Failed?
  }

  /** The row is still there, and if it was closed its status and recorded identity stay. */
  ghost predicate RowStays(rows: map<RunId, Row>, later: map<RunId, Row>, r: RunId) {
    r in rows ==>
      && r in later
      && (IsClosed(rows[r]) ==> later[r].status == rows[r].status && later[r].identity == rows[r].identity)
  }

  ghost predicate ClosedStays(s: State, k: State) {
    forall r :: RowStays(s.rows, k.rows, r)
  }

  // ---------------------------------------------------------------------------------------
  // Steps
  // ---------------------------------------------------------------------------------------

  datatype Step =
    | Start(r: RunId, dagRun: nat)
    | Prepare(r: RunId)
    | RunDbt(r: RunId, passed: bool)
    | Checkpoint(r: RunId)
    | Identify(r: RunId)
    | MarkPublishing(r: RunId)
    | Swap(r: RunId)
    | MarkPublished(r: RunId)
    | Raise(r: RunId)
    | Isolate(r: RunId)
    | MarkFailed(r: RunId)
    | Crash(r: RunId)
    | Reclaim(dagRun: nat)
    | ReadStale(q: nat, r: RunId)
    | CloseStale(q: nat)
    | CleanUp(r: RunId)

  predicate IsAt(s: State, r: RunId, p: Place) {
    r in s.rows && r in s.places && s.places[r] == p
  }

  function Go(s: State, r: RunId, p: Place): State {
    s.(places := s.places[r := p])
  }

  function SetRow(s: State, r: RunId, row: Row): State {
    s.(rows := s.rows[r := row])
  }

  function Count(s: State, r: RunId): nat {
    if r in s.writes then s.writes[r] else 0
  }

  /** A write to the build path creates the file when it is missing. */
  function WriteBuild(s: State, r: RunId): State {
    s.(writes := s.writes[r := Count(s, r) + 1], builds := s.builds[r := Written(r, Count(s, r))])
  }

  /** The unique index over active rows refuses a second active run. */
  ghost function DoStart(s: State, r: RunId, dagRun: nat): (k: State)
    ensures ClosedStays(s, k)
  {
    if r in s.rows || HasActive(s) then s else
      Go(SetRow(s, r, Row(dagRun, Building, None, None, Latest(s.closings), false)), r, Starting)
  }

  function DoPrepare(s: State, r: RunId): (k: State)
    ensures ClosedStays(s, k)
  {
    if IsAt(s, r, Starting) then Go(WriteBuild(s, r), r, Prepared) else s
  }

  /** The result is recorded on a BUILDING row only; a failed dbt run goes to the failure handler. */
  function DoRunDbt(s: State, r: RunId, passed: bool): (k: State)
    ensures ClosedStays(s, k)
  {
    if IsAt(s, r, Prepared) then
      var written := WriteBuild(s, r);
      if !s.rows[r].status.Building? then Go(written, r, Failing)
      else Go(SetRow(written, r, s.rows[r].(tested := Some(passed))), r, if passed then Built else Failing)
    else s
  }

  function DoCheckpoint(s: State, r: RunId): (k: State)
    ensures ClosedStays(s, k)
  {
    if IsAt(s, r, Built) then Go(WriteBuild(s, r), r, Flushed) else s
  }

  function DoIdentify(s: State, r: RunId): (k: State)
    ensures ClosedStays(s, k)
  {
    if IsAt(s, r, Flushed) && r in s.builds then Go(s, r, Identified(s.builds[r])) else s
  }

  /** In the publish stage the handler gives up when the build file is already gone. */
  function HandleFailure(s: State, r: RunId): State {
    Go(s, r, if r in s.builds then Failing else Stopped)
  }

  function DoMarkPublishing(s: State, r: RunId): (k: State)
    ensures ClosedStays(s, k)
  {
    if r in s.rows && r in s.places && s.places[r].Identified? then
      if s.rows[r].status.Building? then
        Go(SetRow(s, r, s.rows[r].(status := Publishing, identity := Some(s.places[r].identity))), r, Marked)
      else HandleFailure(s, r)
    else s
  }

  function DoSwap(s: State, r: RunId): (k: State)
    ensures ClosedStays(s, k)
  {
    if IsAt(s, r, Marked) && r in s.builds then
      Go(s, r, Swapped).(file := Some(s.builds[r]), builds := s.builds - {r}, swaps := s.swaps + [r])
    else s
  }

  function ClosePublished(s: State, r: RunId): State
    requires r in s.rows
  {
    SetRow(s, r, s.rows[r].(status := Published)).(closings := s.closings + [r])
  }

  function CloseFailed(s: State, r: RunId): State
    requires r in s.rows
  {
    SetRow(s, r, s.rows[r].(status := Failed, closedWhileBuilding := s.rows[r].status.Building?))
  }

  function DoMarkPublished(s: State, r: RunId): (k: State)
    ensures ClosedStays(s, k)
  {
    if IsAt(s, r, Swapped) then
      Go(if s.rows[r].status.Publishing? then ClosePublished(s, r) else s, r, Stopped)
    else s
  }

  /** An exception anywhere before the run is done. */
  function DoRaise(s: State, r: RunId): (k: State)
    ensures ClosedStays(s, k)
  {
    if r in s.rows && r in s.places then
      match s.places[r]
      case Starting => Go(s, r, Failing)
      case Prepared => Go(s, r, Failing)
      case Failing => Go(s, r, Stopped)
      case Isolated => Go(s, r, Stopped)
      case Stopped => s
      case _ => HandleFailure(s, r)
    else s
  }

  function DoIsolate(s: State, r: RunId): (k: State)
    ensures ClosedStays(s, k)
  {
    if IsAt(s, r, Failing) then Go(s, r, Isolated).(builds := s.builds - {r}) else s
  }

  function DoMarkFailed(s: State, r: RunId): (k: State)
    ensures ClosedStays(s, k)
  {
    if IsAt(s, r, Isolated) then
      Go(if IsActive(s.rows[r]) then CloseFailed(s, r) else s, r, Stopped)
    else s
  }

  function DoCrash(s: State, r: RunId): (k: State)
    ensures ClosedStays(s, k)
  {
    if r in s.places then Go(s, r, Stopped) else s
  }

  /** All BUILDING rows of the same DAG run are closed in one update. */
  function DoReclaim(s: State, dagRun: nat): (k: State)
    ensures ClosedStays(s, k)
  {
    s.(rows := map r | r in s.rows ::
         if s.rows[r].status.Building? && s.rows[r].dagRun == dagRun
         then s.rows[r].(status := Failed, closedWhileBuilding := true) else s.rows[r])
  }

  /** The recovery looks whether the published file is the one a PUBLISHING row recorded. */
  function DoReadStale(s: State, q: nat, r: RunId): (k: State)
    ensures ClosedStays(s, k)
  {
    if r in s.rows && IsActive(s.rows[r]) then
      var row := s.rows[r];
      s.(claims := s.claims[q := Claim(r, row.status.Publishing? && row.identity.Some? && s.file == row.identity,
                                       r in s.places && s.places[r].Stopped?)])
    else s
  }

  /** The conditional update: the row must still be active. */
  function DoCloseStale(s: State, q: nat): (k: State)
    ensures ClosedStays(s, k)
  {
    if q in s.claims && s.claims[q].run in s.rows && IsActive(s.rows[s.claims[q].run]) then
      if s.claims[q].published then ClosePublished(s, s.claims[q].run) else CloseFailed(s, s.claims[q].run)
    else s
  }

  /**
   A PUBLISHING row may be closed on a claim when the claim still says whether the published
   file is the one the row recorded, and the process is not about to swap.
   */
  predicate ClosesSoundly(s: State, q: nat) {
    q in s.claims && s.claims[q].run in s.rows && s.rows[s.claims[q].run].status.Publishing? ==>
      && (s.claims[q].published <==> s.file == s.rows[s.claims[q].run].identity)
      && !IsAt(s, s.claims[q].run, Marked)
  }

  /**
   The liveness assumption: a row that is PUBLISHING when a recovery closes it was read by
   that recovery after the process of the run had stopped.
   */
  predicate JudgedInTime(s: State, q: nat) {
    q in s.claims && s.claims[q].run in s.rows && s.rows[s.claims[q].run].status.Publishing? ==> s.claims[q].afterStop
  }

  /** A recovery moves away or removes the build file of a row it closed. */
  function DoCleanUp(s: State, r: RunId): (k: State)
    ensures ClosedStays(s, k)
  {
    if r in s.rows && !IsActive(s.rows[r]) then s.(builds := s.builds - {r}) else s
  }

  ghost function Apply(s: State, step: Step): State {
    match step
    case Start(r, dagRun) => DoStart(s, r, dagRun)
    case Prepare(r) => DoPrepare(s, r)
    case RunDbt(r, passed) => DoRunDbt(s, r, passed)
    case Checkpoint(r) => DoCheckpoint(s, r)
    case Identify(r) => DoIdentify(s, r)
    case MarkPublishing(r) => DoMarkPublishing(s, r)
    case Swap(r) => DoSwap(s, r)
    case MarkPublished(r) => DoMarkPublished(s, r)
    case Raise(r) => DoRaise(s, r)
    case Isolate(r) => DoIsolate(s, r)
    case MarkFailed(r) => DoMarkFailed(s, r)
    case Crash(r) => DoCrash(s, r)
    case Reclaim(dagRun) => DoReclaim(s, dagRun)
    case ReadStale(q, r) => DoReadStale(s, q, r)
    case CloseStale(q) => if ClosesSoundly(s, q) then DoCloseStale(s, q) else s
    case CleanUp(r) => DoCleanUp(s, r)
  }

  ghost function Execute(s: State, steps: seq<Step>): State
    decreases |steps|
  {
    if steps == [] then s else Execute(Apply(s, steps[0]), steps[1..])
  }

  // ---------------------------------------------------------------------------------------
  // Invariant
  // ---------------------------------------------------------------------------------------

  ghost predicate SingleActive(rows: map<RunId, Row>) {
    forall r, t :: r in rows && t in rows && IsActive(rows[r]) && IsActive(rows[t]) ==> r == t
  }

  function BuildOf(builds: map<RunId, FileId>, r: RunId): Option<FileId> {
    if r in builds then Some(builds[r]) else None
  }

  predicate WrittenBy(r: RunId, id: Option<FileId>) {
    id.Some? ==> id.value.Written? && id.value.run == r
  }

  /** The build file is where a live process of a BUILDING run left it. */
  predicate BuildReady(place: Place, build: Option<FileId>) {
    && (place.Prepared? || place.Built? || place.Flushed? ==> build.Some?)
    && (place.Identified? ==> build == Some(place.identity))
  }

  predicate DbtBehind(place: Place) {
    place.Built? || place.Flushed? || place.Identified? || place.Marked? || place.Swapped?
  }

  /** Row, build file and place of one run fit together. */
  predicate RunOk(r: RunId, row: Row, place: Place, build: Option<FileId>, swapped: bool) {
    && WrittenBy(r, row.identity) && WrittenBy(r, build)
    && (place.Identified? ==> WrittenBy(r, Some(place.identity)))
    && (row.status.Publishing? || row.status.Published? ==> row.identity.Some? && row.tested == Some(true))
    && (row.status.Published? ==> swapped)
    && (swapped ==> (row.status.Publishing? || row.status.Published?) && (place.Swapped? || place.Stopped?))
    && (swapped ==> build.None?)
    && (place.Swapped? ==> swapped)
    && (place.Marked? ==> row.status.Publishing?)
    && (place.Marked? ==> !swapped && build.Some? && build == row.identity)
    && (row.status.Building? ==> BuildReady(place, build))
    && (DbtBehind(place) ==> row.tested == Some(true))
    && (row.closedWhileBuilding ==> row.status.Failed?)
  }

  ghost predicate RunsOk(rows: map<RunId, Row>, places: map<RunId, Place>, builds: map<RunId, FileId>,
                         swaps: seq<RunId>)
  {
    && places.Keys == rows.Keys && builds.Keys <= rows.Keys
    && forall r :: r in rows ==> RunOk(r, rows[r], places[r], BuildOf(builds, r), r in swaps)
  }

  /** At most the last swap has not been recorded as PUBLISHED yet. */
  ghost predicate SwapsOk(swaps: seq<RunId>, closings: seq<RunId>, rows: map<RunId, Row>) {
    && (forall r :: r in swaps ==> r in rows)
    && (forall r :: r in closings ==> r in rows && rows[r].status.Published?)
    && (swaps == closings ||
        exists r :: swaps == closings + [r] && r in rows && rows[r].status.Publishing?)
  }

  /** The published file is the one the last swap put there. */
  ghost predicate FileOk(file: Option<FileId>, swaps: seq<RunId>, rows: map<RunId, Row>) {
    match Latest(swaps)
    case None => file == None || file == Some(Seeded)
    case Some(last) => last in rows && file.Some? && file == rows[last].identity
  }

  /** What a recovery has read after a process stopped is still true. */
  predicate ClaimOk(c: Claim, row: Row, place: Place, swapped: bool) {
    && (c.published ==> !row.status.Building?)
    && (c.afterStop ==> place.Stopped? && (IsActive(row) ==> (c.published <==> swapped)))
  }

  ghost predicate ClaimsOk(claims: map<nat, Claim>, rows: map<RunId, Row>, places: map<RunId, Place>,
                           swaps: seq<RunId>)
  {
    forall q :: q in claims ==>
      && claims[q].run in rows && claims[q].run in places
      && ClaimOk(claims[q], rows[claims[q].run], places[claims[q].run], claims[q].run in swaps)
  }

  ghost predicate Inv(s: State) {
    && SingleActive(s.rows)
    && RunsOk(s.rows, s.places, s.builds, s.swaps)
    && SwapsOk(s.swaps, s.closings, s.rows)
    && FileOk(s.file, s.swaps, s.rows)
    && ClaimsOk(s.claims, s.rows, s.places, s.swaps)
  }

  lemma InitialHasInv(s: State)
    requires Initial(s)
    ensures Inv(s)
  {
  }

  // ---------------------------------------------------------------------------------------
  // One run changes
  // ---------------------------------------------------------------------------------------

  lemma RunFacts(s: State, r: RunId)
    requires Inv(s) && r in s.rows
    ensures r in s.places && RunOk(r, s.rows[r], s.places[r], BuildOf(s.builds, r), r in s.swaps)
  {
    hide RunOk, SingleActive, SwapsOk, FileOk, ClaimsOk, BuildOf;
  }

  lemma SingleActiveKeeps(rows: map<RunId, Row>, r: RunId, row: Row)
    requires SingleActive(rows) && r in rows && (IsActive(row) ==> IsActive(rows[r]))
    ensures SingleActive(rows[r := row])
  {
    hide IsActive;
  }

  lemma RunsKeep(rows: map<RunId, Row>, places: map<RunId, Place>, builds: map<RunId, FileId>, swaps: seq<RunId>,
                 r: RunId, row: Row, place: Place, after: map<RunId, FileId>)
    requires RunsOk(rows, places, builds, swaps) && r in rows
    requires after.Keys <= builds.Keys + {r} && forall t :: t != r ==> BuildOf(after, t) == BuildOf(builds, t)
    requires RunOk(r, row, place, BuildOf(after, r), r in swaps)
    ensures RunsOk(rows[r := row], places[r := place], after, swaps)
  {
    hide RunOk, BuildOf;
  }

  lemma SwapsKeep(swaps: seq<RunId>, closings: seq<RunId>, rows: map<RunId, Row>, r: RunId, row: Row)
    requires SwapsOk(swaps, closings, rows) && r in rows && (row.status == rows[r].status || r !in swaps)
    ensures SwapsOk(swaps, closings, rows[r := row])
  {
  }

  lemma FileKeeps(file: Option<FileId>, swaps: seq<RunId>, rows: map<RunId, Row>, r: RunId, row: Row)
    requires FileOk(file, swaps, rows)
    requires row.identity == (if r in rows then rows[r].identity else None) || r !in swaps
    ensures FileOk(file, swaps, rows[r := row])
  {
  }

  lemma ClaimsKeep(claims: map<nat, Claim>, rows: map<RunId, Row>, places: map<RunId, Place>, swaps: seq<RunId>,
                   r: RunId, row: Row, place: Place)
    requires ClaimsOk(claims, rows, places, swaps) && r in rows && r in places
    requires places[r].Stopped? ==> place.Stopped?
    requires (row.status.Building? ==> rows[r].status.Building?) && (IsActive(row) ==> IsActive(rows[r]))
    ensures ClaimsOk(claims, rows[r := row], places[r := place], swaps)
  {
    forall q | q in claims
      ensures var t := claims[q].run;
        t in rows && t in places && ClaimOk(claims[q], rows[r := row][t], places[r := place][t], t in swaps)
    {
      assert ClaimOk(claims[q], rows[claims[q].run], places[claims[q].run], claims[q].run in swaps);
    }
  }

  /** A run's place, build file and test result change while its status and identity stay. */
  lemma OwnStepKeeps(s: State, k: State, r: RunId, row: Row, place: Place)
    requires Inv(s) && r in s.rows && r in s.places
    requires k == s.(rows := s.rows[r := row], places := s.places[r := place], builds := k.builds, writes := k.writes)
    requires row.status == s.rows[r].status && row.identity == s.rows[r].identity
    requires s.places[r].Stopped? ==> place.Stopped?
    requires k.builds.Keys <= s.builds.Keys + {r} && forall t :: t != r ==> BuildOf(k.builds, t) == BuildOf(s.builds, t)
    requires RunOk(r, row, place, BuildOf(k.builds, r), r in s.swaps)
    ensures Inv(k)
  {
    hide RunOk, BuildOf, SingleActive, RunsOk, SwapsOk, FileOk, ClaimsOk;
    SingleActiveKeeps(s.rows, r, row);
    RunsKeep(s.rows, s.places, s.builds, s.swaps, r, row, place, k.builds);
    SwapsKeep(s.swaps, s.closings, s.rows, r, row);
    FileKeeps(s.file, s.swaps, s.rows, r, row);
    ClaimsKeep(s.claims, s.rows, s.places, s.swaps, r, row, place);
  }

  lemma SameRow(s: State, r: RunId)
    requires r in s.rows
    ensures s.rows[r := s.rows[r]] == s.rows && (r in s.places ==> s.places[r := s.places[r]] == s.places)
  {
  }

  lemma PrepareInv(s: State, r: RunId)
    requires Inv(s)
    ensures Inv(DoPrepare(s, r))
  {
    hide Inv;
    if IsAt(s, r, Starting) {
      RunFacts(s, r);
      SameRow(s, r);
      OwnStepKeeps(s, DoPrepare(s, r), r, s.rows[r], Prepared);
    }
  }

  lemma RunDbtInv(s: State, r: RunId, passed: bool)
    requires Inv(s)
    ensures Inv(DoRunDbt(s, r, passed))
  {
    hide Inv;
    if IsAt(s, r, Prepared) {
      RunFacts(s, r);
      SameRow(s, r);
      var k := DoRunDbt(s, r, passed);
      OwnStepKeeps(s, k, r, k.rows[r], k.places[r]);
    }
  }

  lemma CheckpointInv(s: State, r: RunId)
    requires Inv(s)
    ensures Inv(DoCheckpoint(s, r))
  {
    hide Inv;
    if IsAt(s, r, Built) {
      RunFacts(s, r);
      SameRow(s, r);
      OwnStepKeeps(s, DoCheckpoint(s, r), r, s.rows[r], Flushed);
    }
  }

  /** A process moves on without touching rows or files. */
  lemma GoKeeps(s: State, r: RunId, place: Place)
    requires Inv(s) && r in s.rows && r in s.places && (s.places[r].Stopped? ==> place.Stopped?)
    requires RunOk(r, s.rows[r], place, BuildOf(s.builds, r), r in s.swaps)
    ensures Inv(Go(s, r, place))
  {
    hide Inv, RunOk, BuildOf;
    SameRow(s, r);
    OwnStepKeeps(s, Go(s, r, place), r, s.rows[r], place);
  }

  lemma IdentifyInv(s: State, r: RunId)
    requires Inv(s)
    ensures Inv(DoIdentify(s, r))
  {
    hide Inv;
    if IsAt(s, r, Flushed) && r in s.builds {
      RunFacts(s, r);
      GoKeeps(s, r, Identified(s.builds[r]));
    }
  }

  lemma RaiseInv(s: State, r: RunId)
    requires Inv(s)
    ensures Inv(DoRaise(s, r))
  {
    hide Inv;
    if r in s.rows && r in s.places {
      RunFacts(s, r);
      if DoRaise(s, r) != s {
        GoKeeps(s, r, DoRaise(s, r).places[r]);
      }
    }
  }

  lemma IsolateInv(s: State, r: RunId)
    requires Inv(s)
    ensures Inv(DoIsolate(s, r))
  {
    hide Inv;
    if IsAt(s, r, Failing) {
      RunFacts(s, r);
      SameRow(s, r);
      OwnStepKeeps(s, DoIsolate(s, r), r, s.rows[r], Isolated);
    }
  }

  lemma StopInv(s: State, r: RunId)
    requires Inv(s) && r in s.rows
    ensures Inv(Go(s, r, Stopped))
  {
    hide Inv;
    RunFacts(s, r);
    GoKeeps(s, r, Stopped);
  }

  lemma CrashInv(s: State, r: RunId)
    requires Inv(s)
    ensures Inv(DoCrash(s, r))
  {
    hide SingleActive, SwapsOk, FileOk, ClaimsOk, RunOk;
    if r in s.places {
      assert r in s.rows;
      hide Inv;
      StopInv(s, r);
    }
  }

  lemma CleanUpInv(s: State, r: RunId)
    requires Inv(s)
    ensures Inv(DoCleanUp(s, r))
  {
    hide Inv;
    if r in s.rows && !IsActive(s.rows[r]) {
      RunFacts(s, r);
      SameRow(s, r);
      OwnStepKeeps(s, DoCleanUp(s, r), r, s.rows[r], s.places[r]);
    }
  }

  // ---------------------------------------------------------------------------------------
  // Steps that change a status
  // ---------------------------------------------------------------------------------------

  /** An active row whose swap has not happened goes on to PUBLISHING or is closed as FAILED. */
  lemma UnswappedStepKeeps(s: State, r: RunId, row: Row, place: Place)
    requires Inv(s) && r in s.rows && r in s.places && IsActive(s.rows[r]) && r !in s.swaps
    requires !row.status.Building? && (s.places[r].Stopped? ==> place.Stopped?)
    requires RunOk(r, row, place, BuildOf(s.builds, r), r in s.swaps)
    ensures Inv(Go(SetRow(s, r, row), r, place))
  {
    hide RunOk, BuildOf, SingleActive, RunsOk, SwapsOk, FileOk, ClaimsOk;
    SingleActiveKeeps(s.rows, r, row);
    RunsKeep(s.rows, s.places, s.builds, s.swaps, r, row, place, s.builds);
    SwapsKeep(s.swaps, s.closings, s.rows, r, row);
    FileKeeps(s.file, s.swaps, s.rows, r, row);
    ClaimsKeep(s.claims, s.rows, s.places, s.swaps, r, row, place);
  }

  lemma MarkPublishingInv(s: State, r: RunId)
    requires Inv(s)
    ensures Inv(DoMarkPublishing(s, r))
  {
    hide Inv;
    if r in s.rows && r in s.places && s.places[r].Identified? {
      RunFacts(s, r);
      if s.rows[r].status.Building? {
        var row := s.rows[r].(status := Publishing, identity := Some(s.places[r].identity));
        UnswappedStepKeeps(s, r, row, Marked);
      } else {
        GoKeeps(s, r, DoMarkPublishing(s, r).places[r]);
      }
    }
  }

  /** A PUBLISHING run that has swapped is the one swap not recorded yet. */
  lemma UnrecordedSwap(swaps: seq<RunId>, closings: seq<RunId>, rows: map<RunId, Row>, r: RunId)
    requires SwapsOk(swaps, closings, rows) && r in rows && rows[r].status.Publishing? && r in swaps
    ensures swaps == closings + [r]
  {
  }

  lemma SwapRecorded(swaps: seq<RunId>, closings: seq<RunId>, rows: map<RunId, Row>, r: RunId, row: Row)
    requires SwapsOk(swaps, closings, rows) && r in rows && rows[r].status.Publishing? && r in swaps
    requires row.status.Published?
    ensures SwapsOk(swaps, closings + [r], rows[r := row])
  {
    UnrecordedSwap(swaps, closings, rows, r);
  }

  lemma ClosePublishedInv(s: State, r: RunId, place: Place)
    requires Inv(s) && r in s.rows && r in s.places && s.rows[r].status.Publishing? && r in s.swaps
    requires place == Stopped || place == s.places[r]
    ensures Inv(Go(ClosePublished(s, r), r, place))
  {
    RunFacts(s, r);
    var row := s.rows[r].(status := Published);
    assert RunOk(r, row, place, BuildOf(s.builds, r), true);
    hide RunOk, BuildOf, SingleActive, RunsOk, SwapsOk, FileOk, ClaimsOk;
    SingleActiveKeeps(s.rows, r, row);
    RunsKeep(s.rows, s.places, s.builds, s.swaps, r, row, place, s.builds);
    SwapRecorded(s.swaps, s.closings, s.rows, r, row);
    FileKeeps(s.file, s.swaps, s.rows, r, row);
    ClaimsKeep(s.claims, s.rows, s.places, s.swaps, r, row, place);
  }

  /** A row whose swap has not happened may be closed as FAILED. */
  lemma CloseFailedInv(s: State, r: RunId, place: Place)
    requires Inv(s) && r in s.rows && r in s.places && IsActive(s.rows[r]) && r !in s.swaps
    requires place == Stopped || (place == s.places[r] && !place.Marked?)
    ensures Inv(Go(CloseFailed(s, r), r, place))
  {
    hide Inv, BuildOf;
    RunFacts(s, r);
    UnswappedStepKeeps(s, r, s.rows[r].(status := Failed, closedWhileBuilding := s.rows[r].status.Building?), place);
  }

  lemma MarkPublishedInv(s: State, r: RunId)
    requires Inv(s)
    ensures Inv(DoMarkPublished(s, r))
  {
    hide Inv, BuildOf;
    if IsAt(s, r, Swapped) {
      RunFacts(s, r);
      if s.rows[r].status.Publishing? {
        ClosePublishedInv(s, r, Stopped);
      } else {
        StopInv(s, r);
      }
    }
  }

  lemma MarkFailedInv(s: State, r: RunId)
    requires Inv(s)
    ensures Inv(DoMarkFailed(s, r))
  {
    hide Inv, BuildOf;
    if IsAt(s, r, Isolated) {
      RunFacts(s, r);
      if IsActive(s.rows[r]) {
        CloseFailedInv(s, r, Stopped);
      } else {
        StopInv(s, r);
      }
    }
  }

  /** A run that is about to swap is the active run, so every earlier swap is recorded. */
  lemma AllSwapsRecorded(s: State, r: RunId)
    requires SingleActive(s.rows) && SwapsOk(s.swaps, s.closings, s.rows)
    requires r in s.rows && IsActive(s.rows[r]) && r !in s.swaps
    ensures s.swaps == s.closings
  {
  }

  lemma RunsAfterSwap(s: State, r: RunId)
    requires RunsOk(s.rows, s.places, s.builds, s.swaps) && IsAt(s, r, Marked)
    ensures var k := DoSwap(s, r); RunsOk(k.rows, k.places, k.builds, k.swaps)
  {
    var k := DoSwap(s, r);
    assert RunOk(r, s.rows[r], s.places[r], BuildOf(s.builds, r), r in s.swaps);
    assert RunOk(r, s.rows[r], Swapped, None, true);
    hide RunOk;
    assert forall t :: t in k.swaps <==> t in s.swaps || t == r;
  }

  lemma ClaimsAfterSwap(s: State, r: RunId)
    requires ClaimsOk(s.claims, s.rows, s.places, s.swaps) && IsAt(s, r, Marked)
    ensures ClaimsOk(s.claims, s.rows, s.places[r := Swapped], s.swaps + [r])
  {
    forall q | q in s.claims
      ensures var t := s.claims[q].run;
        t in s.rows && t in s.places && ClaimOk(s.claims[q], s.rows[t], s.places[r := Swapped][t], t in s.swaps + [r])
    {
      assert ClaimOk(s.claims[q], s.rows[s.claims[q].run], s.places[s.claims[q].run], s.claims[q].run in s.swaps);
    }
  }

  lemma FileAfterSwap(s: State, r: RunId)
    requires s.swaps == s.closings && SwapsOk(s.swaps, s.closings, s.rows)
    requires r in s.rows && s.rows[r].status.Publishing? && r in s.builds && s.rows[r].identity == Some(s.builds[r])
    ensures SwapsOk(s.swaps + [r], s.closings, s.rows) && FileOk(Some(s.builds[r]), s.swaps + [r], s.rows)
  {
  }

  lemma SwapInv(s: State, r: RunId)
    requires Inv(s)
    ensures Inv(DoSwap(s, r))
  {
    hide RunsOk, SingleActive, SwapsOk, FileOk, ClaimsOk;
    if IsAt(s, r, Marked) {
      RunFacts(s, r);
      RunsAfterSwap(s, r);
      ClaimsAfterSwap(s, r);
      AllSwapsRecorded(s, r);
      FileAfterSwap(s, r);
    }
  }

  lemma StartedRuns(rows: map<RunId, Row>, places: map<RunId, Place>, builds: map<RunId, FileId>, swaps: seq<RunId>,
                    r: RunId, row: Row)
    requires RunsOk(rows, places, builds, swaps) && r !in rows && r !in swaps
    requires row.status.Building? && row.identity.None? && !row.closedWhileBuilding
    ensures RunsOk(rows[r := row], places[r := Starting], builds, swaps)
  {
    assert RunOk(r, row, Starting, None, false) && BuildOf(builds, r) == None;
    hide RunOk;
  }

  lemma StartedRest(s: State, r: RunId, row: Row)
    requires SwapsOk(s.swaps, s.closings, s.rows) && FileOk(s.file, s.swaps, s.rows)
    requires ClaimsOk(s.claims, s.rows, s.places, s.swaps) && r !in s.rows && !HasActive(s)
    ensures SingleActive(s.rows[r := row]) && r !in s.swaps
    ensures SwapsOk(s.swaps, s.closings, s.rows[r := row]) && FileOk(s.file, s.swaps, s.rows[r := row])
    ensures ClaimsOk(s.claims, s.rows[r := row], s.places[r := Starting], s.swaps)
  {
    hide ClaimOk;
  }

  lemma StartInv(s: State, r: RunId, dagRun: nat)
    requires Inv(s)
    ensures Inv(DoStart(s, r, dagRun))
  {
    hide RunsOk, SingleActive, SwapsOk, FileOk, ClaimsOk, HasActive;
    if r !in s.rows && !HasActive(s) {
      var row := Row(dagRun, Building, None, None, Latest(s.closings), false);
      StartedRest(s, r, row);
      StartedRuns(s.rows, s.places, s.builds, s.swaps, r, row);
    }
  }

  lemma ReclaimedRuns(s: State, dagRun: nat)
    requires RunsOk(s.rows, s.places, s.builds, s.swaps)
    ensures var k := DoReclaim(s, dagRun); RunsOk(k.rows, k.places, k.builds, k.swaps)
  {
    hide BuildOf;
    var k := DoReclaim(s, dagRun);
    forall t | t in k.rows ensures RunOk(t, k.rows[t], k.places[t], BuildOf(k.builds, t), t in k.swaps) {
      assert RunOk(t, s.rows[t], s.places[t], BuildOf(s.builds, t), t in s.swaps);
    }
  }

  /** Some BUILDING rows became FAILED and nothing else changed. */
  ghost predicate OnlyReclaimed(rows: map<RunId, Row>, later: map<RunId, Row>) {
    && later.Keys == rows.Keys
    && forall r :: r in rows ==>
         later[r] == rows[r]
         || (rows[r].status.Building? && later[r].status.Failed? && later[r].identity == rows[r].identity)
  }

  lemma ReclaimedKeeps(s: State, later: map<RunId, Row>)
    requires SingleActive(s.rows) && SwapsOk(s.swaps, s.closings, s.rows) && FileOk(s.file, s.swaps, s.rows)
    requires OnlyReclaimed(s.rows, later)
    ensures SingleActive(later) && SwapsOk(s.swaps, s.closings, later) && FileOk(s.file, s.swaps, later)
  {
  }

  lemma ReclaimedClaims(s: State, later: map<RunId, Row>)
    requires ClaimsOk(s.claims, s.rows, s.places, s.swaps) && OnlyReclaimed(s.rows, later)
    ensures ClaimsOk(s.claims, later, s.places, s.swaps)
  {
    forall q | q in s.claims
      ensures var t := s.claims[q].run;
        t in later && t in s.places && ClaimOk(s.claims[q], later[t], s.places[t], t in s.swaps)
    {
      assert ClaimOk(s.claims[q], s.rows[s.claims[q].run], s.places[s.claims[q].run], s.claims[q].run in s.swaps);
    }
  }

  lemma ReclaimInv(s: State, dagRun: nat)
    requires Inv(s)
    ensures Inv(DoReclaim(s, dagRun))
  {
    hide RunsOk, SingleActive, SwapsOk, FileOk, ClaimsOk;
    var later := DoReclaim(s, dagRun).rows;
    ReclaimedRuns(s, dagRun);
    assert OnlyReclaimed(s.rows, later);
    ReclaimedKeeps(s, later);
    ReclaimedClaims(s, later);
  }

  // ---------------------------------------------------------------------------------------
  // Recovery
  // ---------------------------------------------------------------------------------------

  /** The identity of the published file tells whether a PUBLISHING run has swapped. */
  lemma IdentityTellsSwap(s: State, r: RunId)
    requires Inv(s) && r in s.rows && s.rows[r].status.Publishing?
    ensures s.file == s.rows[r].identity <==> r in s.swaps
  {
    RunFacts(s, r);
    if s.swaps != [] {
      RunFacts(s, s.swaps[|s.swaps| - 1]);
    }
    if r in s.swaps {
      UnrecordedSwap(s.swaps, s.closings, s.rows, r);
    }
    hide RunsOk, SingleActive, ClaimsOk;
  }

  lemma ReadStaleInv(s: State, q: nat, r: RunId)
    requires Inv(s)
    ensures Inv(DoReadStale(s, q, r))
  {
    if r in s.rows && IsActive(s.rows[r]) {
      RunFacts(s, r);
      if s.rows[r].status.Publishing? {
        IdentityTellsSwap(s, r);
      }
      hide RunsOk, SingleActive, SwapsOk, FileOk;
    }
  }

  lemma ClaimFacts(s: State, q: nat)
    requires Inv(s) && q in s.claims
    ensures var r := s.claims[q].run;
      r in s.rows && r in s.places && ClaimOk(s.claims[q], s.rows[r], s.places[r], r in s.swaps)
  {
    hide RunsOk, SingleActive, SwapsOk, FileOk, ClaimOk;
  }

  lemma CloseStaleInv(s: State, q: nat)
    requires Inv(s) && ClosesSoundly(s, q)
    ensures Inv(DoCloseStale(s, q))
  {
    hide Inv, BuildOf;
    if q in s.claims && s.claims[q].run in s.rows && IsActive(s.rows[s.claims[q].run]) {
      ClaimFacts(s, q);
      var r := s.claims[q].run;
      RunFacts(s, r);
      SameRow(s, r);
      if s.rows[r].status.Publishing? {
        IdentityTellsSwap(s, r);
      }
      if s.claims[q].published {
        ClosePublishedInv(s, r, s.places[r]);
      } else {
        CloseFailedInv(s, r, s.places[r]);
      }
    }
  }

  /** A claim read after the process stopped is still right, and a stopped process swaps nothing. */
  lemma TimelyCloseIsSound(s: State, q: nat)
    requires Inv(s) && JudgedInTime(s, q)
    ensures ClosesSoundly(s, q)
  {
    hide Inv, BuildOf;
    if q in s.claims && s.claims[q].run in s.rows && s.rows[s.claims[q].run].status.Publishing? {
      ClaimFacts(s, q);
      IdentityTellsSwap(s, s.claims[q].run);
    }
  }

  // ---------------------------------------------------------------------------------------
  // Every run of the system
  // ---------------------------------------------------------------------------------------

  /** Every step keeps the invariant. */
  lemma StepInv(s: State, step: Step)
    requires Inv(s)
    ensures Inv(Apply(s, step))
  {
    hide Inv, DoStart, DoPrepare, DoRunDbt, DoCheckpoint, DoIdentify, DoMarkPublishing, DoSwap, DoMarkPublished,
         DoRaise, DoIsolate, DoMarkFailed, DoCrash, DoReclaim, DoReadStale, DoCloseStale, DoCleanUp;
    match step {
      case Start(r, dagRun) => StartInv(s, r, dagRun);
      case Prepare(r) => PrepareInv(s, r);
      case RunDbt(r, passed) => RunDbtInv(s, r, passed);
      case Checkpoint(r) => CheckpointInv(s, r);
      case Identify(r) => IdentifyInv(s, r);
      case MarkPublishing(r) => MarkPublishingInv(s, r);
      case Swap(r) => SwapInv(s, r);
      case MarkPublished(r) => MarkPublishedInv(s, r);
      case Raise(r) => RaiseInv(s, r);
      case Isolate(r) => IsolateInv(s, r);
      case MarkFailed(r) => MarkFailedInv(s, r);
      case Crash(r) => CrashInv(s, r);
      case Reclaim(dagRun) => ReclaimInv(s, dagRun);
      case ReadStale(q, r) => ReadStaleInv(s, q, r);
      case CloseStale(q) =>
        if ClosesSoundly(s, q) {
          CloseStaleInv(s, q);
        }
      case CleanUp(r) => CleanUpInv(s, r);
    }
  }

  lemma {:induction false} ExecuteInv(s: State, steps: seq<Step>)
    requires Inv(s)
    ensures Inv(Execute(s, steps))
    decreases |steps|
  {
    hide Inv, Apply;
    if steps == [] {
    } else {
      StepInv(s, steps[0]);
      ExecuteInv(Apply(s, steps[0]), steps[1..]);
    }
  }

  /** The file is the one recorded by the run closed as PUBLISHED last, or the seeded one. */
  predicate IsLastPublished(file: Option<FileId>, closings: seq<RunId>, rows: map<RunId, Row>) {
    match Latest(closings)
    case None => file == None || file == Some(Seeded)
    case Some(r) => r in rows && rows[r].status.Published? && file.Some? && file == rows[r].identity
  }

  /**
   At most one run is active, and the published file is the one recorded by the run that is
   PUBLISHING and has swapped, if there is one, and otherwise by the run closed as PUBLISHED last.
   */
  ghost predicate Accounted(s: State) {
    && SingleActive(s.rows)
    && (forall r :: r in s.rows && s.rows[r].status.Publishing? && r in s.swaps ==>
          s.file.Some? && s.file == s.rows[r].identity)
    && ((forall r :: r in s.rows && s.rows[r].status.Publishing? ==> r !in s.swaps) ==>
          IsLastPublished(s.file, s.closings, s.rows))
  }

  lemma InvIsAccounted(s: State)
    requires Inv(s)
    ensures Accounted(s)
  {
    hide RunsOk, ClaimsOk;
    forall r | r in s.rows && s.rows[r].status.Publishing? && r in s.swaps
      ensures s.file.Some? && s.file == s.rows[r].identity
    {
      UnrecordedSwap(s.swaps, s.closings, s.rows, r);
    }
  }

  /** Publish crash safety: in every run the published file is accounted for at every moment. */
  lemma PublishedFileIsAccounted(s: State, steps: seq<Step>)
    requires Initial(s)
    ensures Accounted(Execute(s, steps))
  {
    hide Execute, Inv;
    InitialHasInv(s);
    ExecuteInv(s, steps);
    InvIsAccounted(Execute(s, steps));
  }

  /**
   A recovery closes a PUBLISHING row as PUBLISHED exactly when its swap happened, if and only if
   what it read still says whether the published file is the one the row recorded.  A recovery
   that judged in time always meets the condition.
   */
  lemma RecoveryFollowsTheSwap(s: State, steps: seq<Step>, q: nat)
    requires Initial(s)
    requires var e := Execute(s, steps);
      q in e.claims && e.claims[q].run in e.rows && e.rows[e.claims[q].run].status.Publishing?
    ensures var e := Execute(s, steps);
      var r, k := e.claims[q].run, DoCloseStale(e, q);
      var follows := r in k.rows && k.rows[r].status == if r in e.swaps then Published else Failed;
      && (follows <==> (e.claims[q].published <==> e.file == e.rows[r].identity))
      && (JudgedInTime(e, q) ==> follows)
  {
    hide Execute, Inv;
    InitialHasInv(s);
    ExecuteInv(s, steps);
    IdentityTellsSwap(Execute(s, steps), Execute(s, steps).claims[q].run);
    ClaimFacts(Execute(s, steps), q);
  }

  // ---------------------------------------------------------------------------------------
  // When a recovery does harm
  // ---------------------------------------------------------------------------------------

  lemma ExecuteFirst(s: State, step: Step, rest: seq<Step>)
    ensures Execute(s, [step] + rest) == Execute(Apply(s, step), rest)
  {
    assert ([step] + rest)[1..] == rest;
  }

  lemma ExecuteNone(s: State)
    ensures Execute(s, []) == s
  {
  }

  lemma ExecuteOne(s: State, step: Step)
    ensures Execute(s, [step]) == Apply(s, step)
  {
    hide Apply;
    assert [step] == [step] + [];
    ExecuteFirst(s, step, []);
    ExecuteNone(Apply(s, step));
  }

  ghost predicate StaysAccounted(s: State) {
    forall more :: Accounted(Execute(s, more))
  }

  /** The published file belongs to a run closed as FAILED and nobody is active any more. */
  ghost predicate FileOfFailed(s: State, r: RunId) {
    && r in s.rows && s.rows[r].status.Failed? && s.file.Some? && s.file == s.rows[r].identity
    && forall t :: t in s.rows ==> !IsActive(s.rows[t]) && WrittenBy(t, s.rows[t].identity)
  }

  lemma FileOfFailedBreaks(s: State, r: RunId)
    requires FileOfFailed(s, r)
    ensures !Accounted(s)
  {
    hide SingleActive;
    assert WrittenBy(r, s.rows[r].identity);
    if s.closings != [] && s.closings[|s.closings| - 1] in s.rows {
      var t := s.closings[|s.closings| - 1];
      assert WrittenBy(t, s.rows[t].identity);
    }
  }

  lemma IdentitiesAreOwn(s: State)
    requires Inv(s)
    ensures forall t :: t in s.rows ==> WrittenBy(t, s.rows[t].identity)
  {
    hide Inv, BuildOf;
    forall t | t in s.rows ensures WrittenBy(t, s.rows[t].identity) {
      RunFacts(s, t);
    }
  }

  lemma OnlyActive(s: State, r: RunId)
    requires Inv(s) && r in s.rows && IsActive(s.rows[r])
    ensures forall t :: t in s.rows && t != r ==> !IsActive(s.rows[t])
  {
    hide RunsOk, SwapsOk, FileOk, ClaimsOk, IsActive;
  }

  lemma PublishedTooEarly(s: State, q: nat)
    requires Inv(s) && q in s.claims && s.claims[q].run in s.rows
    requires s.rows[s.claims[q].run].status.Publishing? && s.claims[q].published
    requires s.file != s.rows[s.claims[q].run].identity
    ensures !Accounted(DoCloseStale(s, q))
  {
    hide Inv, SingleActive;
    OnlyActive(s, s.claims[q].run);
  }

  lemma ClosedFailedLosesFile(s: State, q: nat)
    requires Inv(s) && q in s.claims && s.claims[q].run in s.rows
    requires s.rows[s.claims[q].run].status.Publishing? && !s.claims[q].published
    ensures var k := DoCloseStale(s, q); var r := s.claims[q].run;
      && (s.file == s.rows[r].identity ==> FileOfFailed(k, r))
      && (IsAt(s, r, Marked) ==> FileOfFailed(DoSwap(k, r), r))
  {
    hide Inv;
    var r := s.claims[q].run;
    IdentitiesAreOwn(s);
    OnlyActive(s, r);
    RunFacts(s, r);
  }

  lemma MarkedHasNotSwapped(s: State, r: RunId)
    requires Inv(s) && r in s.rows && s.rows[r].status.Publishing?
    ensures IsAt(s, r, Marked) ==> s.file != s.rows[r].identity
  {
    hide Inv, BuildOf;
    RunFacts(s, r);
    IdentityTellsSwap(s, r);
  }

  lemma UnsoundCloseBreaks(s: State, q: nat)
    requires Inv(s) && !ClosesSoundly(s, q)
    ensures exists more :: !Accounted(Execute(DoCloseStale(s, q), more))
  {
    hide Inv, Accounted, FileOfFailed, DoCloseStale, DoSwap;
    var k, r := DoCloseStale(s, q), s.claims[q].run;
    ExecuteNone(k);
    if s.claims[q].published {
      MarkedHasNotSwapped(s, r);
      PublishedTooEarly(s, q);
      assert !Accounted(Execute(k, []));
    } else {
      ClosedFailedLosesFile(s, q);
      if s.file == s.rows[r].identity {
        FileOfFailedBreaks(k, r);
        assert !Accounted(Execute(k, []));
      } else {
        FileOfFailedBreaks(DoSwap(k, r), r);
        ExecuteOne(k, Swap(r));
        assert !Accounted(Execute(k, [Swap(r)]));
      }
    }
  }

  /**
   Closing a row on a claim keeps the published file accounted for, in every continuation of the
   run, if and only if `ClosesSoundly` holds at that moment.  It holds for every timely recovery.
   */
  lemma CloseIsHarmless(s: State, steps: seq<Step>, q: nat)
    requires Initial(s)
    ensures var e := Execute(s, steps);
      && (StaysAccounted(DoCloseStale(e, q)) <==> ClosesSoundly(e, q))
      && (JudgedInTime(e, q) ==> ClosesSoundly(e, q))
  {
    hide Execute, Inv, Accounted, ClosesSoundly, JudgedInTime, DoCloseStale;
    InitialHasInv(s);
    ExecuteInv(s, steps);
    var e := Execute(s, steps);
    var k := DoCloseStale(e, q);
    if JudgedInTime(e, q) {
      TimelyCloseIsSound(e, q);
    }
    if ClosesSoundly(e, q) {
      CloseStaleInv(e, q);
      forall more ensures Accounted(Execute(k, more)) {
        ExecuteInv(k, more);
        InvIsAccounted(Execute(k, more));
      }
    } else {
      UnsoundCloseBreaks(e, q);
    }
  }

  /** Publish gate: only a build whose dbt run passed, and whose row was never closed while BUILDING, is swapped in. */
  lemma PublishGate(s: State, steps: seq<Step>, r: RunId)
    requires Initial(s) && r in Execute(s, steps).swaps
    ensures var e := Execute(s, steps);
      && r in e.rows && e.rows[r].tested == Some(true) && !e.rows[r].closedWhileBuilding
      && (e.rows[r].status.Publishing? || e.rows[r].status.Published?)
  {
    hide Execute, RunsOk, ClaimsOk, FileOk, SingleActive;
    InitialHasInv(s);
    ExecuteInv(s, steps);
    RunFacts(Execute(s, steps), r);
  }

  /** No step reopens or changes a closed row, whether or not the recovery judged in time. */
  lemma ClosedRowsStay(s: State, step: Step)
    ensures ClosedStays(s, Apply(s, step))
  {
    hide DoStart, DoPrepare, DoRunDbt, DoCheckpoint, DoIdentify, DoMarkPublishing, DoSwap, DoMarkPublished,
         DoRaise, DoIsolate, DoMarkFailed, DoCrash, DoReclaim, DoReadStale, DoCloseStale, DoCleanUp;
  }

  lemma ClosedStaysTransitive(a: State, b: State, c: State)
    requires ClosedStays(a, b) && ClosedStays(b, c)
    ensures ClosedStays(a, c)
  {
    forall r ensures RowStays(a.rows, c.rows, r) {
      assert RowStays(a.rows, b.rows, r) && RowStays(b.rows, c.rows, r);
    }
  }

  /** PUBLISHED and FAILED are final. */
  lemma {:induction false} ClosedForever(s: State, steps: seq<Step>)
    ensures ClosedStays(s, Execute(s, steps))
    decreases |steps|
  {
    hide Apply;
    if steps == [] {
    } else {
      ClosedRowsStay(s, steps[0]);
      ClosedForever(Apply(s, steps[0]), steps[1..]);
      ClosedStaysTransitive(s, Apply(s, steps[0]), Execute(s, steps));
    }
  }

  // ---------------------------------------------------------------------------------------
  // Whole publications
  // ---------------------------------------------------------------------------------------

  lemma ExecutesTwo(s: State, a: Step, b: Step)
    ensures Execute(s, [a, b]) == Apply(Apply(s, a), b)
  {
    hide Apply, Execute;
    assert [a, b] == [a] + [b];
    ExecuteFirst(s, a, [b]);
    ExecuteOne(Apply(s, a), b);
  }

  lemma ExecutesTriple(s: State, a: Step, b: Step, c: Step)
    ensures Execute(s, [a, b, c]) == Apply(Apply(Apply(s, a), b), c)
  {
    hide Apply, Execute;
    assert [a, b, c] == [a] + [b, c];
    ExecuteFirst(s, a, [b, c]);
    ExecutesTwo(Apply(s, a), b, c);
  }

  lemma {:induction false} ExecuteAppend(s: State, steps: seq<Step>, more: seq<Step>)
    ensures Execute(s, steps + more) == Execute(Execute(s, steps), more)
    decreases |steps|
  {
    hide Apply;
    if steps == [] {
      assert steps + more == more;
    } else {
      assert (steps + more)[1..] == steps[1..] + more;
      ExecuteAppend(Apply(s, steps[0]), steps[1..], more);
    }
  }

  /** Run `r` has this row, place and build file; published file, swaps, closings and all other rows stand as in `s`. */
  ghost predicate Runs(s: State, k: State, r: RunId, row: Row, place: Place, build: Option<FileId>) {
    && k.file == s.file && k.swaps == s.swaps && k.closings == s.closings
    && r in k.rows && k.rows[r] == row && r in k.places && k.places[r] == place && BuildOf(k.builds, r) == build
    && k.rows.Keys == s.rows.Keys + {r} && forall t :: t in s.rows && t != r ==> k.rows[t] == s.rows[t]
  }

  lemma RunsReflexive(s: State, r: RunId)
    requires r in s.rows && r in s.places
    ensures Runs(s, s, r, s.rows[r], s.places[r], BuildOf(s.builds, r))
  {
  }

  /** A run that has just started on a system without an active run. */
  function NewRow(s: State, dagRun: nat): Row {
    Row(dagRun, Building, None, None, Latest(s.closings), false)
  }

  /** A run starts exactly when it is new and no run is active. */
  lemma StartNeeds(s: State, r: RunId, dagRun: nat)
    ensures r in s.rows || HasActive(s) ==> DoStart(s, r, dagRun) == s
    ensures r !in s.rows && !HasActive(s) ==>
      var k := DoStart(s, r, dagRun);
      Runs(s, k, r, NewRow(s, dagRun), Starting, BuildOf(s.builds, r)) && k.writes == s.writes
  {
    hide HasActive;
  }

  lemma Prepares(s: State, k: State, r: RunId, row: Row, build: Option<FileId>)
    requires Runs(s, k, r, row, Starting, build)
    ensures var l := DoPrepare(k, r);
      Runs(s, l, r, row, Prepared, Some(Written(r, Count(k, r)))) && Count(l, r) == Count(k, r) + 1
  {
  }

  lemma Builds(s: State, k: State, r: RunId, row: Row, build: Option<FileId>, passed: bool)
    requires Runs(s, k, r, row, Prepared, build) && row.status.Building?
    ensures var l := DoRunDbt(k, r, passed);
      && Runs(s, l, r, row.(tested := Some(passed)), if passed then Built else Failing, Some(Written(r, Count(k, r))))
      && Count(l, r) == Count(k, r) + 1
  {
  }

  lemma Flushes(s: State, k: State, r: RunId, row: Row, build: Option<FileId>)
    requires Runs(s, k, r, row, Built, build)
    ensures Runs(s, DoCheckpoint(k, r), r, row, Flushed, Some(Written(r, Count(k, r))))
  {
  }

  lemma IdentifiesAndMarks(s: State, k: State, r: RunId, row: Row, build: FileId)
    requires Runs(s, k, r, row, Flushed, Some(build)) && row.status.Building?
    ensures Runs(s, DoMarkPublishing(DoIdentify(k, r), r), r, row.(status := Publishing, identity := Some(build)),
                 Marked, Some(build))
  {
    assert Runs(s, DoIdentify(k, r), r, row, Identified(build), Some(build));
  }

  lemma SwapsAndCloses(s: State, k: State, r: RunId, row: Row, build: FileId)
    requires Runs(s, k, r, row, Marked, Some(build)) && row.status.Publishing?
    ensures var l := DoMarkPublished(DoSwap(k, r), r);
      && l.file == Some(build) && l.swaps == s.swaps + [r] && l.closings == s.closings + [r]
      && r in l.rows && l.rows[r] == row.(status := Published) && r in l.places && l.places[r] == Stopped
      && r !in l.builds
      && l.rows.Keys == s.rows.Keys + {r} && forall t :: t in s.rows && t != r ==> l.rows[t] == s.rows[t]
  {
  }

  /** Every stage of a publication in the order of the service, with nobody else interfering. */
  function PublishSteps(r: RunId, dagRun: nat): seq<Step> {
    [Start(r, dagRun), Prepare(r), RunDbt(r, true)] + ([Checkpoint(r), Identify(r), MarkPublishing(r)]
      + [Swap(r), MarkPublished(r)])
  }

  lemma PublishExecutes(s: State, r: RunId, dagRun: nat)
    ensures var a := DoRunDbt(DoPrepare(DoStart(s, r, dagRun), r), r, true);
      var b := DoMarkPublishing(DoIdentify(DoCheckpoint(a, r), r), r);
      Execute(s, PublishSteps(r, dagRun)) == DoMarkPublished(DoSwap(b, r), r)
  {
    hide Execute, DoStart, DoPrepare, DoRunDbt, DoCheckpoint, DoIdentify, DoMarkPublishing, DoSwap, DoMarkPublished;
    var later := [Checkpoint(r), Identify(r), MarkPublishing(r)] + [Swap(r), MarkPublished(r)];
    ExecuteAppend(s, [Start(r, dagRun), Prepare(r), RunDbt(r, true)], later);
    ExecutesTriple(s, Start(r, dagRun), Prepare(r), RunDbt(r, true));
    var a := DoRunDbt(DoPrepare(DoStart(s, r, dagRun), r), r, true);
    ExecuteAppend(a, [Checkpoint(r), Identify(r), MarkPublishing(r)], [Swap(r), MarkPublished(r)]);
    ExecutesTriple(a, Checkpoint(r), Identify(r), MarkPublishing(r));
    ExecutesTwo(DoMarkPublishing(DoIdentify(DoCheckpoint(a, r), r), r), Swap(r), MarkPublished(r));
  }

  /** Only `r` can be active, and it is closed. */
  lemma NoneIsActive(s: State, e: State, r: RunId)
    requires !HasActive(s) && e.rows.Keys == s.rows.Keys + {r} && IsClosed(e.rows[r])
    requires forall t :: t in s.rows && t != r ==> e.rows[t] == s.rows[t]
    ensures !HasActive(e)
  {
    forall t | t in e.rows ensures !IsActive(e.rows[t]) {
      if t != r {
        assert !IsActive(s.rows[t]);
      }
    }
  }

  lemma SameCount(s: State, k: State, r: RunId)
    requires k.writes == s.writes
    ensures Count(k, r) == Count(s, r)
  {
  }

  /**
   A publication goes through: from every sound state without an active run, the stages of a new
   run end with its row PUBLISHED, its build as the published file, the run published last before
   as its predecessor, and the way free for the next run.
   */
  lemma PublishSucceeds(s: State, r: RunId, dagRun: nat)
    requires Inv(s) && !HasActive(s) && r !in s.rows
    ensures var e := Execute(s, PublishSteps(r, dagRun));
      && e.file == Some(Written(r, Count(s, r) + 2))
      && r in e.rows && e.rows[r] == Row(dagRun, Published, e.file, Some(true), Latest(s.closings), false)
      && e.closings == s.closings + [r] && e.swaps == s.swaps + [r]
      && !HasActive(e) && r !in e.builds && r in e.places && e.places[r] == Stopped
      && e.rows.Keys == s.rows.Keys + {r} && forall t :: t in s.rows ==> e.rows[t] == s.rows[t]
  {
    hide Inv, Execute, HasActive, Count, DoStart, DoPrepare, DoRunDbt, DoCheckpoint, DoIdentify, DoMarkPublishing,
         DoSwap, DoMarkPublished, BuildOf, Runs;
    PublishExecutes(s, r, dagRun);
    var row := NewRow(s, dagRun);
    var a := DoStart(s, r, dagRun);
    StartNeeds(s, r, dagRun);
    SameCount(s, a, r);
    Prepares(s, a, r, row, BuildOf(s.builds, r));
    var b := DoPrepare(a, r);
    Builds(s, b, r, row, Some(Written(r, Count(a, r))), true);
    var c := DoRunDbt(b, r, true);
    var passed := row.(tested := Some(true));
    Flushes(s, c, r, passed, Some(Written(r, Count(b, r))));
    var build := Written(r, Count(c, r));
    IdentifiesAndMarks(s, DoCheckpoint(c, r), r, passed, build);
    SwapsAndCloses(s, DoMarkPublishing(DoIdentify(DoCheckpoint(c, r), r), r), r,
                   passed.(status := Publishing, identity := Some(build)), build);
    NoneIsActive(s, Execute(s, PublishSteps(r, dagRun)), r);
  }

  lemma IsolatesAndFails(s: State, k: State, r: RunId, row: Row, build: Option<FileId>)
    requires Runs(s, k, r, row, Failing, build) && IsActive(row)
    ensures Runs(s, DoMarkFailed(DoIsolate(k, r), r), r,
                 row.(status := Failed, closedWhileBuilding := row.status.Building?), Stopped, None)
  {
    assert Runs(s, DoIsolate(k, r), r, row, Isolated, None);
  }

  lemma HandlerExecutes(s: State, r: RunId)
    ensures Execute(s, [Isolate(r), MarkFailed(r)]) == DoMarkFailed(DoIsolate(s, r), r)
    ensures Execute(s, [Raise(r), Isolate(r), MarkFailed(r)]) == DoMarkFailed(DoIsolate(DoRaise(s, r), r), r)
  {
    hide Execute, DoIsolate, DoMarkFailed, DoRaise;
    ExecutesTwo(s, Isolate(r), MarkFailed(r));
    ExecutesTriple(s, Raise(r), Isolate(r), MarkFailed(r));
  }

  function FailedBuildSteps(r: RunId, dagRun: nat): seq<Step> {
    [Start(r, dagRun), Prepare(r), RunDbt(r, false)] + [Isolate(r), MarkFailed(r)]
  }

  lemma RunsKeepRows(s: State, k: State, r: RunId, row: Row, place: Place, build: Option<FileId>)
    requires Runs(s, k, r, row, place, build)
    ensures k.rows.Keys == s.rows.Keys + {r} && k.rows[r] == row
    ensures forall t :: t in s.rows && t != r ==> k.rows[t] == s.rows[t]
  {
    hide BuildOf;
  }

  /** A failed dbt run ends FAILED; the published file stays and the way is free for the next run. */
  lemma FailedBuildIsClosed(s: State, r: RunId, dagRun: nat)
    requires Inv(s) && !HasActive(s) && r !in s.rows
    ensures var e := Execute(s, FailedBuildSteps(r, dagRun));
      && Runs(s, e, r, Row(dagRun, Failed, None, Some(false), Latest(s.closings), true), Stopped, None)
      && !HasActive(e)
  {
    hide Inv, Execute, HasActive, Count, DoStart, DoPrepare, DoRunDbt, DoIsolate, DoMarkFailed, BuildOf, Runs;
    ExecuteAppend(s, [Start(r, dagRun), Prepare(r), RunDbt(r, false)], [Isolate(r), MarkFailed(r)]);
    ExecutesTriple(s, Start(r, dagRun), Prepare(r), RunDbt(r, false));
    var row := NewRow(s, dagRun);
    var a := DoStart(s, r, dagRun);
    StartNeeds(s, r, dagRun);
    Prepares(s, a, r, row, BuildOf(s.builds, r));
    var b := DoPrepare(a, r);
    Builds(s, b, r, row, Some(Written(r, Count(a, r))), false);
    var c := DoRunDbt(b, r, false);
    HandlerExecutes(c, r);
    IsolatesAndFails(s, c, r, row.(tested := Some(false)), Some(Written(r, Count(b, r))));
    RunsKeepRows(s, DoMarkFailed(DoIsolate(c, r), r), r,
                 Row(dagRun, Failed, None, Some(false), Latest(s.closings), true),
                 Stopped, None);
    NoneIsActive(s, DoMarkFailed(DoIsolate(c, r), r), r);
  }

  /** The process of a BUILDING run, or of one that has been marked and has yet to swap. */
  predicate IsBeforeSwap(s: State, r: RunId) {
    && r in s.rows && r in s.places
    && if s.rows[r].status.Building?
       then s.places[r].Starting? || s.places[r].Prepared? || s.places[r].Built? || s.places[r].Flushed?
            || s.places[r].Identified?
       else s.places[r].Marked?
  }

  lemma RaiseReachesHandler(s: State, r: RunId)
    requires Inv(s) && IsBeforeSwap(s, r)
    ensures IsActive(s.rows[r]) && Runs(s, DoRaise(s, r), r, s.rows[r], Failing, BuildOf(s.builds, r))
  {
    hide Inv;
    RunFacts(s, r);
  }

  lemma OthersInactive(s: State, e: State, r: RunId)
    requires e.rows.Keys == s.rows.Keys + {r} && IsClosed(e.rows[r])
    requires forall t :: t in s.rows && t != r ==> e.rows[t] == s.rows[t] && !IsActive(s.rows[t])
    ensures !HasActive(e)
  {
  }

  /**
   An exception before the swap, at any stage, followed by the failure handler ends FAILED: the
   published file stays, the build file is gone and the way is free for the next run.
   */
  lemma FailureBeforeSwapIsClosed(s: State, r: RunId)
    requires Inv(s) && IsBeforeSwap(s, r)
    ensures var e, row := Execute(s, [Raise(r), Isolate(r), MarkFailed(r)]), s.rows[r];
      && Runs(s, e, r, row.(status := Failed, closedWhileBuilding := row.status.Building?), Stopped, None)
      && !HasActive(e)
  {
    hide Inv, Execute, HasActive, DoRaise, DoIsolate, DoMarkFailed, BuildOf, Runs;
    HandlerExecutes(s, r);
    RaiseReachesHandler(s, r);
    IsolatesAndFails(s, DoRaise(s, r), r, s.rows[r], BuildOf(s.builds, r));
    var e := DoMarkFailed(DoIsolate(DoRaise(s, r), r), r);
    var row := s.rows[r].(status := Failed, closedWhileBuilding := s.rows[r].status.Building?);
    RunsKeepRows(s, e, r, row, Stopped, None);
    OnlyActive(s, r);
    OthersInactive(s, e, r);
  }

  lemma SameRowsInactive(s: State, e: State)
    requires !HasActive(s) && e.rows == s.rows
    ensures !HasActive(e)
  {
  }

  lemma ClaimAfterCrash(s: State, r: RunId, q: nat)
    requires IsAt(s, r, Swapped) && s.rows[r].status.Publishing?
    requires s.file == s.rows[r].identity && s.rows[r].identity.Some?
    ensures var b := DoReadStale(DoCrash(s, r), q, r);
      && q in b.claims && b.claims[q].published && b.claims[q].run == r && !IsAt(b, r, Marked)
      && b.rows == s.rows && b.closings == s.closings && b.file == s.file && b.swaps == s.swaps
      && ClosesSoundly(b, q)
  {
  }

  lemma AppliesAfterCrash(s: State, r: RunId, q: nat)
    requires ClosesSoundly(DoReadStale(DoCrash(s, r), q, r), q)
    ensures Apply(Apply(Apply(s, Crash(r)), ReadStale(q, r)), CloseStale(q))
      == DoCloseStale(DoReadStale(DoCrash(s, r), q, r), q)
  {
    hide DoStart, DoPrepare, DoRunDbt, DoCheckpoint, DoIdentify, DoMarkPublishing, DoSwap, DoMarkPublished, DoRaise,
         DoIsolate, DoMarkFailed, DoReclaim, DoCleanUp, DoCrash, DoReadStale, DoCloseStale, ClosesSoundly;
    var a := Apply(s, Crash(r));
    assert a == DoCrash(s, r);
    var b := Apply(a, ReadStale(q, r));
    assert b == DoReadStale(a, q, r);
    assert Apply(b, CloseStale(q)) == DoCloseStale(b, q);
  }

  lemma ClosesAfterCrash(s: State, r: RunId, q: nat)
    requires IsAt(s, r, Swapped) && s.rows[r].status.Publishing?
    requires s.file == s.rows[r].identity && s.rows[r].identity.Some?
    ensures var k := Apply(Apply(Apply(s, Crash(r)), ReadStale(q, r)), CloseStale(q));
      && k.rows == ClosePublished(s, r).rows && k.closings == s.closings + [r] && k.file == s.file && k.swaps == s.swaps
  {
    hide Apply, DoCrash, DoReadStale, ClosesSoundly;
    ClaimAfterCrash(s, r, q);
    AppliesAfterCrash(s, r, q);
  }

  /**
   A process that is lost after its swap leaves a PUBLISHING row behind; the next recovery closes
   it as PUBLISHED, and the published file stays.
   */
  lemma LossAfterSwapIsRecovered(s: State, r: RunId, q: nat)
    requires Inv(s) && IsAt(s, r, Swapped) && s.rows[r].status.Publishing?
    ensures var e := Execute(s, [Crash(r), ReadStale(q, r), CloseStale(q)]);
      && r in e.rows && e.rows[r] == s.rows[r].(status := Published) && e.closings == s.closings + [r]
      && e.file == s.file && e.file == e.rows[r].identity && e.swaps == s.swaps && !HasActive(e)
  {
    hide Execute, Inv, HasActive;
    ExecutesTriple(s, Crash(r), ReadStale(q, r), CloseStale(q));
    RunFacts(s, r);
    IdentityTellsSwap(s, r);
    OnlyActive(s, r);
    OthersInactive(s, ClosePublished(s, r), r);
    ClosesAfterCrash(s, r, q);
    SameRowsInactive(ClosePublished(s, r), Execute(s, [Crash(r), ReadStale(q, r), CloseStale(q)]));
  }

  // ---------------------------------------------------------------------------------------
  // Two recoveries that lose the published file
  // ---------------------------------------------------------------------------------------

  /** A recovery reads a run while it is BUILDING; the run then goes on to mark itself PUBLISHING. */
  function MarkedSteps(): seq<Step> {
    [Start(0, 0), Prepare(0), RunDbt(0, true), ReadStale(0, 0), Checkpoint(0), Identify(0), MarkPublishing(0)]
  }

  /** The run goes on to publish its file and crashes. */
  function LateSteps(): seq<Step> {
    MarkedSteps() + [Swap(0), Crash(0)]
  }

  lemma ExecutesThree(s: State, a: Step, b: Step, c: Step, rest: seq<Step>)
    ensures Execute(s, [a, b, c] + rest) == Execute(Apply(Apply(Apply(s, a), b), c), rest)
  {
    hide Apply, Execute;
    assert [a, b, c] + rest == [a] + ([b] + ([c] + rest));
    ExecuteFirst(s, a, [b] + ([c] + rest));
    ExecuteFirst(Apply(s, a), b, [c] + rest);
    ExecuteFirst(Apply(Apply(s, a), b), c, rest);
  }

  /** What matters of run 0 and of the recovery's claim on it. */
  ghost predicate RunLooks(s: State, status: Status, tested: Option<bool>, place: Place, build: Option<FileId>,
                           identity: Option<FileId>)
  {
    && 0 in s.rows && s.rows[0].status == status && s.rows[0].tested == tested && s.rows[0].identity == identity
    && 0 in s.places && s.places[0] == place && BuildOf(s.builds, 0) == build
  }

  lemma StartsAndPrepares(s: State)
    requires Initial(s)
    ensures var k := DoPrepare(DoStart(s, 0, 0), 0);
      RunLooks(k, Building, None, Prepared, BuildOf(k.builds, 0), None)
  {
    assert RunLooks(DoStart(s, 0, 0), Building, None, Starting, None, None);
  }

  lemma BuildsAndIsRead(s: State)
    requires RunLooks(s, Building, None, Prepared, BuildOf(s.builds, 0), None)
    ensures var k := DoReadStale(DoRunDbt(s, 0, true), 0, 0);
      && RunLooks(k, Building, Some(true), Built, BuildOf(k.builds, 0), None)
      && 0 in k.claims && k.claims[0] == Claim(0, false, false)
  {
  }

  lemma FlushesAndIdentifies(s: State)
    requires RunLooks(s, Building, Some(true), Built, BuildOf(s.builds, 0), None)
    ensures var k := DoIdentify(DoCheckpoint(s, 0), 0);
      && BuildOf(k.builds, 0).Some? && k.claims == s.claims
      && RunLooks(k, Building, Some(true), Identified(BuildOf(k.builds, 0).value), BuildOf(k.builds, 0), None)
  {
  }

  lemma Marks(s: State, build: FileId)
    requires RunLooks(s, Building, Some(true), Identified(build), Some(build), None)
    ensures var k := DoMarkPublishing(s, 0);
      RunLooks(k, Publishing, Some(true), Marked, Some(build), Some(build)) && k.claims == s.claims
  {
  }

  lemma SwapsAndCrashes(s: State, build: FileId)
    requires RunLooks(s, Publishing, Some(true), Marked, Some(build), Some(build))
    ensures var k := DoCrash(DoSwap(s, 0), 0);
      && RunLooks(k, Publishing, Some(true), Stopped, None, Some(build)) && k.claims == s.claims
      && k.file == Some(build) && 0 in k.swaps
  {
  }

  /** The run is about to swap and the recovery holds a claim from before it was marked. */
  ghost predicate AboutToSwap(e: State) {
    && BuildOf(e.builds, 0).Some?
    && RunLooks(e, Publishing, Some(true), Marked, BuildOf(e.builds, 0), BuildOf(e.builds, 0))
    && 0 in e.claims && e.claims[0] == Claim(0, false, false)
  }

  lemma MarkedRunLooks(s: State)
    requires Initial(s)
    ensures AboutToSwap(Execute(s, MarkedSteps()))
  {
    hide DoStart, DoPrepare, DoRunDbt, DoReadStale, DoCheckpoint, DoIdentify, DoMarkPublishing, RunLooks, BuildOf,
         Initial, Execute;
    assert MarkedSteps() == [Start(0, 0), Prepare(0), RunDbt(0, true)]
      + ([ReadStale(0, 0), Checkpoint(0), Identify(0)] + [MarkPublishing(0)]);
    ExecutesThree(s, Start(0, 0), Prepare(0), RunDbt(0, true),
                  [ReadStale(0, 0), Checkpoint(0), Identify(0)] + [MarkPublishing(0)]);
    var t := DoRunDbt(DoPrepare(DoStart(s, 0, 0), 0), 0, true);
    ExecutesThree(t, ReadStale(0, 0), Checkpoint(0), Identify(0), [MarkPublishing(0)]);
    var u := DoIdentify(DoCheckpoint(DoReadStale(t, 0, 0), 0), 0);
    ExecuteOne(u, MarkPublishing(0));
    StartsAndPrepares(s);
    BuildsAndIsRead(DoPrepare(DoStart(s, 0, 0), 0));
    FlushesAndIdentifies(DoReadStale(t, 0, 0));
    Marks(u, BuildOf(u.builds, 0).value);
  }

  lemma LateRunLooks(s: State)
    requires Initial(s)
    ensures var e := Execute(s, LateSteps());
      && RunLooks(e, Publishing, Some(true), Stopped, None, e.file) && e.file.Some? && 0 in e.swaps
      && 0 in e.claims && e.claims[0] == Claim(0, false, false)
  {
    hide Execute, RunLooks, BuildOf, DoSwap, DoCrash, MarkedSteps, Initial;
    ExecuteAppend(s, MarkedSteps(), [Swap(0), Crash(0)]);
    MarkedRunLooks(s);
    var t := Execute(s, MarkedSteps());
    assert [Swap(0), Crash(0)] == [Swap(0)] + [Crash(0)];
    ExecuteFirst(t, Swap(0), [Crash(0)]);
    ExecuteOne(DoSwap(t, 0), Crash(0));
    SwapsAndCrashes(t, BuildOf(t.builds, 0).value);
  }

  /**
   A late verdict: the recovery read the row while it was BUILDING, and its conditional update
   closes the row as FAILED although its file is the published one, even though the process has
   stopped by the time the row is closed.
   */
  lemma LateVerdictLosesSwap(s: State)
    requires Initial(s)
    ensures var e := Execute(s, LateSteps());
      && 0 in e.places && e.places[0].Stopped? && !ClosesSoundly(e, 0) && !JudgedInTime(e, 0)
      && FileOfFailed(DoCloseStale(e, 0), 0) && 0 in e.swaps
  {
    hide Execute, Inv, LateSteps, FileOfFailed, DoCloseStale;
    InitialHasInv(s);
    ExecuteInv(s, LateSteps());
    LateRunLooks(s);
    ClosedFailedLosesFile(Execute(s, LateSteps()), 0);
  }

  /**
   A right verdict on a live run: nothing has been swapped when the recovery closes the row as
   FAILED, but the process is already past its own status check and swaps its file in afterwards.
   */
  lemma LiveRunSwapsAfterClose(s: State)
    requires Initial(s)
    ensures var e := Execute(s, MarkedSteps());
      && 0 in e.claims && !e.claims[0].published && 0 in e.rows && e.rows[0].status.Publishing? && 0 !in e.swaps
      && !ClosesSoundly(e, 0)
      && FileOfFailed(Execute(DoCloseStale(e, 0), [Swap(0)]), 0)
  {
    hide Execute, Inv, MarkedSteps, FileOfFailed, DoCloseStale, DoSwap;
    InitialHasInv(s);
    ExecuteInv(s, MarkedSteps());
    MarkedRunLooks(s);
    var e := Execute(s, MarkedSteps());
    RunFacts(e, 0);
    ClosedFailedLosesFile(e, 0);
    ExecuteOne(DoCloseStale(e, 0), Swap(0));
  }
}
