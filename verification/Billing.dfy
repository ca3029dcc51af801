/**
 The subscription billing engine for one contract.

 An account is a contract row with the payment rows that carry its id.  `Visit` is what the
 expiry scan does to one account: end an expired contract, bill a renewal, or retry a failed
 payment.  Whether a payment attempt succeeds is an arbitrary function of contract, cycle and
 attempt; instants are microseconds.
 */
module Billing {

  const DAY := 86_400_000_000
  const SUBSCRIPTION_PERIOD := 30 * DAY
  const GRACE_PERIOD := 7 * DAY
  const RETRY_INTERVAL := 2 * DAY

  datatype Option<+T> = None | Some(value: T)

  datatype Status = Active | PaymentFailed | CancelRequested | Churned

  /** Contract ids are derived from person and start, without collisions. */
  datatype ContractId = ContractId(person: string, startedAt: int)

  datatype Contract = Contract(
    person: string, status: Status, autoRenew: bool, startedAt: int,
    periodStart: Option<int>, periodEnd: Option<int>, due: Option<int>, nextAttempt: Option<int>,
    failedAt: Option<int>, cancelRequestedAt: Option<int>, endedAt: Option<int>,
    statusChangedAt: int, createdAt: int, updatedAt: int)
  {
    function Id(): ContractId {
      ContractId(person, startedAt)
    }
  }

  datatype Payment = Payment(cycle: int, attempt: int, completed: bool, at: int, periodStart: int, periodEnd: int)

  datatype Account = Account(contract: Contract, payments: seq<Payment>)

  /** The checks a contract record makes on construction. */
  predicate ValidContract(c: Contract) {
    && 1 <= |c.person| <= 64
    && c.updatedAt >= c.createdAt
    && (c.periodStart.Some? && c.periodEnd.Some? ==> c.periodEnd.value > c.periodStart.value)
    && (c.status.Active? ==> c.periodStart.Some? && c.periodEnd.Some? && c.due.Some? && c.nextAttempt.Some?)
    && (c.status.PaymentFailed? ==> c.failedAt.Some?)
    && (c.status.CancelRequested? ==> !c.autoRenew && c.cancelRequestedAt.Some? && c.nextAttempt.None?)
    && (c.status.Churned? ==> !c.autoRenew && c.endedAt.Some? && c.due.None? && c.nextAttempt.None?)
  }

  /** The checks a payment record makes on construction. */
  predicate ValidPayment(p: Payment) {
    p.cycle >= 1 && p.attempt >= 1 && p.periodEnd > p.periodStart
  }

  function AllowedTargets(status: Status): set<Status> {
    match status
    case Active => {Active, PaymentFailed, CancelRequested}
    case PaymentFailed => {Active, CancelRequested, Churned}
    case CancelRequested => {Active, Churned}
    case Churned => {}
  }

  function OrElse(t: Option<int>, other: int): Option<int> {
    if t.Some? then t else Some(other)
  }

  /** The record after a transition, before it is checked. */
  function Changed(c: Contract, target: Status, now: int): Contract {
    match target
    case Active =>
      c.(status := Active, autoRenew := true, periodStart := Some(now), periodEnd := Some(now + SUBSCRIPTION_PERIOD),
         due := Some(now + SUBSCRIPTION_PERIOD), nextAttempt := Some(now + SUBSCRIPTION_PERIOD),
         failedAt := None, cancelRequestedAt := None, endedAt := None, statusChangedAt := now, updatedAt := now)
    case PaymentFailed =>
      c.(status := PaymentFailed, periodEnd := Some(now + GRACE_PERIOD), due := OrElse(c.due, now),
         nextAttempt := Some(now + RETRY_INTERVAL), failedAt := Some(now), cancelRequestedAt := None,
         statusChangedAt := now, updatedAt := now)
    case CancelRequested =>
      c.(status := CancelRequested, autoRenew := false, nextAttempt := None, cancelRequestedAt := Some(now),
         statusChangedAt := now, updatedAt := now)
    case Churned =>
      c.(status := Churned, autoRenew := false, due := None, nextAttempt := None, endedAt := Some(now),
         statusChangedAt := now, updatedAt := now)
  }

  /** A planned transition, or `None` where the planner raises. */
  function Transitioned(c: Contract, target: Status, now: int): Option<Contract> {
    if now <= c.updatedAt || target !in AllowedTargets(c.status) then None
    else if target.Churned? && (c.periodEnd.None? || now < c.periodEnd.value) then None
    else if !ValidContract(Changed(c, target, now)) then None
    else Some(Changed(c, target, now))
  }

  datatype Persisted = Skipped | Updated(contract: Contract) | Refused

  /** An update never moves backwards and never touches person, start or creation time. */
  function PersistContract(existing: Contract, record: Contract): Persisted {
    if existing == record then Skipped
    else if record.createdAt != existing.createdAt || record.updatedAt <= existing.updatedAt then Refused
    else Updated(record.(person := existing.person, startedAt := existing.startedAt, createdAt := existing.createdAt))
  }

  function NewContract(person: string, now: int): Option<Contract> {
    var end := Some(now + SUBSCRIPTION_PERIOD);
    var c := Contract(person, Active, true, now, Some(now), end, end, end, None, None, None, now, now, now);
    if ValidContract(c) then Some(c) else None
  }

  // ---------------------------------------------------------------------------------------
  // Payment history queries
  // ---------------------------------------------------------------------------------------

  function MaxCycle(payments: seq<Payment>): int {
    if payments == [] then 0 else
      var rest, last := MaxCycle(payments[..|payments| - 1]), payments[|payments| - 1].cycle;
      if last > rest then last else rest
  }

  function MaxAttempt(payments: seq<Payment>, cycle: int): int {
    if payments == [] then 0 else
      var rest, last := MaxAttempt(payments[..|payments| - 1], cycle), payments[|payments| - 1];
      if last.cycle == cycle && last.attempt > rest then last.attempt else rest
  }

  predicate Newer(p: Payment, q: Payment) {
    p.cycle > q.cycle || (p.cycle == q.cycle && p.attempt > q.attempt)
  }

  /** The completed payment that comes first by descending cycle and attempt. */
  function LatestCompleted(payments: seq<Payment>): Option<Payment> {
    if payments == [] then None else
      var rest, last := LatestCompleted(payments[..|payments| - 1]), payments[|payments| - 1];
      if last.completed && (rest.None? || Newer(last, rest.value)) then Some(last) else rest
  }

  /** Inserting a payment whose id exists is skipped. */
  function InsertPayment(payments: seq<Payment>, p: Payment): seq<Payment> {
    if exists q :: q in payments && q.cycle == p.cycle && q.attempt == p.attempt then payments else payments + [p]
  }

  // ---------------------------------------------------------------------------------------
  // One visit of the scan
  // ---------------------------------------------------------------------------------------

  type Outcome = (ContractId, int, int) -> bool

  datatype LogRow =
    | StatusRow(person: string, status: Status)
    | RealignedRow(person: string)
    | PaymentRow(person: string, id: ContractId, cycle: int, attempt: int, completed: bool)

  datatype Visited = Visited(account: Account, log: seq<LogRow>, updated: nat, skipped: nat, inserted: nat)

  /** A checked record is persisted over the account's row; `None` where either step raises. */
  function Store(a: Account, record: Option<Contract>, log: seq<LogRow>, inserted: nat): Option<Visited> {
    if record.None? || !ValidContract(record.value) then None else
      match PersistContract(a.contract, record.value)
      case Skipped => Some(Visited(a, log, 0, 1, inserted))
      case Updated(c) => Some(Visited(a.(contract := c), log, 1, 0, inserted))
      case Refused => None
  }

  predicate Expired(c: Contract, now: int) {
    (c.status.CancelRequested? || c.status.PaymentFailed?) && c.periodEnd.Some? && c.periodEnd.value <= now
  }

  predicate RenewalDue(c: Contract, now: int) {
    c.status.Active? && c.autoRenew && c.nextAttempt.Some? && c.nextAttempt.value <= now
  }

  predicate RetryDue(c: Contract, now: int) {
    c.status.PaymentFailed? && c.nextAttempt.Some? && c.nextAttempt.value <= now
  }

  function Advanced(c: Contract, p: Payment, now: int): Contract {
    c.(status := Active, autoRenew := true, periodStart := Some(p.periodStart), periodEnd := Some(p.periodEnd),
       due := Some(p.periodEnd), nextAttempt := Some(p.periodEnd),
       failedAt := None, cancelRequestedAt := None, endedAt := None,
       statusChangedAt := if c.status.Active? then c.statusChangedAt else now, updatedAt := now)
  }

  function Retried(c: Contract, now: int): Contract {
    c.(nextAttempt := Some(now + RETRY_INTERVAL), failedAt := Some(now), updatedAt := now)
  }

  function Realigned(c: Contract, p: Payment, now: int): Contract {
    c.(periodStart := Some(p.periodStart), periodEnd := Some(p.periodEnd), due := Some(p.periodEnd),
       nextAttempt := Some(p.periodEnd), updatedAt := now)
  }

  /** The payment the engine plans next for an account. */
  function PlannedPayment(a: Account, now: int, outcome: Outcome, forced: bool): Payment {
    var c := a.contract;
    var retry := c.status.PaymentFailed?;
    var cycle := if retry then MaxCycle(a.payments) else MaxCycle(a.payments) + 1;
    var attempt := if retry then MaxAttempt(a.payments, cycle) + 1 else 1;
    var start := if c.due.Some? then c.due.value else now;
    Payment(cycle, attempt, !forced && outcome(c.Id(), cycle, attempt), now, start, start + SUBSCRIPTION_PERIOD)
  }

  function Bill(a: Account, now: int, outcome: Outcome, forced: bool): Option<Visited> {
    var c := a.contract;
    var p := PlannedPayment(a, now, outcome, forced);
    if !ValidPayment(p) then None else
      var billed := a.(payments := InsertPayment(a.payments, p));
      var inserted := |billed.payments| - |a.payments|;
      var row := PaymentRow(c.person, c.Id(), p.cycle, p.attempt, p.completed);
      if p.completed then
        Store(billed, Some(Advanced(c, p, now)),
              [row] + (if c.status.Active? then [] else [StatusRow(c.person, Active)]), inserted)
      else if c.status.PaymentFailed? then
        Store(billed, Some(Retried(c, now)), [row], inserted)
      else
        Store(billed, Transitioned(c, PaymentFailed, now), [row, StatusRow(c.person, PaymentFailed)], inserted)
  }

  function Visit(a: Account, now: int, outcome: Outcome, forced: bool): Option<Visited> {
    var c := a.contract;
    if c.updatedAt >= now then Some(Visited(a, [], 0, 0, 0))
    else if Expired(c, now) then Store(a, Transitioned(c, Churned, now), [StatusRow(c.person, Churned)], 0)
    else if RenewalDue(c, now) then
      var latest := LatestCompleted(a.payments);
      if latest.Some? && latest.value.periodEnd > now
      then Store(a, Some(Realigned(c, latest.value, now)), [RealignedRow(c.person)], 0)
      else Bill(a, now, outcome, forced)
    else if RetryDue(c, now) then Bill(a, now, outcome, false)
    else Some(Visited(a, [], 0, 0, 0))
  }

  // ---------------------------------------------------------------------------------------
  // The account invariant
  // ---------------------------------------------------------------------------------------

  function CycleStart(startedAt: int, cycle: int): int {
    startedAt + cycle * SUBSCRIPTION_PERIOD
  }

  lemma CycleStartNext(startedAt: int, cycle: int)
    ensures CycleStart(startedAt, cycle + 1) == CycleStart(startedAt, cycle) + SUBSCRIPTION_PERIOD
  {
  }

  /** What must come after a payment: the next cycle when it completed, a retry when it failed. */
  predicate Follows(p: Payment, q: Payment) {
    if p.completed then q.cycle == p.cycle + 1 && q.attempt == 1
    else q.cycle == p.cycle && q.attempt == p.attempt + 1
  }

  /** The history starts with the first attempt of cycle one and every payment follows its predecessor. */
  ghost predicate WellSequenced(payments: seq<Payment>) {
    && (payments != [] ==> payments[0].cycle == 1 && payments[0].attempt == 1)
    && (forall i :: 0 < i < |payments| ==> Follows(payments[i - 1], payments[i]))
  }

  /** A retry follows the failed attempt by the retry interval or more. */
  ghost predicate Spaced(payments: seq<Payment>) {
    forall i :: 0 < i < |payments| && !payments[i - 1].completed ==>
      payments[i].at >= payments[i - 1].at + RETRY_INTERVAL
  }

  /** Closed form and retry bound of one payment. */
  ghost predicate PaymentOk(startedAt: int, p: Payment, latest: int) {
    && p.cycle >= 1 && 1 <= p.attempt <= 4
    && p.periodStart == CycleStart(startedAt, p.cycle) && p.periodEnd == CycleStart(startedAt, p.cycle + 1)
    && p.periodStart <= p.at <= latest
  }

  /** The cycle in progress: one past the last completed one. */
  function OpenCycle(payments: seq<Payment>): int {
    if payments == [] then 1
    else if payments[|payments| - 1].completed then payments[|payments| - 1].cycle + 1
    else payments[|payments| - 1].cycle
  }

  ghost predicate ActiveOk(c: Contract, payments: seq<Payment>) {
    var end := CycleStart(c.startedAt, OpenCycle(payments));
    && (payments == [] || payments[|payments| - 1].completed)
    && c.autoRenew && c.periodStart == Some(CycleStart(c.startedAt, OpenCycle(payments) - 1))
    && c.periodEnd == Some(end) && c.due == Some(end) && c.nextAttempt == Some(end)
  }

  /**
   The grace end stands seven days after the first failure, which is as many payments back as the
   attempts of its cycle, and the retries stand two days apart before it.
   */
  ghost predicate FailedOk(c: Contract, payments: seq<Payment>) {
    && payments != [] && !payments[|payments| - 1].completed
    && var last := payments[|payments| - 1];
    && 1 <= last.attempt <= |payments| && c.periodEnd == Some(payments[|payments| - last.attempt].at + GRACE_PERIOD)
    && c.due == Some(last.periodStart)
    && c.failedAt == Some(last.at) && c.nextAttempt == Some(last.at + RETRY_INTERVAL)
    && c.periodEnd.value - GRACE_PERIOD + (last.attempt - 1) * RETRY_INTERVAL <= last.at < c.periodEnd.value
    && (c.periodStart.Some? ==> c.periodStart.value < c.periodEnd.value - GRACE_PERIOD)
  }

  ghost predicate AccountOk(a: Account) {
    var c := a.contract;
    && ValidContract(c) && c.createdAt == c.startedAt
    && WellSequenced(a.payments) && Spaced(a.payments)
    && (forall p :: p in a.payments ==> PaymentOk(c.startedAt, p, c.updatedAt))
    && (c.status.Active? ==> ActiveOk(c, a.payments))
    && (c.status.PaymentFailed? ==> FailedOk(c, a.payments))
    && (c.status.CancelRequested? ==> c.periodEnd.Some?)
  }

  // ---------------------------------------------------------------------------------------
  // What the history queries return
  // ---------------------------------------------------------------------------------------

  lemma WellSequencedPrefix(payments: seq<Payment>)
    requires WellSequenced(payments) && payments != []
    ensures WellSequenced(payments[..|payments| - 1])
  {
    hide Follows;
  }

  /** No completed attempt lies in the cycle in progress, and nothing lies beyond it. */
  lemma {:induction false} OpenCycleIsLast(payments: seq<Payment>)
    requires WellSequenced(payments)
    ensures OpenCycle(payments) >= 1
    ensures forall p :: p in payments ==>
      p.cycle <= payments[|payments| - 1].cycle && (p.completed ==> p.cycle < OpenCycle(payments))
  {
    if payments == [] {
    } else {
      var rest, last := payments[..|payments| - 1], payments[|payments| - 1];
      WellSequencedPrefix(payments);
      OpenCycleIsLast(rest);
      assert payments == rest + [last];
      if rest != [] {
        assert Follows(payments[|payments| - 2], last);
      }
    }
  }

  lemma {:induction false} NoAttemptBeyond(payments: seq<Payment>, cycle: int)
    requires forall p :: p in payments ==> p.cycle < cycle
    ensures MaxAttempt(payments, cycle) == 0
  {
    if payments == [] {
    } else {
      NoAttemptBeyond(payments[..|payments| - 1], cycle);
      assert payments[|payments| - 1] in payments;
    }
  }

  /** The maximum cycle and attempt are those of the last payment. */
  lemma {:induction false} QueriesReadTheEnd(payments: seq<Payment>)
    requires WellSequenced(payments) && payments != []
    ensures var last := payments[|payments| - 1];
      MaxCycle(payments) == last.cycle && MaxAttempt(payments, last.cycle) == last.attempt && last.attempt >= 1
  {
    var rest, last := payments[..|payments| - 1], payments[|payments| - 1];
    WellSequencedPrefix(payments);
    if rest == [] {
    } else {
      var before := rest[|rest| - 1];
      assert Follows(payments[|payments| - 2], last);
      QueriesReadTheEnd(rest);
      OpenCycleIsLast(rest);
      if before.completed {
        NoAttemptBeyond(rest, last.cycle);
      }
    }
  }

  lemma {:induction false} LatestCompletedIsCompleted(payments: seq<Payment>)
    ensures LatestCompleted(payments).Some? ==>
      LatestCompleted(payments).value in payments && LatestCompleted(payments).value.completed
  {
    if payments == [] {
    } else {
      LatestCompletedIsCompleted(payments[..|payments| - 1]);
    }
  }

  /** A completed last payment is the latest completed one. */
  lemma LatestCompletedAtEnd(payments: seq<Payment>)
    requires WellSequenced(payments) && payments != [] && payments[|payments| - 1].completed
    ensures LatestCompleted(payments) == Some(payments[|payments| - 1])
  {
    var rest, last := payments[..|payments| - 1], payments[|payments| - 1];
    WellSequencedPrefix(payments);
    OpenCycleIsLast(rest);
    LatestCompletedIsCompleted(rest);
    if rest != [] {
      assert Follows(payments[|payments| - 2], last);
    }
  }

  lemma {:induction false} AttemptsBelow(payments: seq<Payment>, p: Payment, q: Payment)
    requires WellSequenced(payments) && payments != [] && Follows(payments[|payments| - 1], p) && q in payments
    ensures Newer(p, q)
  {
    var rest, last := payments[..|payments| - 1], payments[|payments| - 1];
    if q == last {
    } else {
      WellSequencedPrefix(payments);
      assert q in rest by { assert payments == rest + [last]; }
      assert Follows(payments[|payments| - 2], last);
      AttemptsBelow(rest, last, q);
    }
  }

  /** The next attempt in sequence has an id of its own, so inserting it is never skipped. */
  lemma NextPaymentIsNew(payments: seq<Payment>, p: Payment)
    requires WellSequenced(payments) && (payments == [] ==> p.cycle == 1 && p.attempt == 1)
    requires payments != [] ==> Follows(payments[|payments| - 1], p)
    ensures InsertPayment(payments, p) == payments + [p] && WellSequenced(payments + [p])
  {
    forall q | q in payments ensures q.cycle != p.cycle || q.attempt != p.attempt {
      OpenCycleIsLast(payments);
      AttemptsBelow(payments, p, q);
    }
  }

  // ---------------------------------------------------------------------------------------
  // Every visit keeps the invariant
  // ---------------------------------------------------------------------------------------

  /** What a visit may change about an account. */
  ghost predicate Touched(a: Account, b: Account, now: int) {
    && b.contract.Id() == a.contract.Id() && b.contract.createdAt == a.contract.createdAt
    && a.payments <= b.payments
    && (b == a || (a.contract.updatedAt < now == b.contract.updatedAt))
    && (a.contract.status.Churned? ==> b == a)
  }

  lemma PlannedFollows(a: Account, now: int, outcome: Outcome, forced: bool)
    requires AccountOk(a) && (a.contract.status.Active? || a.contract.status.PaymentFailed?)
    ensures var p := PlannedPayment(a, now, outcome, forced);
      && InsertPayment(a.payments, p) == a.payments + [p] && WellSequenced(a.payments + [p])
      && p.cycle == OpenCycle(a.payments) && p.at == now
      && p.attempt == (if a.contract.status.Active? then 1 else a.payments[|a.payments| - 1].attempt + 1)
      && p.periodStart == CycleStart(a.contract.startedAt, p.cycle)
      && p.periodEnd == CycleStart(a.contract.startedAt, p.cycle + 1)
  {
    hide WellSequenced, ValidContract, CycleStart;
    var p := PlannedPayment(a, now, outcome, forced);
    if a.payments != [] {
      QueriesReadTheEnd(a.payments);
      assert PaymentOk(a.contract.startedAt, a.payments[|a.payments| - 1], a.contract.updatedAt);
    }
    NextPaymentIsNew(a.payments, p);
    CycleStartNext(a.contract.startedAt, p.cycle);
  }

  lemma PaymentsAppend(a: Account, p: Payment, now: int)
    requires AccountOk(a) && a.contract.updatedAt <= now && PaymentOk(a.contract.startedAt, p, now)
    ensures forall q :: q in a.payments + [p] ==> PaymentOk(a.contract.startedAt, q, now)
  {
    hide WellSequenced, ValidContract, ActiveOk, FailedOk, CycleStart;
    forall q | q in a.payments ensures PaymentOk(a.contract.startedAt, q, now) {
      assert PaymentOk(a.contract.startedAt, q, a.contract.updatedAt);
    }
  }

  lemma SpacedAppends(a: Account, p: Payment, now: int)
    requires AccountOk(a) && p.at == now && (RenewalDue(a.contract, now) || RetryDue(a.contract, now))
    ensures Spaced(a.payments + [p])
  {
    hide WellSequenced, ValidContract, PaymentOk, CycleStart;
    var more := a.payments + [p];
    forall i | 0 < i < |more| && !more[i - 1].completed ensures more[i].at >= more[i - 1].at + RETRY_INTERVAL {
      if i < |a.payments| {
        assert more[i] == a.payments[i];
      }
      assert more[i - 1] == a.payments[i - 1];
    }
  }

  /** A retry that still happens before the grace end is at most the fourth attempt. */
  lemma PlannedIsOk(a: Account, now: int, outcome: Outcome, forced: bool)
    requires AccountOk(a) && !Expired(a.contract, now)
    requires RenewalDue(a.contract, now) || RetryDue(a.contract, now)
    ensures PaymentOk(a.contract.startedAt, PlannedPayment(a, now, outcome, forced), now)
    ensures ValidPayment(PlannedPayment(a, now, outcome, forced))
  {
    hide WellSequenced, ValidContract, CycleStart, PlannedPayment;
    var p := PlannedPayment(a, now, outcome, forced);
    PlannedFollows(a, now, outcome, forced);
    CycleStartNext(a.contract.startedAt, p.cycle);
    OpenCycleIsLast(a.payments);
    if a.contract.status.PaymentFailed? {
      assert PaymentOk(a.contract.startedAt, a.payments[|a.payments| - 1], a.contract.updatedAt);
    }
  }

  lemma CycleStartMonotone(startedAt: int, i: int, k: int)
    requires i <= k
    ensures CycleStart(startedAt, i) <= CycleStart(startedAt, k)
  {
  }

  /** A renewal is never billed, or realigned, while a completed period covers the run date. */
  lemma RenewalIsUncovered(a: Account, now: int)
    requires AccountOk(a) && RenewalDue(a.contract, now)
    ensures forall p :: p in a.payments && p.completed ==> p.periodEnd <= now
    ensures LatestCompleted(a.payments).Some? ==> LatestCompleted(a.payments).value.periodEnd <= now
  {
    hide WellSequenced, ValidContract, CycleStart, LatestCompleted;
    OpenCycleIsLast(a.payments);
    LatestCompletedIsCompleted(a.payments);
    forall p | p in a.payments && p.completed ensures p.periodEnd <= now {
      assert PaymentOk(a.contract.startedAt, p, a.contract.updatedAt);
      CycleStartMonotone(a.contract.startedAt, p.cycle + 1, OpenCycle(a.payments));
    }
  }

  /** Nor is a failed cycle retried: its period began before the failed attempt, and none before it lasts longer. */
  lemma RetryIsUncovered(a: Account, now: int)
    requires AccountOk(a) && a.contract.status.PaymentFailed? && a.contract.updatedAt < now
    ensures forall p :: p in a.payments && p.completed ==> p.periodEnd <= now
  {
    hide WellSequenced, ValidContract, CycleStart;
    OpenCycleIsLast(a.payments);
    assert PaymentOk(a.contract.startedAt, a.payments[|a.payments| - 1], a.contract.updatedAt);
    forall p | p in a.payments && p.completed ensures p.periodEnd <= now {
      assert PaymentOk(a.contract.startedAt, p, a.contract.updatedAt);
      CycleStartMonotone(a.contract.startedAt, p.cycle + 1, OpenCycle(a.payments));
    }
  }

  lemma ExpireKeeps(a: Account, now: int)
    requires AccountOk(a) && a.contract.updatedAt < now && Expired(a.contract, now)
    ensures var r := Store(a, Transitioned(a.contract, Churned, now), [StatusRow(a.contract.person, Churned)], 0);
      && r.Some? && AccountOk(r.value.account) && Touched(a, r.value.account, now)
      && r.value == Visited(Account(Changed(a.contract, Churned, now), a.payments),
                            [StatusRow(a.contract.person, Churned)], 1, 0, 0)
  {
    hide WellSequenced, ActiveOk, FailedOk, CycleStart;
    forall p | p in a.payments ensures PaymentOk(a.contract.startedAt, p, now) {
      assert PaymentOk(a.contract.startedAt, p, a.contract.updatedAt);
    }
  }

  lemma CompletedKeeps(a: Account, p: Payment, now: int)
    requires AccountOk(a) && a.contract.updatedAt < now
    requires a.contract.status.Active? || a.contract.status.PaymentFailed?
    requires WellSequenced(a.payments + [p]) && Spaced(a.payments + [p]) && p.completed && p.at == now
    requires PaymentOk(a.contract.startedAt, p, now)
    ensures var c := Advanced(a.contract, p, now);
      && ValidContract(c) && AccountOk(Account(c, a.payments + [p])) && c.createdAt == a.contract.createdAt
  {
    hide WellSequenced, Spaced, FailedOk, CycleStart;
    PaymentsAppend(a, p, now);
    CycleStartNext(a.contract.startedAt, p.cycle);
  }

  lemma FirstFailureKeeps(a: Account, p: Payment, now: int)
    requires AccountOk(a) && a.contract.updatedAt < now && RenewalDue(a.contract, now)
    requires WellSequenced(a.payments + [p]) && Spaced(a.payments + [p])
    requires !p.completed && p.at == now && p.attempt == 1
    requires p.cycle == OpenCycle(a.payments) && PaymentOk(a.contract.startedAt, p, now)
    ensures var c := Changed(a.contract, PaymentFailed, now);
      Transitioned(a.contract, PaymentFailed, now) == Some(c) && AccountOk(Account(c, a.payments + [p]))
  {
    hide WellSequenced, Spaced, CycleStart;
    PaymentsAppend(a, p, now);
    CycleStartNext(a.contract.startedAt, OpenCycle(a.payments) - 1);
  }

  lemma RetryFailureKeeps(a: Account, p: Payment, now: int)
    requires AccountOk(a) && a.contract.updatedAt < now && RetryDue(a.contract, now) && !Expired(a.contract, now)
    requires WellSequenced(a.payments + [p]) && Spaced(a.payments + [p]) && !p.completed && p.at == now
    requires p.cycle == OpenCycle(a.payments) && p.attempt == a.payments[|a.payments| - 1].attempt + 1
    requires PaymentOk(a.contract.startedAt, p, now)
    ensures var c := Retried(a.contract, now);
      ValidContract(c) && AccountOk(Account(c, a.payments + [p])) && c.periodEnd == a.contract.periodEnd
  {
    hide WellSequenced, Spaced, CycleStart;
    PaymentsAppend(a, p, now);
    assert PaymentOk(a.contract.startedAt, a.payments[|a.payments| - 1], a.contract.updatedAt);
  }

  lemma TransitionedIsValid(c: Contract, target: Status, now: int)
    ensures Transitioned(c, target, now).Some? ==> ValidContract(Transitioned(c, target, now).value)
  {
  }

  lemma BillKeeps(a: Account, now: int, outcome: Outcome, forced: bool)
    requires AccountOk(a) && a.contract.updatedAt < now && !Expired(a.contract, now)
    requires RenewalDue(a.contract, now) || RetryDue(a.contract, now)
    ensures var r := Bill(a, now, outcome, forced);
      && r.Some? && AccountOk(r.value.account) && Touched(a, r.value.account, now)
      && r.value.account.payments == a.payments + [PlannedPayment(a, now, outcome, forced)]
      && r.value.updated == 1 && r.value.skipped == 0 && r.value.inserted == 1
      && forall row :: row in r.value.log ==> !row.RealignedRow?
  {
    hide AccountOk, ValidContract, PlannedPayment, InsertPayment, PaymentOk, ValidPayment, WellSequenced, Spaced,
         CycleStart;
    var p := PlannedPayment(a, now, outcome, forced);
    PlannedFollows(a, now, outcome, forced);
    PlannedIsOk(a, now, outcome, forced);
    SpacedAppends(a, p, now);
    if p.completed {
      CompletedKeeps(a, p, now);
    } else if a.contract.status.PaymentFailed? {
      RetryFailureKeeps(a, p, now);
    } else {
      FirstFailureKeeps(a, p, now);
      assert ValidContract(Changed(a.contract, PaymentFailed, now)) by {
        TransitionedIsValid(a.contract, PaymentFailed, now);
      }
    }
  }

  /**
   A visit never raises, keeps the account invariant, only appends payments, never reopens or
   bills an ended contract, and never takes the realignment branch.
   */
  lemma VisitKeeps(a: Account, now: int, outcome: Outcome, forced: bool)
    requires AccountOk(a)
    ensures var r := Visit(a, now, outcome, forced);
      && r.Some? && AccountOk(r.value.account) && Touched(a, r.value.account, now)
      && r.value.skipped == 0
      && forall row :: row in r.value.log ==> !row.RealignedRow?
  {
    hide AccountOk, Transitioned, Bill, LatestCompleted;
    var c := a.contract;
    if c.updatedAt < now {
      if Expired(c, now) {
        ExpireKeeps(a, now);
      } else if RenewalDue(c, now) {
        RenewalIsUncovered(a, now);
        BillKeeps(a, now, outcome, forced);
      } else if RetryDue(c, now) {
        BillKeeps(a, now, outcome, false);
      }
    }
  }

  /**
   No contract is billed while a completed period covers the run date: whenever a visit adds a
   payment, for a renewal or for a retry, every completed period has ended.
   */
  lemma BilledIsUncovered(a: Account, now: int, outcome: Outcome, forced: bool, p: Payment)
    requires AccountOk(a) && p in a.payments && p.completed
    requires Visit(a, now, outcome, forced).Some?
    requires Visit(a, now, outcome, forced).value.account.payments != a.payments
    ensures p.periodEnd <= now
  {
    hide AccountOk, Bill, Transitioned, LatestCompleted, ValidContract;
    if RenewalDue(a.contract, now) {
      RenewalIsUncovered(a, now);
    } else {
      RetryIsUncovered(a, now);
    }
  }

  // ---------------------------------------------------------------------------------------
  // What a visit does, told on the fields of the account
  // ---------------------------------------------------------------------------------------

  /** Counted back from the last payment by its attempt number stands the only first attempt of its cycle. */
  lemma {:induction false} FirstAttemptStands(payments: seq<Payment>)
    requires WellSequenced(payments) && payments != []
    ensures var last := payments[|payments| - 1];
      && 1 <= last.attempt <= |payments|
      && var first := |payments| - last.attempt;
      && payments[first].cycle == last.cycle && payments[first].attempt == 1
      && forall i :: 0 <= i < |payments| && payments[i].cycle == last.cycle && payments[i].attempt == 1 ==> i == first
  {
    var n := |payments| - 1;
    if n == 0 {
    } else {
      WellSequencedPrefix(payments);
      FirstAttemptStands(payments[..n]);
      OpenCycleIsLast(payments[..n]);
      assert Follows(payments[n - 1], payments[n]);
      forall i | 0 <= i <= n && payments[i].cycle == payments[n].cycle && payments[i].attempt == 1
        ensures i == n + 1 - payments[n].attempt
      {
        if i < n {
          assert payments[..n][i] == payments[i] && payments[i] in payments[..n];
        }
      }
    }
  }

  /** After a completed payment the contract is ACTIVE for exactly that payment's period. */
  ghost predicate IsPaidUp(c: Contract, d: Contract, p: Payment, now: int) {
    && d.status == Active && d.autoRenew
    && d.periodStart == Some(p.periodStart) && d.periodEnd == Some(p.periodEnd)
    && d.due == Some(p.periodEnd) && d.nextAttempt == Some(p.periodEnd)
    && d.failedAt.None? && d.cancelRequestedAt.None? && d.endedAt.None?
    && d.statusChangedAt == (if c.status == Active then c.statusChangedAt else now)
  }

  /** The grace end of a failed payment: seven days after the first attempt of its cycle. */
  ghost predicate IsGraceEnd(payments: seq<Payment>, p: Payment, end: int) {
    && (exists i :: 0 <= i < |payments| && payments[i].cycle == p.cycle && payments[i].attempt == 1)
    && (forall i :: 0 <= i < |payments| && payments[i].cycle == p.cycle && payments[i].attempt == 1 ==>
          end == payments[i].at + GRACE_PERIOD)
  }

  /** After a failed payment the contract is PAYMENT_FAILED and is retried two days later. */
  ghost predicate IsInGrace(c: Contract, d: Contract, payments: seq<Payment>, p: Payment, now: int) {
    && d.status == PaymentFailed && d.autoRenew == c.autoRenew
    && d.periodEnd.Some? && IsGraceEnd(payments, p, d.periodEnd.value)
    && d.periodStart == c.periodStart && d.due == Some(p.periodStart)
    && d.nextAttempt == Some(now + RETRY_INTERVAL) && d.failedAt == Some(now) && d.endedAt == c.endedAt
    && d.cancelRequestedAt == (if c.status == Active then None else c.cancelRequestedAt)
    && d.statusChangedAt == (if c.status == Active then now else c.statusChangedAt)
  }

  /** A renewal opens the next cycle; a retry is the next attempt of the failed one. */
  ghost predicate IsNextAttempt(a: Account, p: Payment) {
    if a.contract.status == PaymentFailed then
      && a.payments != []
      && p.cycle == a.payments[|a.payments| - 1].cycle && p.attempt == a.payments[|a.payments| - 1].attempt + 1
    else
      p.cycle == (if a.payments == [] then 1 else a.payments[|a.payments| - 1].cycle + 1) && p.attempt == 1
  }

  /** What the log says of a payment: its row, and the status when it changed. */
  ghost predicate IsLogged(c: Contract, p: Payment, log: seq<LogRow>) {
    && 1 <= |log| <= 2
    && log[0] == PaymentRow(c.person, ContractId(c.person, c.startedAt), p.cycle, p.attempt, p.completed)
    && (|log| == 2 <==> (p.completed <==> c.status == PaymentFailed))
    && (|log| == 2 ==> log[1] == StatusRow(c.person, if p.completed then Active else PaymentFailed))
  }

  /** One payment is appended, completed if and only if its attempt succeeds, and the contract follows it. */
  ghost predicate IsBilled(a: Account, v: Visited, now: int, outcome: Outcome, forced: bool) {
    var c, d := a.contract, v.account.contract;
    && |v.account.payments| == |a.payments| + 1 && v.account.payments[..|a.payments|] == a.payments
    && var p := v.account.payments[|a.payments|];
    && IsNextAttempt(a, p) && p.at == now
    && p.periodStart == c.startedAt + p.cycle * SUBSCRIPTION_PERIOD
    && p.periodEnd == p.periodStart + SUBSCRIPTION_PERIOD
    && (p.completed <==> outcome(ContractId(c.person, c.startedAt), p.cycle, p.attempt) && !forced)
    && d.person == c.person && d.startedAt == c.startedAt && d.createdAt == c.createdAt && d.updatedAt == now
    && (p.completed ==> IsPaidUp(c, d, p, now))
    && (!p.completed ==> IsInGrace(c, d, v.account.payments, p, now))
    && IsLogged(c, p, v.log) && v.inserted == 1 && v.updated == 1 && v.skipped == 0
  }

  /** The contract is CHURNED now, for good, with its period and payments as they were. */
  ghost predicate IsEnded(a: Account, v: Visited, now: int) {
    var c, d := a.contract, v.account.contract;
    && v.account.payments == a.payments
    && d.status == Churned && !d.autoRenew && d.due.None? && d.nextAttempt.None? && d.endedAt == Some(now)
    && d.statusChangedAt == now && d.updatedAt == now
    && d.person == c.person && d.startedAt == c.startedAt && d.createdAt == c.createdAt
    && d.periodStart == c.periodStart && d.periodEnd == c.periodEnd
    && d.failedAt == c.failedAt && d.cancelRequestedAt == c.cancelRequestedAt
    && v.log == [StatusRow(c.person, Churned)] && v.inserted == 0 && v.updated == 1 && v.skipped == 0
  }

  /** A renewal that has come due, or a retry that has come due before the grace end. */
  ghost predicate IsBillable(c: Contract, now: int) {
    && c.updatedAt < now && c.nextAttempt.Some? && c.nextAttempt.value <= now
    && (c.status == Active || (c.status == PaymentFailed && c.periodEnd.Some? && now < c.periodEnd.value))
  }

  /** A cancelled or failed contract whose period or grace has ended. */
  ghost predicate IsEndable(c: Contract, now: int) {
    && c.updatedAt < now && c.periodEnd.Some? && c.periodEnd.value <= now
    && (c.status == CancelRequested || c.status == PaymentFailed)
  }

  lemma GraceEndStands(a: Account, p: Payment, end: int)
    requires WellSequenced(a.payments + [p]) && 1 <= p.attempt <= |a.payments| + 1
    requires end == (a.payments + [p])[|a.payments| + 1 - p.attempt].at + GRACE_PERIOD
    ensures IsGraceEnd(a.payments + [p], p, end)
  {
    hide WellSequenced;
    FirstAttemptStands(a.payments + [p]);
  }

  lemma BillableIsDue(a: Account, now: int)
    requires AccountOk(a) && IsBillable(a.contract, now)
    ensures !Expired(a.contract, now)
    ensures if a.contract.status == Active then RenewalDue(a.contract, now) else RetryDue(a.contract, now)
  {
    hide WellSequenced, Spaced, PaymentOk, CycleStart;
  }

  /** Where the grace end of a failed payment stands, whether it is the first of its cycle or a retry. */
  lemma FailureKeepsGrace(a: Account, p: Payment, now: int, d: Contract)
    requires AccountOk(a) && IsBillable(a.contract, now) && WellSequenced(a.payments + [p]) && p.at == now
    requires p.attempt == (if a.contract.status == Active then 1 else a.payments[|a.payments| - 1].attempt + 1)
    requires d == if a.contract.status == Active then Changed(a.contract, PaymentFailed, now)
                  else Retried(a.contract, now)
    requires p.periodStart == CycleStart(a.contract.startedAt, OpenCycle(a.payments))
    ensures IsInGrace(a.contract, d, a.payments + [p], p, now)
  {
    hide WellSequenced, Spaced, CycleStart, IsGraceEnd;
    GraceEndStands(a, p, d.periodEnd.value);
    if a.contract.status == PaymentFailed {
      assert PaymentOk(a.contract.startedAt, a.payments[|a.payments| - 1], a.contract.updatedAt);
    }
  }

  /** The result of an attempt decides the payment, the contract, the log and the counts. */
  lemma BillFollowsOutcome(a: Account, now: int, outcome: Outcome, forced: bool)
    requires AccountOk(a) && IsBillable(a.contract, now)
    ensures Bill(a, now, outcome, forced).Some?
    ensures IsBilled(a, Bill(a, now, outcome, forced).value, now, outcome, forced)
  {
    hide WellSequenced, Spaced, PaymentOk, InsertPayment, IsInGrace, MaxCycle, MaxAttempt;
    var p := PlannedPayment(a, now, outcome, forced);
    BillableIsDue(a, now);
    PlannedFollows(a, now, outcome, forced);
    BillKeeps(a, now, outcome, forced);
    if !p.completed {
      FailureKeepsGrace(a, p, now, Bill(a, now, outcome, forced).value.account.contract);
    }
  }

  /**
   Exactly a contract that is due is billed, exactly an expired one ended, and any other left
   alone; only a renewal can be forced to fail.
   */
  lemma VisitFollowsTheFields(a: Account, now: int, outcome: Outcome, forced: bool)
    requires AccountOk(a)
    ensures var r := Visit(a, now, outcome, forced);
      && r.Some?
      && (IsBillable(a.contract, now) ==>
            IsBilled(a, r.value, now, outcome, forced && a.contract.status == Active))
      && (IsEndable(a.contract, now) ==> IsEnded(a, r.value, now))
      && (!IsBillable(a.contract, now) && !IsEndable(a.contract, now) ==> r.value == Visited(a, [], 0, 0, 0))
  {
    hide Bill, Transitioned, LatestCompleted, IsBilled, WellSequenced, Spaced, PaymentOk, CycleStart;
    var c := a.contract;
    if IsBillable(c, now) {
      BillFollowsOutcome(a, now, outcome, forced && c.status == Active);
      if c.status == Active {
        RenewalIsUncovered(a, now);
      }
    } else if IsEndable(c, now) {
      ExpireKeeps(a, now);
    }
  }

  /** A row is refused if it is not a contract record, or differs and does not move its time forward. */
  lemma StoreOnlyMovesForward(a: Account, record: Contract, log: seq<LogRow>, inserted: nat)
    requires ValidContract(record)
    ensures var r := Store(a, Some(record), log, inserted);
      var forward := record.createdAt == a.contract.createdAt && a.contract.updatedAt < record.updatedAt;
      && (r.Some? <==> record == a.contract || forward)
      && (r.Some? ==>
            var d := r.value.account.contract;
            && r.value.account.payments == a.payments && r.value.log == log && r.value.inserted == inserted
            && d.person == a.contract.person && d.startedAt == a.contract.startedAt
            && d.createdAt == a.contract.createdAt
            && d == record.(person := d.person, startedAt := d.startedAt)
            && r.value.skipped == (if record == a.contract then 1 else 0)
            && r.value.updated == (if record == a.contract then 0 else 1))
  {
    hide ValidContract;
  }

  /** Which transitions the planner makes of a sound contract; it raises for every other. */
  lemma PlannerAccepts(a: Account, target: Status, now: int)
    requires AccountOk(a)
    ensures var c := a.contract;
      && (Transitioned(c, Active, now).Some? <==> c.updatedAt < now && c.status != Churned)
      && (Transitioned(c, PaymentFailed, now).Some? <==> c.updatedAt < now && c.status == Active)
      && (Transitioned(c, CancelRequested, now).Some? <==>
            c.updatedAt < now && (c.status == Active || c.status == PaymentFailed))
      && (Transitioned(c, Churned, now).Some? <==> IsEndable(c, now))
  {
    hide WellSequenced, Spaced;
    var c := a.contract;
    if c.status == Active && a.payments != [] {
      assert PaymentOk(c.startedAt, a.payments[|a.payments| - 1], c.updatedAt);
    }
  }

  /** The contract is CANCEL_REQUESTED now, with its period as it was and no payment planned. */
  ghost predicate IsCancelled(c: Contract, d: Contract, now: int) {
    && d.status == CancelRequested && !d.autoRenew && d.nextAttempt.None? && d.cancelRequestedAt == Some(now)
    && d.statusChangedAt == now && d.updatedAt == now
    && d.person == c.person && d.startedAt == c.startedAt && d.createdAt == c.createdAt
    && d.periodStart == c.periodStart && d.periodEnd == c.periodEnd && d.due == c.due
    && d.failedAt == c.failedAt && d.endedAt == c.endedAt
  }

  /** A cancelled contract keeps its period and is never billed again. */
  lemma CancellationFollowsTheFields(c: Contract, now: int)
    requires Transitioned(c, CancelRequested, now).Some?
    ensures var d := Transitioned(c, CancelRequested, now).value;
      IsCancelled(c, d, now) && forall later :: !IsBillable(d, later)
  {
    hide ValidContract;
  }

  // ---------------------------------------------------------------------------------------
  // The shape of every history
  // ---------------------------------------------------------------------------------------

  function CycleCount(payments: seq<Payment>, cycle: int): nat {
    if payments == [] then 0 else
      CycleCount(payments[..|payments| - 1], cycle) + if payments[|payments| - 1].cycle == cycle then 1 else 0
  }

  lemma {:induction false} NothingBeyond(payments: seq<Payment>, cycle: int)
    requires forall p :: p in payments ==> p.cycle < cycle
    ensures CycleCount(payments, cycle) == 0
  {
    if payments == [] {
    } else {
      NothingBeyond(payments[..|payments| - 1], cycle);
      assert payments[|payments| - 1] in payments;
    }
  }

  /** The attempts of a cycle are as many as its highest attempt number. */
  lemma {:induction false} AttemptsAreCounted(payments: seq<Payment>, cycle: int)
    requires WellSequenced(payments)
    ensures CycleCount(payments, cycle) == MaxAttempt(payments, cycle)
    decreases |payments|
  {
    if payments == [] {
    } else {
      var rest, last := payments[..|payments| - 1], payments[|payments| - 1];
      WellSequencedPrefix(payments);
      AttemptsAreCounted(rest, cycle);
      QueriesReadTheEnd(payments);
      if rest != [] && last.cycle == cycle {
        assert Follows(rest[|rest| - 1], last);
        QueriesReadTheEnd(rest);
        OpenCycleIsLast(rest);
        if rest[|rest| - 1].completed {
          NothingBeyond(rest, cycle);
        }
      }
    }
  }

  lemma {:induction false} MaxAttemptBounded(payments: seq<Payment>, cycle: int, bound: nat)
    requires forall p :: p in payments ==> p.attempt <= bound
    ensures MaxAttempt(payments, cycle) <= bound
  {
    if payments == [] {
    } else {
      MaxAttemptBounded(payments[..|payments| - 1], cycle, bound);
      assert payments[|payments| - 1] in payments;
    }
  }

  /** A cycle is attempted at most four times. */
  lemma AtMostFourAttempts(a: Account, cycle: int)
    requires AccountOk(a)
    ensures CycleCount(a.payments, cycle) <= 4
  {
    hide WellSequenced, ValidContract, CycleCount, MaxAttempt;
    AttemptsAreCounted(a.payments, cycle);
    forall p | p in a.payments ensures p.attempt <= 4 {
      assert PaymentOk(a.contract.startedAt, p, a.contract.updatedAt);
    }
    MaxAttemptBounded(a.payments, cycle, 4);
  }

  /** Cycles are numbered without gaps. */
  lemma {:induction false} CyclesHaveNoGaps(payments: seq<Payment>, cycle: int)
    requires WellSequenced(payments) && 1 <= cycle <= MaxCycle(payments)
    ensures exists i :: 0 <= i < |payments| && payments[i].cycle == cycle
    decreases |payments|
  {
    QueriesReadTheEnd(payments);
    var n := |payments| - 1;
    if payments[n].cycle == cycle {
    } else {
      WellSequencedPrefix(payments);
      assert n > 0 && Follows(payments[n - 1], payments[n]);
      QueriesReadTheEnd(payments[..n]);
      CyclesHaveNoGaps(payments[..n], cycle);
      var i :| 0 <= i < n && payments[..n][i].cycle == cycle;
      assert payments[i].cycle == cycle;
    }
  }

  /** Position `i` holds the last attempt of its cycle and the only completed one. */
  ghost predicate EndsItsCycle(payments: seq<Payment>, i: int) {
    && 0 <= i < |payments| && payments[i].completed
    && forall k :: 0 <= k < |payments| && payments[k].cycle == payments[i].cycle ==>
         k <= i && (payments[k].completed ==> k == i)
  }

  /** Every cycle before the last one ends in exactly one completed attempt, its last. */
  lemma {:induction false} EarlierCyclesEndOnce(payments: seq<Payment>, cycle: int)
    requires WellSequenced(payments) && 1 <= cycle < OpenCycle(payments)
    ensures exists i :: EndsItsCycle(payments, i) && payments[i].cycle == cycle
    decreases |payments|
  {
    var n := |payments| - 1;
    var rest := payments[..n];
    WellSequencedPrefix(payments);
    OpenCycleIsLast(rest);
    if rest != [] {
      assert Follows(payments[n - 1], payments[n]);
    }
    if payments[n].completed && payments[n].cycle == cycle {
      forall k | 0 <= k < n && payments[k].cycle == cycle ensures !payments[k].completed {
        assert rest[k] in rest;
      }
      assert EndsItsCycle(payments, n);
    } else {
      EarlierCyclesEndOnce(rest, cycle);
      var i :| EndsItsCycle(rest, i) && rest[i].cycle == cycle;
      forall k | 0 <= k < |payments| && payments[k].cycle == cycle
        ensures k <= i && (payments[k].completed ==> k == i)
      {
        if k < n {
          assert rest[k] == payments[k];
        }
      }
      assert EndsItsCycle(payments, i);
    }
  }

  function Completed(payments: seq<Payment>): seq<Payment> {
    if payments == [] then [] else
      Completed(payments[..|payments| - 1])
        + (if payments[|payments| - 1].completed then [payments[|payments| - 1]] else [])
  }

  lemma {:induction false} CompletedCycles(payments: seq<Payment>)
    requires WellSequenced(payments)
    ensures |Completed(payments)| == OpenCycle(payments) - 1
    ensures forall i :: 0 <= i < |Completed(payments)| ==> Completed(payments)[i].cycle == i + 1
    ensures forall p :: p in Completed(payments) ==> p in payments && p.completed
  {
    if payments == [] {
    } else {
      var n := |payments| - 1;
      WellSequencedPrefix(payments);
      CompletedCycles(payments[..n]);
      if n > 0 {
        assert Follows(payments[n - 1], payments[n]);
      }
    }
  }

  /**
   Completed periods tile time: the i-th one is `[start + i periods, start + (i + 1) periods)`
   with start one period after the contract's own, each beginning where the one before ends.
   */
  lemma CompletedPeriodsTile(a: Account)
    requires AccountOk(a)
    ensures var done := Completed(a.payments);
      && (forall i :: 0 <= i < |done| ==>
            && done[i].periodStart == a.contract.startedAt + (i + 1) * SUBSCRIPTION_PERIOD
            && done[i].periodEnd == a.contract.startedAt + (i + 2) * SUBSCRIPTION_PERIOD)
      && (forall i :: 0 < i < |done| ==> done[i].periodStart == done[i - 1].periodEnd)
  {
    hide WellSequenced, ValidContract, Completed;
    var done := Completed(a.payments);
    CompletedCycles(a.payments);
    forall i | 0 <= i < |done|
      ensures done[i].periodStart == a.contract.startedAt + (i + 1) * SUBSCRIPTION_PERIOD
      ensures done[i].periodEnd == a.contract.startedAt + (i + 2) * SUBSCRIPTION_PERIOD
    {
      assert done[i] in a.payments && done[i].cycle == i + 1;
      assert PaymentOk(a.contract.startedAt, done[i], a.contract.updatedAt);
    }
  }

  /** Closed form and retry bound: cycle n covers start + n periods and has at most four attempts. */
  lemma BillingClosedForm(a: Account, p: Payment)
    requires AccountOk(a) && p in a.payments
    ensures p.periodStart == a.contract.startedAt + p.cycle * SUBSCRIPTION_PERIOD
    ensures p.periodEnd == p.periodStart + SUBSCRIPTION_PERIOD
    ensures p.cycle >= 1 && 1 <= p.attempt <= 4 && p.periodStart <= p.at
  {
    hide WellSequenced, ValidContract;
    assert PaymentOk(a.contract.startedAt, p, a.contract.updatedAt);
  }

  /** Within a cycle the attempts are numbered from one and two days or more apart. */
  lemma RetriesAreSpaced(a: Account, i: nat)
    requires AccountOk(a) && 0 < i < |a.payments| && a.payments[i].cycle == a.payments[i - 1].cycle
    ensures a.payments[i].attempt == a.payments[i - 1].attempt + 1
    ensures a.payments[i].at >= a.payments[i - 1].at + RETRY_INTERVAL
  {
    hide ValidContract, PaymentOk;
    assert Follows(a.payments[i - 1], a.payments[i]);
  }

  /** An ACTIVE contract is paid up to its period end, which is when it is billed next. */
  lemma ActiveContractShape(a: Account)
    requires AccountOk(a) && a.contract.status.Active?
    ensures var c := a.contract;
      && c.periodStart.Some? && c.periodEnd == Some(c.periodStart.value + SUBSCRIPTION_PERIOD)
      && c.due == c.periodEnd == c.nextAttempt && c.autoRenew
      && c.periodStart.value == c.startedAt + |Completed(a.payments)| * SUBSCRIPTION_PERIOD
  {
    hide WellSequenced, Completed;
    CompletedCycles(a.payments);
  }

  // ---------------------------------------------------------------------------------------
  // Scanning twice, and scanning what is not due
  // ---------------------------------------------------------------------------------------

  /** The SQL filter that narrows the scan. */
  predicate IsDue(c: Contract, now: int) {
    c.updatedAt < now && (Expired(c, now) || RenewalDue(c, now) || RetryDue(c, now))
  }

  lemma NotDueIsUntouched(a: Account, now: int, outcome: Outcome, forced: bool)
    requires !IsDue(a.contract, now)
    ensures Visit(a, now, outcome, forced) == Some(Visited(a, [], 0, 0, 0))
  {
  }

  lemma BillTouches(a: Account, now: int, outcome: Outcome, forced: bool)
    requires Bill(a, now, outcome, forced).Some? && a.contract.updatedAt < now
    ensures Bill(a, now, outcome, forced).value.account.contract.updatedAt == now
  {
    hide PlannedPayment, ValidContract, ValidPayment, InsertPayment;
  }

  lemma DueIsTouched(a: Account, now: int, outcome: Outcome, forced: bool)
    requires AccountOk(a) && IsDue(a.contract, now)
    ensures var b := Visit(a, now, outcome, forced); b.Some? && b.value.account.contract.updatedAt == now
  {
    hide AccountOk, Transitioned, Bill, LatestCompleted, Touched;
    var c := a.contract;
    if Expired(c, now) {
      ExpireKeeps(a, now);
    } else if RenewalDue(c, now) {
      RenewalIsUncovered(a, now);
      BillKeeps(a, now, outcome, forced);
      BillTouches(a, now, outcome, forced);
    } else {
      BillKeeps(a, now, outcome, false);
      BillTouches(a, now, outcome, false);
    }
  }

  /** A second visit at the same date changes nothing. */
  lemma SecondVisitIsNoOp(a: Account, now: int, outcome: Outcome, forced: bool, again: Outcome, forcedAgain: bool)
    requires AccountOk(a)
    ensures var b := Visit(a, now, outcome, forced);
      b.Some? && Visit(b.value.account, now, again, forcedAgain) == Some(Visited(b.value.account, [], 0, 0, 0))
  {
    hide AccountOk, Bill, Transitioned, LatestCompleted;
    VisitKeeps(a, now, outcome, forced);
    if !IsDue(a.contract, now) {
      NotDueIsUntouched(a, now, outcome, forced);
      NotDueIsUntouched(a, now, again, forcedAgain);
    } else {
      DueIsTouched(a, now, outcome, forced);
    }
  }

  lemma BilledIsNotExpired(a: Account, now: int, outcome: Outcome, forced: bool)
    requires !Expired(a.contract, now) && Bill(a, now, outcome, forced).Some? && a.contract.updatedAt < now
    requires a.contract.status.Active? || a.contract.status.PaymentFailed?
    ensures !Expired(Bill(a, now, outcome, forced).value.account.contract, now)
  {
    hide PlannedPayment, ValidContract, ValidPayment, InsertPayment;
  }

  /** After a visit no failed or cancel-requested contract has reached its period end. */
  lemma VisitedIsNotExpired(a: Account, now: int, outcome: Outcome, forced: bool)
    requires AccountOk(a) && a.contract.updatedAt < now
    ensures var b := Visit(a, now, outcome, forced); b.Some? && !Expired(b.value.account.contract, now)
  {
    hide AccountOk, Transitioned, Bill, LatestCompleted;
    var c := a.contract;
    if Expired(c, now) {
      ExpireKeeps(a, now);
    } else if RenewalDue(c, now) {
      RenewalIsUncovered(a, now);
      BillKeeps(a, now, outcome, forced);
      BilledIsNotExpired(a, now, outcome, forced);
    } else if RetryDue(c, now) {
      BillKeeps(a, now, outcome, false);
      BilledIsNotExpired(a, now, outcome, false);
    }
  }

  // ---------------------------------------------------------------------------------------
  // The retry bound is reached
  // ---------------------------------------------------------------------------------------

  /** Renewal and retries on days 30, 32, 34 and 36, all failing, and the end of grace on day 37. */
  function AllFail(): Outcome {
    (id: ContractId, cycle: int, attempt: int) => false
  }

  function VisitOr(a: Account, now: int): Account {
    match Visit(a, now, AllFail(), false)
    case Some(v) => v.account
    case None => a
  }

  lemma NewContractIsOk(person: string, now: int)
    requires 1 <= |person| <= 64
    ensures NewContract(person, now).Some? && AccountOk(Account(NewContract(person, now).value, []))
  {
    CycleStartNext(now, 0);
  }

  lemma FailedRenewal(a: Account, now: int)
    requires AccountOk(a) && a.contract.updatedAt < now && RenewalDue(a.contract, now)
    ensures var b := VisitOr(a, now);
      && AccountOk(b) && b.contract == Changed(a.contract, PaymentFailed, now)
      && |b.payments| == |a.payments| + 1
      && b.payments[|a.payments|].attempt == 1 && b.payments[|a.payments|].cycle == OpenCycle(a.payments)
  {
    hide AccountOk, ValidContract, LatestCompleted, InsertPayment, ValidPayment, MaxCycle, MaxAttempt;
    VisitKeeps(a, now, AllFail(), false);
    RenewalIsUncovered(a, now);
    BillKeeps(a, now, AllFail(), false);
    PlannedFollows(a, now, AllFail(), false);
  }

  lemma FailedRetry(a: Account, now: int)
    requires AccountOk(a) && a.contract.updatedAt < now && RetryDue(a.contract, now) && !Expired(a.contract, now)
    ensures var b := VisitOr(a, now);
      && AccountOk(b) && b.contract == Retried(a.contract, now) && a.payments != []
      && |b.payments| == |a.payments| + 1 && b.payments[|a.payments|].cycle == OpenCycle(a.payments)
      && OpenCycle(b.payments) == OpenCycle(a.payments)
      && b.payments[|a.payments|].attempt == a.payments[|a.payments| - 1].attempt + 1
  {
    assert FailedOk(a.contract, a.payments);
    hide AccountOk, ValidContract, LatestCompleted, InsertPayment, ValidPayment, MaxCycle, MaxAttempt, FailedOk;
    VisitKeeps(a, now, AllFail(), false);
    BillKeeps(a, now, AllFail(), false);
    PlannedFollows(a, now, AllFail(), false);
  }

  lemma FailedLast(a: Account)
    requires AccountOk(a) && a.contract.status.PaymentFailed?
    ensures a.payments != [] && OpenCycle(a.payments) == a.payments[|a.payments| - 1].cycle
  {
    hide WellSequenced, ValidContract, PaymentOk;
  }

  lemma ExpiredVisit(a: Account, now: int)
    requires AccountOk(a) && a.contract.updatedAt < now && Expired(a.contract, now)
    ensures VisitOr(a, now) == Account(Changed(a.contract, Churned, now), a.payments)
  {
    hide AccountOk, ValidContract, Transitioned, Store;
    ExpireKeeps(a, now);
  }

  /** The bound is reached: a cycle can really take four attempts before its contract ends. */
  lemma FourAttemptsHappen(person: string)
    requires 1 <= |person| <= 64
    ensures var a0 := Account(NewContract(person, 0).value, []);
      var a4 := VisitOr(VisitOr(VisitOr(VisitOr(a0, 30 * DAY), 32 * DAY), 34 * DAY), 36 * DAY);
      && |a4.payments| == 4 && a4.payments[3].cycle == 1 && a4.payments[3].attempt == 4
      && a4.contract.status.PaymentFailed?
      && VisitOr(a4, 37 * DAY).contract.status.Churned? && VisitOr(a4, 37 * DAY).payments == a4.payments
  {
    hide AccountOk, Visit, VisitOr, ValidContract;
    NewContractIsOk(person, 0);
    var a0 := Account(NewContract(person, 0).value, []);
    FailedRenewal(a0, 30 * DAY);
    var a1 := VisitOr(a0, 30 * DAY);
    assert OpenCycle(a1.payments) == 1 by { FailedLast(a1); }
    FailedRetry(a1, 32 * DAY);
    var a2 := VisitOr(a1, 32 * DAY);
    FailedRetry(a2, 34 * DAY);
    var a3 := VisitOr(a2, 34 * DAY);
    FailedRetry(a3, 36 * DAY);
    ExpiredVisit(VisitOr(a3, 36 * DAY), 37 * DAY);
  }

  // ---------------------------------------------------------------------------------------
  // A retry that recovers its contract
  // ---------------------------------------------------------------------------------------

  /** The first attempt of a cycle fails and its retry succeeds. */
  function SecondSucceeds(): Outcome {
    (id: ContractId, cycle: int, attempt: int) => attempt == 2
  }

  /**
   A failed renewal is recovered: billed on day 30 in vain and on day 32 with success, the contract
   is ACTIVE again for the period from day 30 to day 60.
   */
  lemma RetryRecovers(person: string)
    requires 1 <= |person| <= 64
    ensures var a0 := Account(NewContract(person, 0).value, []);
      var first := Visit(a0, 30 * DAY, SecondSucceeds(), false);
      && first.Some? && first.value.account.contract.status == PaymentFailed
      && first.value.account.contract.periodEnd == Some(37 * DAY)
      && var second := Visit(first.value.account, 32 * DAY, SecondSucceeds(), false);
      && second.Some? && second.value.account.contract.status == Active
      && second.value.account.contract.periodStart == Some(30 * DAY)
      && second.value.account.contract.periodEnd == Some(60 * DAY)
      && second.value.account.contract.nextAttempt == Some(60 * DAY)
      && second.value.account.payments
           == [Payment(1, 1, false, 30 * DAY, 30 * DAY, 60 * DAY), Payment(1, 2, true, 32 * DAY, 30 * DAY, 60 * DAY)]
      && second.value.log
           == [PaymentRow(person, ContractId(person, 0), 1, 2, true), StatusRow(person, Active)]
  {
    hide AccountOk, Visit, ValidContract, WellSequenced;
    NewContractIsOk(person, 0);
    var a0 := Account(NewContract(person, 0).value, []);
    VisitFollowsTheFields(a0, 30 * DAY, SecondSucceeds(), false);
    VisitKeeps(a0, 30 * DAY, SecondSucceeds(), false);
    var a1 := Visit(a0, 30 * DAY, SecondSucceeds(), false).value.account;
    assert a1.payments == [Payment(1, 1, false, 30 * DAY, 30 * DAY, 60 * DAY)];
    VisitFollowsTheFields(a1, 32 * DAY, SecondSucceeds(), false);
  }
}
