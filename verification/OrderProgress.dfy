/**
 Progress of one generated order and its payments.

 Delays are drawn per order and stage, divided by a time scale that may differ from run to
 run, and rounded to whole microseconds with ties to even.  The draws are an arbitrary
 function of seed, order and stage; instants are microseconds.
 */
module OrderProgress {

  const MINUTE := 60_000_000
  const HOUR := 3_600_000_000
  const DAY := 86_400_000_000

  datatype Option<+T> = None | Some(value: T)

  // ---------------------------------------------------------------------------------------
  // Division of a duration
  // ---------------------------------------------------------------------------------------

  /** Quotient of a duration and a whole number, rounded to the nearest integer, ties to even. */
  function DivideHalfEven(a: nat, b: nat): nat
    requires b > 0
  {
    var q, r := a / b, a % b;
    if 2 * r > b || (2 * r == b && q % 2 == 1) then q + 1 else q
  }

  /** The nearest multiple, and the even one when two are equally near. */
  predicate IsNearestEven(a: nat, b: nat, q: nat) {
    && 2 * (q * b - a) <= b && 2 * (a - q * b) <= b
    && (2 * (q * b - a) == b || 2 * (a - q * b) == b ==> q % 2 == 0)
  }

  lemma DivisionFacts(a: nat, b: nat)
    requires b > 0
    ensures a == (a / b) * b + a % b && 0 <= a % b < b
    ensures (a / b + 1) * b == (a / b) * b + b
  {
  }

  lemma TwoNearest(b: nat, p: nat, q: nat)
    requires p + 1 < q
    ensures p * b + 2 * b <= q * b
  {
    assert (q - p - 2) * b >= 0;
  }

  lemma NearestIsUnique(a: nat, b: nat, p: nat, q: nat)
    requires b > 0 && IsNearestEven(a, b, p) && IsNearestEven(a, b, q)
    ensures p == q
  {
    assert (p + 1) * b == p * b + b && (q + 1) * b == q * b + b;
    if p + 1 < q {
      TwoNearest(b, p, q);
    } else if q + 1 < p {
      TwoNearest(b, q, p);
    }
  }

  /** The rounded quotient is the one integer with the rounding property. */
  lemma DivideHalfEvenIsNearest(a: nat, b: nat, q: nat)
    requires b > 0
    ensures q == DivideHalfEven(a, b) <==> IsNearestEven(a, b, q)
  {
    var d := DivideHalfEven(a, b);
    DivisionFacts(a, b);
    assert IsNearestEven(a, b, d);
    if IsNearestEven(a, b, q) && q != d {
      NearestIsUnique(a, b, q, d);
    }
  }

  /** A scaled delay vanishes exactly when twice the delay does not exceed the scale. */
  lemma VanishesIff(a: nat, b: nat)
    requires b > 0
    ensures DivideHalfEven(a, b) == 0 <==> 2 * a <= b
  {
    DivideHalfEvenIsNearest(a, b, 0);
  }

  // ---------------------------------------------------------------------------------------
  // Planned times
  // ---------------------------------------------------------------------------------------

  datatype Stage = ApprovedAt | ShippedAt | DeliveredAt | CreatedCancel | ApprovedCancel

  /** The draw of one run for one order. */
  type Draw = Stage -> nat

  function ApprovalDelay(draw: Draw): nat {
    (10 + draw(ApprovedAt) % 21) * MINUTE
  }

  function ShippingDelay(draw: Draw): nat {
    (36 + draw(ShippedAt) % 25) * HOUR
  }

  function DeliveryDelay(draw: Draw): nat {
    5 * DAY + draw(DeliveredAt) % 97 * HOUR
  }

  type Scale = n: nat | 1 <= n < 0x8000_0000 witness 1

  function PlannedApproval(draw: Draw, scale: Scale, createdAt: int): int {
    createdAt + DivideHalfEven(ApprovalDelay(draw), scale)
  }

  function PlannedShipping(draw: Draw, scale: Scale, createdAt: int, approvedAt: Option<int>): int {
    (if approvedAt.Some? then approvedAt.value else PlannedApproval(draw, scale, createdAt))
      + DivideHalfEven(ShippingDelay(draw), scale)
  }

  function PlannedDelivery(draw: Draw, scale: Scale, createdAt: int, approvedAt: Option<int>, shippedAt: Option<int>)
    : int
  {
    (if shippedAt.Some? then shippedAt.value else PlannedShipping(draw, scale, createdAt, approvedAt))
      + DivideHalfEven(DeliveryDelay(draw), scale)
  }

  lemma DelayBounds(draw: Draw)
    ensures 10 * MINUTE <= ApprovalDelay(draw) <= 30 * MINUTE
    ensures 36 * HOUR <= ShippingDelay(draw) <= 60 * HOUR
    ensures 5 * DAY <= DeliveryDelay(draw) <= 9 * DAY
  {
  }

  /** Under every scale the shipping and the delivery delay stay positive; the approval delay may not. */
  lemma ScaledDelays(draw: Draw, scale: Scale)
    ensures DivideHalfEven(ShippingDelay(draw), scale) > 0
    ensures DivideHalfEven(DeliveryDelay(draw), scale) > 0
    ensures DivideHalfEven(ApprovalDelay(draw), scale) == 0 <==> 2 * ApprovalDelay(draw) <= scale
  {
    hide ApprovalDelay, ShippingDelay, DeliveryDelay, DivideHalfEven;
    DelayBounds(draw);
    VanishesIff(ShippingDelay(draw), scale);
    VanishesIff(DeliveryDelay(draw), scale);
    VanishesIff(ApprovalDelay(draw), scale);
  }

  /**
   An approval is planned at the creation time exactly when twice its delay does not exceed the
   scale.  At the largest scale these are the delays below eighteen minutes.
   */
  lemma ApprovalCanVanish(draw: Draw, scale: Scale, createdAt: int)
    ensures PlannedApproval(draw, scale, createdAt) == createdAt <==> 2 * ApprovalDelay(draw) <= scale
    ensures PlannedApproval(draw, 0x7FFF_FFFF, createdAt) == createdAt <==> ApprovalDelay(draw) < 18 * MINUTE
    ensures ApprovalDelay(draw) < 18 * MINUTE <==> draw(ApprovedAt) % 21 < 8
  {
    hide DivideHalfEven;
    ScaledDelays(draw, scale);
    ScaledDelays(draw, 0x7FFF_FFFF);
  }

  // ---------------------------------------------------------------------------------------
  // Orders, payments and their transitions
  // ---------------------------------------------------------------------------------------

  datatype OrderStatus = Created | Approved | Shipped | Delivered | Canceled

  datatype PaymentStatus = Pending | Completed | Failed | Refunded

  datatype Payment = Payment(status: PaymentStatus, initiatedAt: Option<int>, completedAt: Option<int>,
                             failedAt: Option<int>, refundedAt: Option<int>, updatedAt: int)

  datatype Order = Order(status: OrderStatus, createdAt: int, approvedAt: Option<int>, shippedAt: Option<int>,
                         deliveredAt: Option<int>, updatedAt: int)

  /** An order row with its payment rows. */
  datatype Purchase = Purchase(order: Order, payments: seq<Payment>)

  function OrderTargets(s: OrderStatus): set<OrderStatus> {
    match s
    case Created => {Approved, Canceled}
    case Approved => {Shipped, Canceled}
    case Shipped => {Delivered}
    case Delivered => {}
    case Canceled => {}
  }

  function PaymentTargets(s: PaymentStatus): set<PaymentStatus> {
    match s
    case Pending => {Completed, Failed}
    case Completed => {Refunded}
    case Failed => {}
    case Refunded => {}
  }

  /** What one run plans for an order: its next status and the linked payment transition. */
  datatype Plan = Plan(next: OrderStatus, event: Option<int>, payment: Option<PaymentStatus>, paymentEvent: Option<int>)

  function PlanProgress(draw: Draw, scale: Scale, o: Order, now: int): Option<Plan> {
    var approval := PlannedApproval(draw, scale, o.createdAt);
    var shipping := PlannedShipping(draw, scale, o.createdAt, o.approvedAt);
    var delivery := PlannedDelivery(draw, scale, o.createdAt, o.approvedAt, o.shippedAt);
    if o.status.Created? && now >= approval then
      Some(if draw(CreatedCancel) % 1000 < 4 then Plan(Canceled, None, Some(Failed), Some(approval))
           else Plan(Approved, Some(approval), Some(Completed), Some(approval)))
    else if o.status.Approved? && now >= shipping then
      Some(if draw(ApprovedCancel) % 1000 < 2 then Plan(Canceled, None, Some(Refunded), Some(shipping))
           else Plan(Shipped, Some(shipping), None, None))
    else if o.status.Shipped? && now >= delivery then
      Some(Plan(Delivered, Some(delivery), None, None))
    else None
  }

  datatype OrderTransition = OrderTransition(expected: OrderStatus, expectedAt: int, next: OrderStatus, at: int,
                                             event: Option<int>)

  datatype PaymentTransition = PaymentTransition(expected: PaymentStatus, expectedAt: int, next: PaymentStatus, at: int,
                                                 event: Option<int>)

  function PlanOrderTransition(o: Order, next: OrderStatus, at: int, event: Option<int>): Option<OrderTransition> {
    if next !in OrderTargets(o.status) || at <= o.updatedAt then None
    else if event.Some? && (event.value > at || next !in {Approved, Shipped, Delivered}) then None
    else Some(OrderTransition(o.status, o.updatedAt, next, at, event))
  }

  function PlanPaymentTransition(p: Payment, next: PaymentStatus, at: int, event: Option<int>)
    : Option<PaymentTransition>
  {
    if next !in PaymentTargets(p.status) || at <= p.updatedAt then None
    else if event.Some? && (event.value > at || next !in {Completed, Failed, Refunded}) then None
    else Some(PaymentTransition(p.status, p.updatedAt, next, at, event))
  }

  function EventTime(event: Option<int>, at: int): int {
    if event.Some? then event.value else at
  }

  /** What persisting a transition does to a row; `Refused` where it raises. */
  datatype Persisted<+T> = Skipped | Updated(row: T) | Refused

  function OrderEvent(o: Order, status: OrderStatus, otherwise: int): Option<int> {
    match status
    case Approved => o.approvedAt
    case Shipped => o.shippedAt
    case Delivered => o.deliveredAt
    case _ => Some(otherwise)
  }

  function OrderAfter(o: Order, next: OrderStatus, at: int, event: int): Order {
    match next
    case Approved => o.(status := next, approvedAt := Some(event), updatedAt := at)
    case Shipped => o.(status := next, shippedAt := Some(event), updatedAt := at)
    case Delivered => o.(status := next, deliveredAt := Some(event), updatedAt := at)
    case _ => o.(status := next, updatedAt := at)
  }

  function PersistOrder(o: Order, t: OrderTransition): Persisted<Order> {
    var event := EventTime(t.event, t.at);
    if o.status == t.next && o.updatedAt == t.at then
      if OrderEvent(o, t.next, event) == Some(event) then Skipped else Refused
    else if o.status != t.expected || o.updatedAt != t.expectedAt then Refused
    else if t.next !in OrderTargets(o.status) || t.at <= o.updatedAt || event > t.at then Refused
    else Updated(OrderAfter(o, t.next, t.at, event))
  }

  function PaymentEvent(p: Payment, status: PaymentStatus): Option<int> {
    match status
    case Completed => p.completedAt
    case Failed => p.failedAt
    case Refunded => p.refundedAt
    case Pending => None
  }

  function PaymentAfter(p: Payment, next: PaymentStatus, at: int, event: int): Payment {
    match next
    case Completed => p.(status := next, completedAt := Some(event), updatedAt := at)
    case Failed => p.(status := next, failedAt := Some(event), updatedAt := at)
    case _ => p.(status := next, refundedAt := Some(event), updatedAt := at)
  }

  function PersistPayment(p: Payment, t: PaymentTransition): Persisted<Payment> {
    var event := EventTime(t.event, t.at);
    if p.status == t.next && p.updatedAt == t.at then
      if PaymentEvent(p, t.next) == Some(event) then Skipped else Refused
    else if p.status != t.expected || p.updatedAt != t.expectedAt then Refused
    else if t.next !in PaymentTargets(p.status) || t.at <= p.updatedAt then Refused
    else Updated(PaymentAfter(p, t.next, t.at, event))
  }

  function StepOrder(o: Order, next: OrderStatus, at: int, event: Option<int>): Persisted<Order> {
    match PlanOrderTransition(o, next, at, event)
    case None => Refused
    case Some(t) => PersistOrder(o, t)
  }

  function StepPayment(p: Payment, next: PaymentStatus, at: int, event: Option<int>): Persisted<Payment> {
    match PlanPaymentTransition(p, next, at, event)
    case None => Refused
    case Some(t) => PersistPayment(p, t)
  }

  /** The payment rows after the transition, with the count of updated rows; `None` where one raises. */
  function StepPayments(payments: seq<Payment>, next: PaymentStatus, at: int, event: Option<int>)
    : Option<(seq<Payment>, nat)>
  {
    if payments == [] then Some(([], 0)) else
      var n := |payments| - 1;
      match StepPayments(payments[..n], next, at, event)
      case None => None
      case Some((rest, count)) =>
        match StepPayment(payments[n], next, at, event)
        case Refused => None
        case Skipped => Some((rest + [payments[n]], count))
        case Updated(p) => Some((rest + [p], count + 1))
  }

  datatype Advance = Advance(purchase: Purchase, plan: Option<Plan>, ordersUpdated: nat, paymentsUpdated: nat)

  function AdvancePayments(x: Purchase, plan: Plan, now: int, updated: nat): Option<Advance> {
    if plan.payment.None? then Some(Advance(x, Some(plan), updated, 0))
    else if x.payments == [] then None
    else
      match StepPayments(x.payments, plan.payment.value, now, plan.paymentEvent)
      case None => None
      case Some((payments, count)) => Some(Advance(x.(payments := payments), Some(plan), updated, count))
  }

  /**
   What one run does to one order; `None` where it raises.  A planned transition is persisted only
   while the lease is held.
   */
  function AdvanceOne(x: Purchase, draw: Draw, scale: Scale, now: int, held: bool): Option<Advance> {
    match PlanProgress(draw, scale, x.order, now)
    case None => Some(Advance(x, None, 0, 0))
    case Some(plan) =>
      match PlanOrderTransition(x.order, plan.next, now, plan.event)
      case None => None
      case Some(t) =>
        if !held then None else
          match PersistOrder(x.order, t)
          case Refused => None
          case Skipped => AdvancePayments(x, plan, now, 0)
          case Updated(o) => AdvancePayments(x.(order := o), plan, now, 1)
  }

  // ---------------------------------------------------------------------------------------
  // The life of an order
  // ---------------------------------------------------------------------------------------

  /** Recorded times are in order and none is later than the run that wrote the row. */
  predicate TimesOk(o: Order) {
    && o.createdAt <= o.updatedAt
    && (o.approvedAt.Some? ==> o.createdAt <= o.approvedAt.value <= o.updatedAt)
    && (o.shippedAt.Some? ==> o.approvedAt.Some? && o.approvedAt.value < o.shippedAt.value <= o.updatedAt)
    && (o.deliveredAt.Some? ==> o.shippedAt.Some? && o.shippedAt.value < o.deliveredAt.value <= o.updatedAt)
  }

  /** The recorded times are exactly those of the stages the order has passed. */
  predicate StagesOk(o: Order) {
    match o.status
    case Created => o.approvedAt.None? && o.shippedAt.None? && o.deliveredAt.None?
    case Approved => o.approvedAt.Some? && o.shippedAt.None? && o.deliveredAt.None?
    case Shipped => o.shippedAt.Some? && o.deliveredAt.None?
    case Delivered => o.deliveredAt.Some?
    case Canceled => o.shippedAt.None? && o.deliveredAt.None?
  }

  /** The payment status that belongs to an order: a canceled order was approved before or not. */
  function LinkedStatus(o: Order): PaymentStatus {
    match o.status
    case Created => Pending
    case Canceled => if o.approvedAt.Some? then Refunded else Failed
    case _ => Completed
  }

  predicate PaymentOk(p: Payment, o: Order) {
    && p.status == LinkedStatus(o) && p.updatedAt <= o.updatedAt
    && (p.completedAt.Some? <==> p.status.Completed? || p.status.Refunded?)
    && (p.failedAt.Some? <==> p.status.Failed?) && (p.refundedAt.Some? <==> p.status.Refunded?)
    && (p.completedAt.Some? ==> p.completedAt == o.approvedAt)
  }

  ghost predicate PurchaseOk(x: Purchase) {
    && TimesOk(x.order) && StagesOk(x.order) && x.payments != []
    && forall p :: p in x.payments ==> PaymentOk(p, x.order)
  }

  /** What later runs keep of an order. */
  predicate Continues(o: Order, later: Order) {
    && later.createdAt == o.createdAt && o.updatedAt <= later.updatedAt
    && (o.approvedAt.Some? ==> later.approvedAt == o.approvedAt)
    && (o.shippedAt.Some? ==> later.shippedAt == o.shippedAt)
    && (o.deliveredAt.Some? ==> later.deliveredAt == o.deliveredAt)
    && (o.status.Delivered? || o.status.Canceled? ==> later == o)
  }

  /** The planned step of a sound order is never refused and keeps its times in order. */
  lemma OrderStepKeeps(o: Order, draw: Draw, scale: Scale, now: int)
    requires TimesOk(o) && StagesOk(o) && o.updatedAt < now
    requires PlanProgress(draw, scale, o, now).Some?
    ensures var plan := PlanProgress(draw, scale, o, now).value;
      var step := StepOrder(o, plan.next, now, plan.event);
      && step.Updated? && TimesOk(step.row) && StagesOk(step.row) && Continues(o, step.row)
      && step.row.status == plan.next && step.row.updatedAt == now
      && (plan.payment.Some? <==> LinkedStatus(o) != LinkedStatus(step.row))
      && (plan.payment.Some? ==>
            plan.payment.value == LinkedStatus(step.row) && plan.payment.value in PaymentTargets(LinkedStatus(o)))
      && (plan.payment.Some? ==> plan.paymentEvent.Some? && plan.paymentEvent.value <= now)
      && (plan.payment == Some(Completed) ==> step.row.approvedAt == plan.paymentEvent)
  {
    hide ApprovalDelay, ShippingDelay, DeliveryDelay, DivideHalfEven;
    ScaledDelays(draw, scale);
  }

  lemma PaymentStepKeeps(p: Payment, o: Order, later: Order, next: PaymentStatus, event: int)
    requires PaymentOk(p, o) && o.updatedAt < later.updatedAt && next in PaymentTargets(p.status)
    requires next == LinkedStatus(later) && event <= later.updatedAt
    requires o.approvedAt.Some? ==> later.approvedAt == o.approvedAt
    requires next.Completed? ==> later.approvedAt == Some(event)
    ensures var step := StepPayment(p, next, later.updatedAt, Some(event)); step.Updated? && PaymentOk(step.row, later)
  {
  }

  lemma {:induction false} PaymentStepsKeep(payments: seq<Payment>, o: Order, later: Order, next: PaymentStatus,
                                            event: int)
    requires forall p :: p in payments ==> PaymentOk(p, o)
    requires o.updatedAt < later.updatedAt && next in PaymentTargets(LinkedStatus(o))
    requires next == LinkedStatus(later) && event <= later.updatedAt
    requires o.approvedAt.Some? ==> later.approvedAt == o.approvedAt
    requires next.Completed? ==> later.approvedAt == Some(event)
    ensures var steps := StepPayments(payments, next, later.updatedAt, Some(event));
      && steps.Some? && |steps.value.0| == |payments| == steps.value.1
      && forall p :: p in steps.value.0 ==> PaymentOk(p, later)
  {
    hide StepPayment;
    if payments == [] {
    } else {
      var n := |payments| - 1;
      PaymentStepsKeep(payments[..n], o, later, next, event);
      assert payments[n] in payments;
      PaymentStepKeeps(payments[n], o, later, next, event);
    }
  }

  lemma PaymentStays(p: Payment, o: Order, later: Order)
    requires PaymentOk(p, o) && LinkedStatus(later) == LinkedStatus(o) && o.updatedAt <= later.updatedAt
    requires o.approvedAt.Some? ==> later.approvedAt == o.approvedAt
    requires StagesOk(o)
    ensures PaymentOk(p, later)
  {
  }

  /**
   Under any draw and any scale a run with its lease never refuses the transition it planned for
   an order, keeps the recorded times in order and keeps every payment in the status that belongs
   to the order's.  Without the lease it raises on every planned transition.
   */
  lemma AdvanceKeeps(x: Purchase, draw: Draw, scale: Scale, now: int, held: bool)
    requires PurchaseOk(x) && x.order.updatedAt < now
    ensures var r := AdvanceOne(x, draw, scale, now, held);
      (r.Some? <==> held || PlanProgress(draw, scale, x.order, now).None?)
    ensures var r := AdvanceOne(x, draw, scale, now, held); r.Some? ==>
      && PurchaseOk(r.value.purchase) && Continues(x.order, r.value.purchase.order)
      && |r.value.purchase.payments| == |x.payments|
      && (r.value.plan.Some? ==> r.value.purchase.order.updatedAt == now && r.value.ordersUpdated == 1)
      && (r.value.plan.None? ==> r.value.purchase == x)
  {
    hide PlanProgress, PlanOrderTransition, PersistOrder, StepPayments, TimesOk, StagesOk, LinkedStatus, PaymentTargets;
    var plan := PlanProgress(draw, scale, x.order, now);
    if plan.Some? {
      OrderStepKeeps(x.order, draw, scale, now);
      var later := StepOrder(x.order, plan.value.next, now, plan.value.event).row;
      if plan.value.payment.Some? {
        PaymentStepsKeep(x.payments, x.order, later, plan.value.payment.value, plan.value.paymentEvent.value);
      } else {
        forall p | p in x.payments ensures PaymentOk(p, later) {
          PaymentStays(p, x.order, later);
        }
      }
    }
  }

  // ---------------------------------------------------------------------------------------
  // What a run does to an order, told on its fields
  // ---------------------------------------------------------------------------------------

  /** The instant is a delay after the base: the delay divided by the scale and rounded, ties to even. */
  ghost predicate IsAfter(base: int, delay: nat, scale: Scale, t: int) {
    t >= base && IsNearestEven(delay, scale, t - base)
  }

  /**
   The time of the stage an order enters next: ten to thirty minutes after its creation, one and a
   half to two and a half days after its approval, or five to nine days after its shipping.
   */
  ghost predicate IsNextEvent(o: Order, draw: Draw, scale: Scale, t: int) {
    match o.status
    case Created => IsAfter(o.createdAt, (10 + draw(ApprovedAt) % 21) * MINUTE, scale, t)
    case Approved => o.approvedAt.Some? && IsAfter(o.approvedAt.value, (36 + draw(ShippedAt) % 25) * HOUR, scale, t)
    case Shipped => o.shippedAt.Some? && IsAfter(o.shippedAt.value, (120 + draw(DeliveredAt) % 97) * HOUR, scale, t)
    case _ => false
  }

  /** Every payment moves to the status, its event dated `t`; nothing else of it changes. */
  ghost predicate AreMoved(before: seq<Payment>, after: seq<Payment>, status: PaymentStatus, t: int, now: int) {
    && |after| == |before|
    && forall i :: 0 <= i < |before| ==>
         && after[i].status == status && after[i].updatedAt == now && after[i].initiatedAt == before[i].initiatedAt
         && after[i].completedAt == (if status == Completed then Some(t) else before[i].completedAt)
         && after[i].failedAt == (if status == Failed then Some(t) else before[i].failedAt)
         && after[i].refundedAt == (if status == Refunded then Some(t) else before[i].refundedAt)
  }

  /** The order moves to the status, and only the time of an entered stage changes with it. */
  ghost predicate IsMoved(o: Order, d: Order, status: OrderStatus, t: int, now: int) {
    && d.status == status && d.createdAt == o.createdAt && d.updatedAt == now
    && d.approvedAt == (if status == Approved then Some(t) else o.approvedAt)
    && d.shippedAt == (if status == Shipped then Some(t) else o.shippedAt)
    && d.deliveredAt == (if status == Delivered then Some(t) else o.deliveredAt)
  }

  /** The order enters its next stage at `t`, or is canceled by its draw, and its payments follow it. */
  ghost predicate IsAdvanced(x: Purchase, a: Advance, draw: Draw, t: int, now: int) {
    var y := a.purchase;
    && a.ordersUpdated == 1
    && match x.order.status
       case Created =>
         var canceled := draw(CreatedCancel) % 1000 < 4;
         && IsMoved(x.order, y.order, if canceled then Canceled else Approved, t, now)
         && AreMoved(x.payments, y.payments, if canceled then Failed else Completed, t, now)
         && a.paymentsUpdated == |x.payments|
       case Approved =>
         if draw(ApprovedCancel) % 1000 < 2 then
           && IsMoved(x.order, y.order, Canceled, t, now)
           && AreMoved(x.payments, y.payments, Refunded, t, now) && a.paymentsUpdated == |x.payments|
         else
           IsMoved(x.order, y.order, Shipped, t, now) && y.payments == x.payments && a.paymentsUpdated == 0
       case _ =>
         IsMoved(x.order, y.order, Delivered, t, now) && y.payments == x.payments && a.paymentsUpdated == 0
  }

  lemma AfterMeans(base: int, delay: nat, scale: Scale, t: int)
    ensures IsAfter(base, delay, scale, t) <==> t == base + DivideHalfEven(delay, scale)
  {
    hide DivideHalfEven;
    if t >= base {
      DivideHalfEvenIsNearest(delay, scale, t - base);
    }
  }

  /** The time an order enters its next stage, as the planner computes it. */
  function NextEvent(o: Order, draw: Draw, scale: Scale): int {
    match o.status
    case Created => PlannedApproval(draw, scale, o.createdAt)
    case Approved => PlannedShipping(draw, scale, o.createdAt, o.approvedAt)
    case _ => PlannedDelivery(draw, scale, o.createdAt, o.approvedAt, o.shippedAt)
  }

  /** An unfinished order has exactly one such time, and a finished one none. */
  lemma NextEventMeans(o: Order, draw: Draw, scale: Scale, t: int)
    requires StagesOk(o)
    ensures IsNextEvent(o, draw, scale, t) <==>
      (o.status == Created || o.status == Approved || o.status == Shipped) && t == NextEvent(o, draw, scale)
  {
    hide IsAfter, DivideHalfEven;
    AfterMeans(o.createdAt, ApprovalDelay(draw), scale, t);
    match o.status {
      case Approved => AfterMeans(o.approvedAt.value, ShippingDelay(draw), scale, t);
      case Shipped => AfterMeans(o.shippedAt.value, DeliveryDelay(draw), scale, t);
      case _ =>
    }
  }

  lemma PaymentStepMoves(p: Payment, o: Order, later: Order, next: PaymentStatus, t: int)
    requires PaymentOk(p, o) && o.updatedAt < later.updatedAt && next in PaymentTargets(p.status)
    requires t <= later.updatedAt
    ensures var step := StepPayment(p, next, later.updatedAt, Some(t));
      step.Updated? && AreMoved([p], [step.row], next, t, later.updatedAt)
  {
  }

  lemma {:induction false} PaymentStepsMove(payments: seq<Payment>, o: Order, later: Order, next: PaymentStatus,
                                            t: int)
    requires forall p :: p in payments ==> PaymentOk(p, o)
    requires o.updatedAt < later.updatedAt && next in PaymentTargets(LinkedStatus(o)) && t <= later.updatedAt
    ensures var steps := StepPayments(payments, next, later.updatedAt, Some(t));
      steps.Some? && AreMoved(payments, steps.value.0, next, t, later.updatedAt) && steps.value.1 == |payments|
  {
    hide StepPayment;
    if payments == [] {
    } else {
      var n := |payments| - 1;
      PaymentStepsMove(payments[..n], o, later, next, t);
      assert payments[n] in payments;
      PaymentStepMoves(payments[n], o, later, next, t);
      var step := StepPayment(payments[n], next, later.updatedAt, Some(t));
      assert [step.row][0] == step.row && [payments[n]][0] == payments[n];
    }
  }

  /** The order is unfinished and the time of its next stage has come. */
  ghost predicate IsDue(o: Order, draw: Draw, scale: Scale, now: int) {
    exists t :: IsNextEvent(o, draw, scale, t) && t <= now
  }

  /** An order is planned a transition exactly when it is due, to the stage and at the time its draw says. */
  lemma PlanFollowsTheFields(o: Order, draw: Draw, scale: Scale, now: int)
    requires TimesOk(o) && StagesOk(o) && o.updatedAt < now
    ensures PlanProgress(draw, scale, o, now).Some? <==> IsDue(o, draw, scale, now)
    ensures IsDue(o, draw, scale, now) ==>
      var plan, t := PlanProgress(draw, scale, o, now).value, NextEvent(o, draw, scale);
      var step := StepOrder(o, plan.next, now, plan.event);
      && step.Updated? && IsMoved(o, step.row, plan.next, t, now)
      && plan.event == (if plan.next == Canceled then None else Some(t))
      && plan.paymentEvent == (if plan.payment.Some? then Some(t) else None)
      && (plan.payment.Some? ==> plan.payment.value in PaymentTargets(LinkedStatus(o)))
      && match o.status
         case Created =>
           plan.next == (if draw(CreatedCancel) % 1000 < 4 then Canceled else Approved)
           && plan.payment == Some(if draw(CreatedCancel) % 1000 < 4 then Failed else Completed)
         case Approved =>
           if draw(ApprovedCancel) % 1000 < 2 then plan.next == Canceled && plan.payment == Some(Refunded)
           else plan.next == Shipped && plan.payment.None?
         case _ => plan.next == Delivered && plan.payment.None?
  {
    hide PlannedApproval, PlannedShipping, PlannedDelivery, IsNextEvent;
    NextEventMeans(o, draw, scale, NextEvent(o, draw, scale));
    if IsDue(o, draw, scale, now) {
      var t :| IsNextEvent(o, draw, scale, t) && t <= now;
      NextEventMeans(o, draw, scale, t);
    }
  }

  /**
   A due order is advanced, if the lease is held: it enters its next stage at exactly the time of that
   stage, or is canceled, and its payments follow.  Without the lease the run raises.  Any other order
   is left as it is.
   */
  lemma AdvanceFollowsTheFields(x: Purchase, draw: Draw, scale: Scale, now: int, held: bool, t: int)
    requires PurchaseOk(x) && x.order.updatedAt < now
    ensures var r := AdvanceOne(x, draw, scale, now, held);
      && (!IsDue(x.order, draw, scale, now) ==> r == Some(Advance(x, None, 0, 0)))
      && (IsDue(x.order, draw, scale, now) ==> (r.Some? <==> held))
      && (IsDue(x.order, draw, scale, now) && held && IsNextEvent(x.order, draw, scale, t) ==>
            IsAdvanced(x, r.value, draw, t, now))
  {
    hide TimesOk, PlanProgress, PlanOrderTransition, PersistOrder, StepPayments, NextEvent, AreMoved, IsDue,
         IsNextEvent, PaymentTargets, LinkedStatus;
    PlanFollowsTheFields(x.order, draw, scale, now);
    NextEventMeans(x.order, draw, scale, t);
    if IsDue(x.order, draw, scale, now) {
      var plan := PlanProgress(draw, scale, x.order, now).value;
      var later := StepOrder(x.order, plan.next, now, plan.event).row;
      if plan.payment.Some? {
        OrderStepKeeps(x.order, draw, scale, now);
        PaymentStepsMove(x.payments, x.order, later, plan.payment.value, plan.paymentEvent.value);
      }
    }
  }

  /** The payments of an order have another status than before. */
  predicate PaymentsMoved(x: Purchase, y: Purchase) {
    x.payments != [] && y.payments != [] && y.payments[0].status != x.payments[0].status
  }

  /** The plan that an order's rows before and after show: its new status and that of its payments. */
  function Shown(x: Purchase, y: Purchase): Plan {
    var moved := PaymentsMoved(x, y);
    Plan(y.order.status,
         match y.order.status
         case Approved => y.order.approvedAt
         case Shipped => y.order.shippedAt
         case Delivered => y.order.deliveredAt
         case _ => None,
         if moved then Some(y.payments[0].status) else None,
         if moved then PaymentEvent(y.payments[0], y.payments[0].status) else None)
  }

  lemma DueHasEvent(o: Order, draw: Draw, scale: Scale, now: int)
    requires StagesOk(o) && IsDue(o, draw, scale, now)
    ensures IsNextEvent(o, draw, scale, NextEvent(o, draw, scale))
  {
    hide IsNextEvent, NextEvent;
    var t :| IsNextEvent(o, draw, scale, t) && t <= now;
    NextEventMeans(o, draw, scale, t);
  }

  /** The logged plan is what the rows show, and a row is logged exactly when the order changed. */
  lemma AdvanceShows(x: Purchase, draw: Draw, scale: Scale, now: int, held: bool)
    requires PurchaseOk(x) && x.order.updatedAt < now && AdvanceOne(x, draw, scale, now, held).Some?
    ensures var a := AdvanceOne(x, draw, scale, now, held).value;
      && a.plan == (if a.purchase == x then None else Some(Shown(x, a.purchase)))
      && a.ordersUpdated == (if a.purchase == x then 0 else 1)
      && a.paymentsUpdated == (if PaymentsMoved(x, a.purchase) then |x.payments| else 0)
  {
    hide TimesOk, PlanProgress, PlanOrderTransition, PersistOrder, StepPayments, NextEvent, IsDue, IsNextEvent;
    var t := NextEvent(x.order, draw, scale);
    PlanFollowsTheFields(x.order, draw, scale, now);
    NextEventMeans(x.order, draw, scale, t);
    AdvanceFollowsTheFields(x, draw, scale, now, held, t);
    if IsDue(x.order, draw, scale, now) {
      assert IsNextEvent(x.order, draw, scale, t) by { DueHasEvent(x.order, draw, scale, now); }
      assert PaymentOk(x.payments[0], x.order);
    }
  }
}
