/**
 Generated orders over whole runs.

 The store keeps the generated orders with their payments and the counts and log of the
 running transaction.  Seed, draws and time scale are inputs of each run, so nothing below
 assumes that they stay the same from run to run.  So is whether the source lease is still held
 when it is asserted before an order is persisted.
 */
module OrderRuns {
  import opened OrderProgress

  type OrderId = string

  type Orders = map<OrderId, Purchase>

  datatype LogRow = LogRow(id: OrderId, plan: Plan)

  datatype Book = Book(orders: Orders, log: seq<LogRow>, ordersUpdated: nat, paymentsUpdated: nat)

  type Draws = OrderId -> Draw

  /** What the lease assertion before an order finds. */
  type Held = OrderId -> bool

  /** The effect of one order's advance on the book. */
  function Absorb(b: Book, id: OrderId, a: Advance): Book {
    Book(b.orders[id := a.purchase], b.log + (if a.plan.Some? then [LogRow(id, a.plan.value)] else []),
         b.ordersUpdated + a.ordersUpdated, b.paymentsUpdated + a.paymentsUpdated)
  }

  function AdvanceIn(b: Book, id: OrderId, draws: Draws, scale: Scale, now: int, held: Held): Option<Book> {
    if id !in b.orders then Some(b) else
      match AdvanceOne(b.orders[id], draws(id), scale, now, held(id))
      case Some(a) => Some(Absorb(b, id, a))
      case None => None
  }

  /** The loop over the candidates; `None` once a transition raises. */
  function AdvanceAll(b: Book, ids: seq<OrderId>, draws: Draws, scale: Scale, now: int, held: Held): Option<Book> {
    if ids == [] then Some(b) else
      match AdvanceAll(b, ids[..|ids| - 1], draws, scale, now, held)
      case Some(c) => AdvanceIn(c, ids[|ids| - 1], draws, scale, now, held)
      case None => None
  }

  predicate Distinct(ids: seq<OrderId>) {
    forall i, k :: 0 <= i < k < |ids| ==> ids[i] != ids[k]
  }

  /** Generated orders that are not finished. */
  predicate IsCandidate(o: Order, seededAt: int) {
    o.createdAt > seededAt && (o.status.Created? || o.status.Approved? || o.status.Shipped?)
  }

  function Candidates(orders: Orders, order: seq<OrderId>, seededAt: int): seq<OrderId> {
    if order == [] then [] else
      var id := order[|order| - 1];
      Candidates(orders, order[..|order| - 1], seededAt)
        + (if id in orders && IsCandidate(orders[id].order, seededAt) then [id] else [])
  }

  // ---------------------------------------------------------------------------------------
  // The store
  // ---------------------------------------------------------------------------------------

  lemma AbsorbSame(b: Book, id: OrderId)
    requires id in b.orders
    ensures Absorb(b, id, Advance(b.orders[id], None, 0, 0)) == b
  {
    assert b.orders[id := b.orders[id]] == b.orders;
  }

  /** Once an advance has raised, the loop over the whole list raises. */
  lemma {:induction false} AdvanceStopped(b: Book, ids: seq<OrderId>, i: nat, draws: Draws, scale: Scale, now: int,
                                          held: Held)
    requires i < |ids| && AdvanceAll(b, ids[..i + 1], draws, scale, now, held).None?
    ensures AdvanceAll(b, ids, draws, scale, now, held).None?
  {
    hide AdvanceIn;
    if i + 1 < |ids| {
      assert ids[..|ids| - 1][..i + 1] == ids[..i + 1];
      AdvanceStopped(b, ids[..|ids| - 1], i, draws, scale, now, held);
    } else {
      assert ids[..i + 1] == ids;
    }
  }

  lemma {:induction false} PaymentsStopped(payments: seq<Payment>, i: nat, next: PaymentStatus, now: int,
                                           event: Option<int>)
    requires i < |payments| && StepPayments(payments[..i + 1], next, now, event).None?
    ensures StepPayments(payments, next, now, event).None?
  {
    hide StepPayment;
    if i + 1 < |payments| {
      assert payments[..|payments| - 1][..i + 1] == payments[..i + 1];
      PaymentsStopped(payments[..|payments| - 1], i, next, now, event);
    } else {
      assert payments[..i + 1] == payments;
    }
  }

  class OrderStore {
    var orders: Orders
    var log: seq<LogRow>
    var ordersUpdated: nat
    var paymentsUpdated: nat

    constructor (orders: Orders)
      ensures Current() == Book(orders, [], 0, 0)
    {
      this.orders, log, ordersUpdated, paymentsUpdated := orders, [], 0, 0;
    }

    function Current(): Book
      reads this
    {
      Book(orders, log, ordersUpdated, paymentsUpdated)
    }

    /** Moves every payment of an order to its next status. */
    method AdvancePaymentRows(id: OrderId, next: PaymentStatus, event: Option<int>, now: int) returns (ok: bool)
      requires id in orders
      modifies `orders, `paymentsUpdated
      ensures var steps := StepPayments(old(orders[id]).payments, next, now, event);
        && ok == steps.Some?
        && (ok ==> orders == old(orders)[id := old(orders[id]).(payments := steps.value.0)]
                   && paymentsUpdated == old(paymentsUpdated) + steps.value.1)
    {
      hide StepPayment;
      var payments := orders[id].payments;
      var moved: seq<Payment> := [];
      var count: nat := 0;
      assert payments[..0] == [];
      for i := 0 to |payments|
        invariant StepPayments(payments[..i], next, now, event) == Some((moved, count))
      {
        assert payments[..i + 1][..i] == payments[..i];
        var step := StepPayment(payments[i], next, now, event);
        match step {
          case Refused =>
            PaymentsStopped(payments, i, next, now, event);
            return false;
          case Skipped =>
            moved := moved + [payments[i]];
          case Updated(p) =>
            moved, count := moved + [p], count + 1;
        }
      }
      assert payments[..|payments|] == payments;
      orders := orders[id := orders[id].(payments := moved)];
      paymentsUpdated := paymentsUpdated + count;
      ok := true;
    }

    method AdvanceOrder(id: OrderId, draw: Draw, scale: Scale, now: int, held: bool) returns (ok: bool)
      requires id in orders
      modifies this
      ensures var advanced := AdvanceOne(old(orders[id]), draw, scale, now, held);
        && ok == advanced.Some?
        && (ok ==> Current() == Absorb(old(Current()), id, advanced.value))
    {
      hide PlanProgress, PlanOrderTransition, PersistOrder, StepPayments;
      var purchase := orders[id];
      var plan := PlanProgress(draw, scale, purchase.order, now);
      AbsorbSame(Current(), id);
      if plan.None? {
        return true;
      }
      var transition := PlanOrderTransition(purchase.order, plan.value.next, now, plan.value.event);
      if transition.None? || !held {
        return false;
      }
      var step := PersistOrder(purchase.order, transition.value);
      match step {
        case Refused =>
          return false;
        case Skipped =>
        case Updated(o) =>
          orders := orders[id := purchase.(order := o)];
          ordersUpdated := ordersUpdated + 1;
      }
      if plan.value.payment.Some? {
        if orders[id].payments == [] {
          return false;
        }
        ok := AdvancePaymentRows(id, plan.value.payment.value, plan.value.paymentEvent, now);
        if !ok {
          return;
        }
      }
      log := log + [LogRow(id, plan.value)];
      ok := true;
    }

    /** Advances every candidate by at most one stage, in listing order. */
    method RunExistingOrderTransitions(order: seq<OrderId>, seededAt: int, draws: Draws, scale: Scale, now: int,
                                       held: Held)
      returns (ok: bool)
      modifies this
      ensures var candidates := Candidates(old(orders), order, seededAt);
        var advanced := AdvanceAll(old(Current()), candidates, draws, scale, now, held);
        && ok == advanced.Some?
        && (ok ==> Current() == advanced.value)
    {
      hide AdvanceOne, Absorb, IsCandidate;
      var candidates := Candidates(orders, order, seededAt);
      ghost var start := Current();
      assert candidates[..0] == [];
      for i := 0 to |candidates|
        invariant AdvanceAll(start, candidates[..i], draws, scale, now, held) == Some(Current())
      {
        assert candidates[..i + 1][..i] == candidates[..i];
        if candidates[i] in orders {
          var advanced := AdvanceOrder(candidates[i], draws(candidates[i]), scale, now, held(candidates[i]));
          if !advanced {
            AdvanceStopped(start, candidates, i, draws, scale, now, held);
            return false;
          }
        }
      }
      assert candidates[..|candidates|] == candidates;
      ok := true;
    }
  }

  // ---------------------------------------------------------------------------------------
  // Runs
  // ---------------------------------------------------------------------------------------

  ghost predicate OrdersOk(orders: Orders) {
    forall id :: id in orders ==> PurchaseOk(orders[id])
  }

  ghost predicate AllOlder(orders: Orders, now: int) {
    forall id :: id in orders ==> orders[id].order.updatedAt < now
  }

  ghost predicate AllContinue(orders: Orders, later: Orders) {
    forall id :: id in orders ==> id in later && Continues(orders[id].order, later[id].order)
  }

  function NewPurchase(now: int, payments: nat): Purchase {
    Purchase(Order(Created, now, None, None, None, now),
             seq(payments, _ => Payment(Pending, Some(now), None, None, None, now)))
  }

  /** Orders a run creates, by id, with the number of their payments. */
  type Creations = map<OrderId, nat>

  function WithNew(orders: Orders, created: Creations, now: int): Orders {
    map id | id in orders.Keys + created.Keys :: if id in orders then orders[id] else NewPurchase(now, created[id])
  }

  datatype RunInput = RunInput(now: int, order: seq<OrderId>, draws: Draws, scale: Scale, created: Creations,
                               held: Held)

  /** An order can be created: its id is new, it has a payment, and the lease is held. */
  predicate CanCreate(orders: Orders, input: RunInput, id: OrderId)
    requires id in input.created
  {
    id !in orders && input.created[id] > 0 && input.held(id)
  }

  /** The order part of one generator run on generated orders; `None` when it raises. */
  ghost function Run(orders: Orders, seededAt: int, input: RunInput): Option<Orders> {
    if !AllOlder(orders, input.now) || !Distinct(input.order) then None
    else if exists id :: id in input.created && !CanCreate(orders, input, id) then None
    else
      match AdvanceAll(Book(orders, [], 0, 0), Candidates(orders, input.order, seededAt), input.draws, input.scale,
                       input.now, input.held)
      case None => None
      case Some(b) => Some(WithNew(b.orders, input.created, input.now))
  }

  ghost function RunAll(orders: Orders, seededAt: int, inputs: seq<RunInput>): Orders
    decreases |inputs|
  {
    if inputs == [] then orders else
      match Run(orders, seededAt, inputs[0])
      case Some(later) => RunAll(later, seededAt, inputs[1..])
      case None => RunAll(orders, seededAt, inputs[1..])
  }

  lemma {:induction false} CandidatesDistinct(orders: Orders, order: seq<OrderId>, seededAt: int)
    requires Distinct(order)
    ensures Distinct(Candidates(orders, order, seededAt))
    ensures forall id :: id in Candidates(orders, order, seededAt) ==> id in order && id in orders
  {
    hide IsCandidate;
    if order == [] {
    } else {
      var n := |order| - 1;
      CandidatesDistinct(orders, order[..n], seededAt);
      assert order[n] !in order[..n];
    }
  }

  /** The lease is held at every order for which a transition is planned. */
  ghost predicate HeldWhenPlanned(orders: Orders, ids: seq<OrderId>, draws: Draws, scale: Scale, now: int, held: Held) {
    forall id :: id in ids && id in orders && PlanProgress(draws(id), scale, orders[id].order, now).Some? ==> held(id)
  }

  /** An order a run left alone, or a row it wrote. */
  predicate LeftOrWritten(orders: Orders, later: Orders, id: OrderId, now: int)
    requires id in later
  {
    (id in orders && later[id] == orders[id]) || later[id].order.updatedAt == now
  }

  ghost predicate Advanced(orders: Orders, later: Orders, now: int) {
    && later.Keys == orders.Keys && OrdersOk(later) && AllContinue(orders, later)
    && forall id :: id in later ==> LeftOrWritten(orders, later, id, now)
  }

  lemma AbsorbKeeps(orders: Orders, c: Book, id: OrderId, a: Advance, now: int)
    requires Advanced(orders, c.orders, now) && id in orders && c.orders[id] == orders[id]
    requires PurchaseOk(a.purchase) && Continues(orders[id].order, a.purchase.order)
    requires a.purchase == orders[id] || a.purchase.order.updatedAt == now
    ensures Advanced(orders, Absorb(c, id, a).orders, now)
    ensures forall k :: k in orders && k != id ==> Absorb(c, id, a).orders[k] == c.orders[k]
  {
    hide PurchaseOk, Continues;
  }

  lemma HeldAtLast(orders: Orders, ids: seq<OrderId>, id: OrderId, draws: Draws, scale: Scale, now: int, held: Held)
    ensures HeldWhenPlanned(orders, ids + [id], draws, scale, now, held)
      <==> HeldWhenPlanned(orders, ids, draws, scale, now, held)
           && HeldWhenPlanned(orders, [id], draws, scale, now, held)
    ensures HeldWhenPlanned(orders, [id], draws, scale, now, held)
      <==> id in orders && PlanProgress(draws(id), scale, orders[id].order, now).Some? ==> held(id)
  {
    hide PlanProgress;
    assert forall k :: k in ids + [id] <==> k in ids || k in [id];
  }

  lemma AllContinueReflexive(orders: Orders)
    ensures AllContinue(orders, orders)
  {
  }

  /**
   The loop advances each candidate once and leaves every order sound.  It raises exactly when the
   lease is lost at an order for which a transition is planned.
   */
  lemma {:induction false} AdvanceAllKeeps(b: Book, ids: seq<OrderId>, draws: Draws, scale: Scale, now: int, held: Held)
    requires Distinct(ids) && OrdersOk(b.orders) && AllOlder(b.orders, now)
    ensures var c := AdvanceAll(b, ids, draws, scale, now, held);
      && (c.Some? <==> HeldWhenPlanned(b.orders, ids, draws, scale, now, held))
      && (c.Some? ==>
            && Advanced(b.orders, c.value.orders, now)
            && forall id :: id in b.orders && id !in ids ==> c.value.orders[id] == b.orders[id])
  {
    hide AdvanceOne, PurchaseOk, Continues, PlanProgress;
    if ids == [] {
      AllContinueReflexive(b.orders);
    } else {
      var id, before := ids[|ids| - 1], ids[..|ids| - 1];
      AdvanceAllKeeps(b, before, draws, scale, now, held);
      assert ids == before + [id];
      assert id !in before;
      HeldAtLast(b.orders, before, id, draws, scale, now, held);
      hide HeldWhenPlanned, Absorb;
      if id in b.orders {
        AdvanceKeeps(b.orders[id], draws(id), scale, now, held(id));
        if AdvanceAll(b, ids, draws, scale, now, held).Some? {
          AbsorbKeeps(b.orders, AdvanceAll(b, before, draws, scale, now, held).value, id,
                      AdvanceOne(b.orders[id], draws(id), scale, now, held(id)).value, now);
        }
      }
    }
  }

  // ---------------------------------------------------------------------------------------
  // What a run does, told on the rows
  // ---------------------------------------------------------------------------------------

  /** The plans that the listed orders show, in listing order. */
  function Shows(before: Orders, later: Orders, ids: seq<OrderId>): seq<LogRow> {
    if ids == [] then [] else
      var id := ids[|ids| - 1];
      Shows(before, later, ids[..|ids| - 1])
        + (if id in before && id in later && later[id] != before[id] then [LogRow(id, Shown(before[id], later[id]))]
           else [])
  }

  /** How many payments the listed orders moved. */
  function Moves(before: Orders, later: Orders, ids: seq<OrderId>): nat {
    if ids == [] then 0 else
      var id := ids[|ids| - 1];
      Moves(before, later, ids[..|ids| - 1])
        + (if id in before && id in later && PaymentsMoved(before[id], later[id]) then |before[id].payments| else 0)
  }

  lemma {:induction false} ShowsFrame(before: Orders, x: Orders, y: Orders, ids: seq<OrderId>)
    requires forall id :: id in ids ==> (id in x <==> id in y) && (id in x ==> x[id] == y[id])
    ensures Shows(before, x, ids) == Shows(before, y, ids) && Moves(before, x, ids) == Moves(before, y, ids)
  {
    hide Shown, PaymentsMoved;
    if ids == [] {
    } else {
      ShowsFrame(before, x, y, ids[..|ids| - 1]);
      assert ids[|ids| - 1] in ids;
    }
  }

  /** The log and the counts have grown by what the listed orders show. */
  ghost predicate Tells(b: Book, c: Book, ids: seq<OrderId>) {
    && c.log == b.log + Shows(b.orders, c.orders, ids)
    && c.ordersUpdated == b.ordersUpdated + |Shows(b.orders, c.orders, ids)|
    && c.paymentsUpdated == b.paymentsUpdated + Moves(b.orders, c.orders, ids)
  }

  lemma AbsorbTells(b: Book, c: Book, before: seq<OrderId>, id: OrderId, a: Advance)
    requires Tells(b, c, before) && id !in before
    requires id in b.orders && id in c.orders && c.orders[id] == b.orders[id]
    requires a.plan == (if a.purchase == b.orders[id] then None else Some(Shown(b.orders[id], a.purchase)))
    requires a.ordersUpdated == (if a.purchase == b.orders[id] then 0 else 1)
    requires a.paymentsUpdated == (if PaymentsMoved(b.orders[id], a.purchase) then |b.orders[id].payments| else 0)
    ensures Tells(b, Absorb(c, id, a), before + [id])
  {
    hide Shown, PaymentsMoved;
    ShowsFrame(b.orders, c.orders, Absorb(c, id, a).orders, before);
    assert (before + [id])[..|before|] == before;
  }

  lemma UnlistedTells(b: Book, c: Book, before: seq<OrderId>, id: OrderId)
    requires Tells(b, c, before) && id !in b.orders
    ensures Tells(b, c, before + [id])
  {
    assert (before + [id])[..|before|] == before;
  }

  /** One order after a run: advanced to its next stage when that has come, and as it was otherwise. */
  ghost predicate AdvancedAs(x: Purchase, y: Purchase, draw: Draw, scale: Scale, now: int) {
    && (!IsDue(x.order, draw, scale, now) ==> y == x)
    && (forall t :: IsDue(x.order, draw, scale, now) && IsNextEvent(x.order, draw, scale, t) ==>
          exists a: Advance :: a.purchase == y && IsAdvanced(x, a, draw, t, now))
  }

  lemma AdvanceIsAs(x: Purchase, draw: Draw, scale: Scale, now: int, held: bool)
    requires PurchaseOk(x) && x.order.updatedAt < now && AdvanceOne(x, draw, scale, now, held).Some?
    ensures AdvancedAs(x, AdvanceOne(x, draw, scale, now, held).value.purchase, draw, scale, now)
  {
    hide AdvanceOne, PurchaseOk, IsDue, IsNextEvent, IsAdvanced;
    forall t ensures IsDue(x.order, draw, scale, now) && IsNextEvent(x.order, draw, scale, t) ==>
                       IsAdvanced(x, AdvanceOne(x, draw, scale, now, held).value, draw, t, now)
    {
      AdvanceFollowsTheFields(x, draw, scale, now, held, t);
    }
    AdvanceFollowsTheFields(x, draw, scale, now, held, 0);
  }

  /** The listed orders are advanced as they should be, and no other. */
  ghost predicate AllAdvancedAs(orders: Orders, later: Orders, ids: seq<OrderId>, draws: Draws, scale: Scale,
                                now: int)
  {
    && later.Keys == orders.Keys
    && (forall id :: id in ids && id in orders ==> AdvancedAs(orders[id], later[id], draws(id), scale, now))
    && (forall id :: id in orders && id !in ids ==> later[id] == orders[id])
  }

  lemma AbsorbAdvances(orders: Orders, c: Book, before: seq<OrderId>, id: OrderId, a: Advance, draws: Draws,
                       scale: Scale, now: int)
    requires AllAdvancedAs(orders, c.orders, before, draws, scale, now) && id in orders && id !in before
    requires AdvancedAs(orders[id], a.purchase, draws(id), scale, now)
    ensures AllAdvancedAs(orders, Absorb(c, id, a).orders, before + [id], draws, scale, now)
  {
    hide AdvancedAs;
  }

  lemma NothingAdvanced(b: Book, draws: Draws, scale: Scale, now: int)
    ensures AllAdvancedAs(b.orders, b.orders, [], draws, scale, now) && Tells(b, b, [])
  {
  }

  lemma UnlistedAdvances(orders: Orders, later: Orders, before: seq<OrderId>, id: OrderId, draws: Draws, scale: Scale,
                         now: int)
    requires AllAdvancedAs(orders, later, before, draws, scale, now) && id !in orders
    ensures AllAdvancedAs(orders, later, before + [id], draws, scale, now)
  {
    hide AdvancedAs;
  }

  /**
   The loop advances every listed order that is due, and logs and counts exactly the changes that the
   rows of the orders and payments show.
   */
  lemma {:induction false} AdvanceAllShows(b: Book, ids: seq<OrderId>, draws: Draws, scale: Scale, now: int, held: Held)
    requires Distinct(ids) && OrdersOk(b.orders) && AllOlder(b.orders, now)
    requires AdvanceAll(b, ids, draws, scale, now, held).Some?
    ensures var c := AdvanceAll(b, ids, draws, scale, now, held).value;
      Tells(b, c, ids) && AllAdvancedAs(b.orders, c.orders, ids, draws, scale, now)
  {
    if ids == [] {
      NothingAdvanced(b, draws, scale, now);
    } else {
      var id, before := ids[|ids| - 1], ids[..|ids| - 1];
      AdvanceAllShows(b, before, draws, scale, now, held);
      assert ids == before + [id];
      assert id !in before;
      var c := AdvanceAll(b, before, draws, scale, now, held).value;
      hide AdvanceOne, PurchaseOk, Tells, AdvancedAs, Shown, PaymentsMoved, Absorb, Distinct;
      if id in b.orders {
        assert c.orders[id] == b.orders[id];
        hide AllAdvancedAs;
        AdvanceIsAs(b.orders[id], draws(id), scale, now, held(id));
        AdvanceShows(b.orders[id], draws(id), scale, now, held(id));
        AbsorbTells(b, c, before, id, AdvanceOne(b.orders[id], draws(id), scale, now, held(id)).value);
        AbsorbAdvances(b.orders, c, before, id, AdvanceOne(b.orders[id], draws(id), scale, now, held(id)).value, draws,
                       scale, now);
      } else {
        UnlistedTells(b, c, before, id);
        UnlistedAdvances(b.orders, c.orders, before, id, draws, scale, now);
      }
    }
  }

  lemma AllContinueTransitive(a: Orders, b: Orders, c: Orders)
    requires AllContinue(a, b) && AllContinue(b, c)
    ensures AllContinue(a, c)
  {
    forall id | id in a ensures id in c && Continues(a[id].order, c[id].order) {
      assert Continues(a[id].order, b[id].order) && Continues(b[id].order, c[id].order);
    }
  }

  lemma NewPurchaseIsOk(now: int, payments: nat)
    requires payments > 0
    ensures PurchaseOk(NewPurchase(now, payments))
  {
  }

  lemma WithNewKeeps(orders: Orders, created: Creations, now: int)
    requires OrdersOk(orders) && forall id :: id in created ==> created[id] > 0
    ensures OrdersOk(WithNew(orders, created, now)) && AllContinue(orders, WithNew(orders, created, now))
  {
    hide PurchaseOk, NewPurchase;
    AllContinueReflexive(orders);
    forall id | id in created ensures PurchaseOk(NewPurchase(now, created[id])) {
      NewPurchaseIsOk(now, created[id]);
    }
    hide Continues;
  }

  lemma WithNewWrites(orders: Orders, later: Orders, created: Creations, now: int)
    requires later.Keys == orders.Keys
    requires forall id :: id in later ==> LeftOrWritten(orders, later, id, now)
    ensures var grown := WithNew(later, created, now);
      forall id :: id in grown ==> LeftOrWritten(orders, grown, id, now)
  {
    var grown := WithNew(later, created, now);
    forall id | id in grown ensures LeftOrWritten(orders, grown, id, now) {
      if id in later {
        assert LeftOrWritten(orders, later, id, now);
      }
    }
  }

  /** A run raises exactly when its guard refuses, its lease is lost, or a new order cannot be created. */
  lemma RunKeeps(orders: Orders, seededAt: int, input: RunInput)
    requires OrdersOk(orders)
    ensures Run(orders, seededAt, input).Some? <==>
      && AllOlder(orders, input.now) && Distinct(input.order)
      && (forall id :: id in input.created ==> CanCreate(orders, input, id))
      && HeldWhenPlanned(orders, Candidates(orders, input.order, seededAt), input.draws, input.scale, input.now,
                         input.held)
    ensures Run(orders, seededAt, input).Some? ==>
      && OrdersOk(Run(orders, seededAt, input).value) && AllContinue(orders, Run(orders, seededAt, input).value)
      && forall id :: id in Run(orders, seededAt, input).value ==>
           LeftOrWritten(orders, Run(orders, seededAt, input).value, id, input.now)
  {
    hide OrdersOk, AllContinue, AdvanceAll, WithNew, AllOlder, Distinct, Candidates, HeldWhenPlanned, LeftOrWritten;
    if AllOlder(orders, input.now) && Distinct(input.order) {
      var ids := Candidates(orders, input.order, seededAt);
      CandidatesDistinct(orders, input.order, seededAt);
      AdvanceAllKeeps(Book(orders, [], 0, 0), ids, input.draws, input.scale, input.now, input.held);
      if Run(orders, seededAt, input).Some? {
        var b := AdvanceAll(Book(orders, [], 0, 0), ids, input.draws, input.scale, input.now, input.held).value;
        WithNewKeeps(b.orders, input.created, input.now);
        AllContinueTransitive(orders, b.orders, Run(orders, seededAt, input).value);
        WithNewWrites(orders, b.orders, input.created, input.now);
      }
    }
  }

  lemma {:induction false} CandidatesAre(orders: Orders, order: seq<OrderId>, seededAt: int, id: OrderId)
    ensures id in Candidates(orders, order, seededAt) <==>
      && id in order && id in orders && orders[id].order.createdAt > seededAt
      && orders[id].order.status != Delivered && orders[id].order.status != Canceled
  {
    if order == [] {
    } else {
      CandidatesAre(orders, order[..|order| - 1], seededAt, id);
      assert order == order[..|order| - 1] + [order[|order| - 1]];
    }
  }

  lemma DueIsUnfinished(o: Order, draw: Draw, scale: Scale, now: int)
    requires IsDue(o, draw, scale, now)
    ensures o.status != Delivered && o.status != Canceled
  {
    hide IsAfter;
  }

  /** A generated order of the listing whose next stage has come. */
  ghost predicate IsTurn(orders: Orders, seededAt: int, input: RunInput, id: OrderId)
    requires id in orders
  {
    && id in input.order && orders[id].order.createdAt > seededAt
    && IsDue(orders[id].order, input.draws(id), input.scale, input.now)
  }

  lemma HeldMeans(orders: Orders, seededAt: int, input: RunInput)
    requires OrdersOk(orders) && AllOlder(orders, input.now)
    ensures HeldWhenPlanned(orders, Candidates(orders, input.order, seededAt), input.draws, input.scale, input.now,
                            input.held)
      <==> forall id :: id in orders && IsTurn(orders, seededAt, input, id) ==> input.held(id)
  {
    hide PlanProgress, IsDue, Candidates, TimesOk, StagesOk;
    forall id | id in orders
      ensures IsTurn(orders, seededAt, input, id) <==>
        && id in Candidates(orders, input.order, seededAt)
        && PlanProgress(input.draws(id), input.scale, orders[id].order, input.now).Some?
    {
      assert PurchaseOk(orders[id]);
      CandidatesAre(orders, input.order, seededAt, id);
      PlanFollowsTheFields(orders[id].order, input.draws(id), input.scale, input.now);
      if IsDue(orders[id].order, input.draws(id), input.scale, input.now) {
        DueIsUnfinished(orders[id].order, input.draws(id), input.scale, input.now);
      }
    }
  }

  lemma TurnIsCandidate(orders: Orders, later: Orders, seededAt: int, input: RunInput, id: OrderId)
    requires id in orders && AllAdvancedAs(orders, later, Candidates(orders, input.order, seededAt), input.draws,
                                           input.scale, input.now)
    ensures if IsTurn(orders, seededAt, input, id)
      then AdvancedAs(orders[id], later[id], input.draws(id), input.scale, input.now)
      else later[id] == orders[id]
  {
    hide IsDue, Candidates, IsAdvanced, IsNextEvent;
    CandidatesAre(orders, input.order, seededAt, id);
    if IsDue(orders[id].order, input.draws(id), input.scale, input.now) {
      DueIsUnfinished(orders[id].order, input.draws(id), input.scale, input.now);
    }
  }

  /** An order as a run creates it: just created, with every payment pending. */
  ghost predicate IsNew(x: Purchase, payments: nat, now: int) {
    && x.order.status == Created && x.order.createdAt == now && x.order.updatedAt == now
    && x.order.approvedAt.None? && x.order.shippedAt.None? && x.order.deliveredAt.None?
    && |x.payments| == payments
    && forall i :: 0 <= i < payments ==>
         && x.payments[i].status == Pending && x.payments[i].initiatedAt == Some(now)
         && x.payments[i].completedAt.None? && x.payments[i].failedAt.None? && x.payments[i].refundedAt.None?
         && x.payments[i].updatedAt == now
  }

  lemma WithNewIs(orders: Orders, created: Creations, now: int)
    ensures var later := WithNew(orders, created, now);
      && later.Keys == orders.Keys + created.Keys
      && (forall id :: id in orders ==> later[id] == orders[id])
      && (forall id :: id in created && id !in orders ==> IsNew(later[id], created[id], now))
  {
  }

  /**
   What a successful run leaves: listed orders that were due have entered their next stage with their
   payments, new orders are pending, and every other order is as it was.  It succeeds if and only if
   every order is older, every new one can be created and the lease is held at every order it advances.
   */
  lemma RunFollowsTheFields(orders: Orders, seededAt: int, input: RunInput)
    requires OrdersOk(orders)
    ensures Run(orders, seededAt, input).Some? <==>
      && (forall id :: id in orders ==> orders[id].order.updatedAt < input.now) && Distinct(input.order)
      && (forall id :: id in input.created ==> id !in orders && input.created[id] > 0 && input.held(id))
      && (forall id :: id in orders && IsTurn(orders, seededAt, input, id) ==> input.held(id))
    ensures Run(orders, seededAt, input).Some? ==>
      var later := Run(orders, seededAt, input).value;
      && later.Keys == orders.Keys + input.created.Keys
      && (forall id :: id in input.created ==> IsNew(later[id], input.created[id], input.now))
      && (forall id :: id in orders ==>
            if IsTurn(orders, seededAt, input, id)
            then AdvancedAs(orders[id], later[id], input.draws(id), input.scale, input.now)
            else later[id] == orders[id])
  {
    hide OrdersOk, AdvanceAll, WithNew, Distinct, Candidates, HeldWhenPlanned, LeftOrWritten, AdvancedAs, IsTurn, IsNew,
         AllContinue;
    RunKeeps(orders, seededAt, input);
    if AllOlder(orders, input.now) {
      HeldMeans(orders, seededAt, input);
    }
    if Run(orders, seededAt, input).Some? {
      var ids := Candidates(orders, input.order, seededAt);
      CandidatesDistinct(orders, input.order, seededAt);
      AdvanceAllShows(Book(orders, [], 0, 0), ids, input.draws, input.scale, input.now, input.held);
      var b := AdvanceAll(Book(orders, [], 0, 0), ids, input.draws, input.scale, input.now, input.held).value;
      WithNewIs(b.orders, input.created, input.now);
      forall id | id in orders
        ensures if IsTurn(orders, seededAt, input, id)
          then AdvancedAs(orders[id], b.orders[id], input.draws(id), input.scale, input.now)
          else b.orders[id] == orders[id]
      {
        TurnIsCandidate(orders, b.orders, seededAt, input, id);
      }
    }
  }

  /** Whatever a run records about an order lies at or before the run's own date. */
  lemma RecordedByRun(orders: Orders, seededAt: int, input: RunInput, id: OrderId)
    requires OrdersOk(orders) && Run(orders, seededAt, input).Some? && id in Run(orders, seededAt, input).value
    ensures var o := Run(orders, seededAt, input).value[id].order;
      || (id in orders && o == orders[id].order)
      || (&& o.updatedAt == input.now && o.createdAt <= input.now
          && (o.approvedAt.Some? ==> o.approvedAt.value <= input.now)
          && (o.shippedAt.Some? ==> o.shippedAt.value <= input.now)
          && (o.deliveredAt.Some? ==> o.deliveredAt.value <= input.now))
  {
    hide Run, AllContinue, HeldWhenPlanned, AllOlder;
    RunKeeps(orders, seededAt, input);
    var later := Run(orders, seededAt, input).value;
    assert PurchaseOk(later[id]) && LeftOrWritten(orders, later, id, input.now);
  }

  /**
   Over every sequence of runs, with any seeds and any scales, every order stays sound, and
   what a run recorded is never changed by a later one.
   */
  lemma {:induction false} RunsKeep(orders: Orders, seededAt: int, inputs: seq<RunInput>)
    requires OrdersOk(orders)
    ensures OrdersOk(RunAll(orders, seededAt, inputs)) && AllContinue(orders, RunAll(orders, seededAt, inputs))
    decreases |inputs|
  {
    hide OrdersOk, AllContinue, Run;
    if inputs == [] {
      AllContinueReflexive(orders);
    } else {
      RunKeeps(orders, seededAt, inputs[0]);
      match Run(orders, seededAt, inputs[0]) {
        case Some(later) =>
          RunsKeep(later, seededAt, inputs[1..]);
          AllContinueTransitive(orders, later, RunAll(orders, seededAt, inputs));
        case None =>
          RunsKeep(orders, seededAt, inputs[1..]);
      }
    }
  }

  /** Order lifecycle: created, approved, shipped and delivered in order, payments linked to the status. */
  lemma EveryOrderInOrder(seededAt: int, inputs: seq<RunInput>, id: OrderId)
    requires id in RunAll(map[], seededAt, inputs)
    ensures var x := RunAll(map[], seededAt, inputs)[id];
      var o := x.order;
      && (o.status.Approved? || o.status.Shipped? || o.status.Delivered? ==> o.approvedAt.Some?)
      && (o.approvedAt.Some? ==> !o.status.Created? && o.createdAt <= o.approvedAt.value <= o.updatedAt)
      && (o.status.Shipped? || o.status.Delivered? ==>
            o.shippedAt.Some? && o.approvedAt.value < o.shippedAt.value <= o.updatedAt)
      && (o.status.Delivered? ==>
            o.deliveredAt.Some? && o.shippedAt.value < o.deliveredAt.value <= o.updatedAt)
      && x.payments != []
      && (forall p :: p in x.payments ==>
            && (p.status.Pending? <==> o.status.Created?)
            && (p.status.Completed? <==> o.status.Approved? || o.status.Shipped? || o.status.Delivered?)
            && (p.status.Failed? <==> o.status.Canceled? && o.approvedAt.None?)
            && (p.status.Refunded? <==> o.status.Canceled? && o.approvedAt.Some?))
  {
    hide RunAll;
    RunsKeep(map[], seededAt, inputs);
    assert PurchaseOk(RunAll(map[], seededAt, inputs)[id]);
  }
}
