/**
 Subscription contracts over whole generator runs.

 The store keeps every account and the row counts and log of the running transaction.  The
 expiry scan is proved equal to a fold of `Billing.Visit` over all contracts in the order of
 the listing, although it only reads the contracts its SQL filter selects.  A raised error
 rolls the transaction back, so the state after a refused call is not specified.
 */
module SubscriptionRuns {
  import opened Billing

  type Accounts = map<ContractId, Account>

  datatype Book = Book(accounts: Accounts, log: seq<LogRow>, updated: nat, skipped: nat, inserted: nat)

  /** The effect of one visit on the book. */
  function Absorb(b: Book, id: ContractId, v: Visited): Book {
    Book(b.accounts[id := v.account], b.log + v.log, b.updated + v.updated, b.skipped + v.skipped,
         b.inserted + v.inserted)
  }

  function VisitIn(b: Book, id: ContractId, now: int, outcome: Outcome, forced: Option<ContractId>): Option<Book> {
    if id !in b.accounts then Some(b) else
      match Visit(b.accounts[id], now, outcome, forced == Some(id))
      case Some(v) => Some(Absorb(b, id, v))
      case None => None
  }

  /** The scan body over a list of contracts; `None` once a visit raises. */
  function Scan(b: Book, ids: seq<ContractId>, now: int, outcome: Outcome, forced: Option<ContractId>): Option<Book> {
    if ids == [] then Some(b) else
      match Scan(b, ids[..|ids| - 1], now, outcome, forced)
      case Some(c) => VisitIn(c, ids[|ids| - 1], now, outcome, forced)
      case None => None
  }

  /** The contracts the SQL filter selects, in listing order. */
  function DueIds(accounts: Accounts, order: seq<ContractId>, now: int): seq<ContractId> {
    if order == [] then [] else
      var id := order[|order| - 1];
      DueIds(accounts, order[..|order| - 1], now)
        + (if id in accounts && IsDue(accounts[id].contract, now) then [id] else [])
  }

  predicate Distinct(ids: seq<ContractId>) {
    forall i, k :: 0 <= i < k < |ids| ==> ids[i] != ids[k]
  }

  // ---------------------------------------------------------------------------------------
  // The due filter loses nothing
  // ---------------------------------------------------------------------------------------

  /** A scan leaves the accounts of other contracts alone and drops none. */
  lemma {:induction false} ScanFrame(b: Book, ids: seq<ContractId>, now: int, outcome: Outcome,
                                     forced: Option<ContractId>)
    ensures var c := Scan(b, ids, now, outcome, forced);
      c.Some? ==>
        && c.value.accounts.Keys == b.accounts.Keys
        && forall id :: id in b.accounts && id !in ids ==> c.value.accounts[id] == b.accounts[id]
  {
    hide Visit;
    if ids == [] {
    } else {
      ScanFrame(b, ids[..|ids| - 1], now, outcome, forced);
    }
  }

  /** Which contracts the filter selects, told on their fields. */
  lemma {:induction false} FilterSelects(accounts: Accounts, order: seq<ContractId>, now: int, id: ContractId)
    ensures id in DueIds(accounts, order, now) <==>
      && id in order && id in accounts
      && var c := accounts[id].contract;
      && c.updatedAt < now
      && (|| ((c.status == CancelRequested || c.status == PaymentFailed)
              && c.periodEnd.Some? && c.periodEnd.value <= now)
          || ((c.status == PaymentFailed || (c.status == Active && c.autoRenew))
              && c.nextAttempt.Some? && c.nextAttempt.value <= now))
  {
    if order == [] {
    } else {
      FilterSelects(accounts, order[..|order| - 1], now, id);
      assert order == order[..|order| - 1] + [order[|order| - 1]];
    }
  }

  lemma AbsorbNothing(b: Book, id: ContractId)
    requires id in b.accounts
    ensures Absorb(b, id, Visited(b.accounts[id], [], 0, 0, 0)) == b
  {
    assert b.accounts[id := b.accounts[id]] == b.accounts;
  }

  /**
   Scanning the contracts that the filter selects gives the same contracts, payments, log and
   counts as running the scan body over every contract.
   */
  lemma {:induction false} DueScanIsFullScan(b: Book, order: seq<ContractId>, now: int, outcome: Outcome,
                                             forced: Option<ContractId>)
    requires Distinct(order)
    ensures Scan(b, DueIds(b.accounts, order, now), now, outcome, forced) == Scan(b, order, now, outcome, forced)
  {
    hide Visit, IsDue, Absorb;
    if order == [] {
    } else {
      var id, before := order[|order| - 1], order[..|order| - 1];
      DueScanIsFullScan(b, before, now, outcome, forced);
      ScanFrame(b, before, now, outcome, forced);
      var c := Scan(b, before, now, outcome, forced);
      var due := DueIds(b.accounts, before, now);
      if id in b.accounts && IsDue(b.accounts[id].contract, now) {
        assert (due + [id])[..|due|] == due;
      } else if id in b.accounts && c.Some? {
        assert due + [] == due;
        assert id !in before;
        NotDueIsUntouched(b.accounts[id], now, outcome, forced == Some(id));
        AbsorbNothing(c.value, id);
      } else {
        assert due + [] == due;
      }
    }
  }

  /** Storing the contract after its payment row is one visit with both effects. */
  lemma StoreAfterPayment(b: Book, id: ContractId, a: Account, payments: seq<Payment>, record: Option<Contract>,
                          row: LogRow, rest: seq<LogRow>)
    requires id in b.accounts && b.accounts[id] == a && |a.payments| <= |payments|
    ensures var billed, n := a.(payments := payments), |payments| - |a.payments|;
      var paid := b.(accounts := b.accounts[id := billed], inserted := b.inserted + n, log := b.log + [row]);
      var stored, both := Billing.Store(billed, record, [], 0), Billing.Store(billed, record, [row] + rest, n);
      && stored.Some? == both.Some?
      && (both.Some? ==>
            var after := Absorb(paid, id, stored.value); after.(log := after.log + rest) == Absorb(b, id, both.value))
  {
    hide ValidContract;
    var billed, n := a.(payments := payments), |payments| - |a.payments|;
    var both := Billing.Store(billed, record, [row] + rest, n);
    if both.Some? {
      assert b.accounts[id := billed][id := both.value.account] == b.accounts[id := both.value.account];
    }
  }

  /** One account is replaced, and the log and the counts grow by those of its visit. */
  ghost predicate Gains(b: Book, c: Book, id: ContractId, v: Visited) {
    && c.accounts.Keys == b.accounts.Keys && id in c.accounts && c.accounts[id] == v.account
    && (forall k :: k in b.accounts && k != id ==> c.accounts[k] == b.accounts[k])
    && c.log == b.log + v.log && c.updated == b.updated + v.updated && c.skipped == b.skipped + v.skipped
    && c.inserted == b.inserted + v.inserted
  }

  /** The contract is billed, and its payment, log row and counts are recorded. */
  ghost predicate RecordsBill(b: Book, c: Book, id: ContractId, now: int, outcome: Outcome, forced: bool)
    requires id in b.accounts
  {
    exists v :: IsBilled(b.accounts[id], v, now, outcome, forced) && Gains(b, c, id, v)
  }

  /** The contract is ended, and its log row and count are recorded. */
  ghost predicate RecordsEnd(b: Book, c: Book, id: ContractId, now: int)
    requires id in b.accounts
  {
    exists v :: IsEnded(b.accounts[id], v, now) && Gains(b, c, id, v)
  }

  /** Exactly a due contract is billed and exactly an expired one ended; only a renewal can be forced to fail. */
  ghost predicate RecordsVisit(b: Book, c: Book, id: ContractId, now: int, outcome: Outcome, forced: bool)
    requires id in b.accounts
  {
    var contract := b.accounts[id].contract;
    && (IsBillable(contract, now) ==>
          RecordsBill(b, c, id, now, outcome, forced && contract.status == Active))
    && (IsEndable(contract, now) ==> RecordsEnd(b, c, id, now))
    && (!IsBillable(contract, now) && !IsEndable(contract, now) ==> c == b)
  }

  // ---------------------------------------------------------------------------------------
  // The store
  // ---------------------------------------------------------------------------------------

  lemma InsertOnlyGrows(payments: seq<Payment>, p: Payment)
    ensures |payments| <= |InsertPayment(payments, p)|
  {
  }

  lemma BillIsRecorded(b: Book, c: Book, id: ContractId, now: int, outcome: Outcome, forced: bool)
    requires id in b.accounts
    requires var billed := Bill(b.accounts[id], now, outcome, forced); billed.Some? ==> c == Absorb(b, id, billed.value)
    ensures AccountOk(b.accounts[id]) && IsBillable(b.accounts[id].contract, now) ==>
              Bill(b.accounts[id], now, outcome, forced).Some? && RecordsBill(b, c, id, now, outcome, forced)
  {
    hide Bill, AccountOk, IsBillable, IsBilled;
    if AccountOk(b.accounts[id]) && IsBillable(b.accounts[id].contract, now) {
      BillFollowsOutcome(b.accounts[id], now, outcome, forced);
    }
  }

  lemma VisitIsRecorded(b: Book, c: Book, id: ContractId, now: int, outcome: Outcome, forced: bool)
    requires id in b.accounts
    requires var visited := Visit(b.accounts[id], now, outcome, forced);
      visited.Some? ==> c == Absorb(b, id, visited.value)
    ensures AccountOk(b.accounts[id]) ==>
              Visit(b.accounts[id], now, outcome, forced).Some? && RecordsVisit(b, c, id, now, outcome, forced)
  {
    hide Visit, AccountOk, IsBillable, IsEndable, IsBilled, IsEnded;
    if AccountOk(b.accounts[id]) {
      VisitFollowsTheFields(b.accounts[id], now, outcome, forced);
      AbsorbNothing(b, id);
    }
  }

  /** Once a visit has raised, the scan of the whole list raises. */
  lemma {:induction false} ScanStopped(b: Book, ids: seq<ContractId>, i: nat, now: int, outcome: Outcome,
                                       forced: Option<ContractId>)
    requires i < |ids| && Scan(b, ids[..i + 1], now, outcome, forced).None?
    ensures Scan(b, ids, now, outcome, forced).None?
  {
    hide VisitIn;
    if i + 1 < |ids| {
      assert ids[..|ids| - 1][..i + 1] == ids[..i + 1];
      ScanStopped(b, ids[..|ids| - 1], i, now, outcome, forced);
    } else {
      assert ids[..i + 1] == ids;
    }
  }

  class SubscriptionStore {
    var accounts: Accounts
    var log: seq<LogRow>
    var updated: nat
    var skipped: nat
    var inserted: nat

    constructor (accounts: Accounts)
      ensures Current() == Book(accounts, [], 0, 0, 0)
    {
      this.accounts, log, updated, skipped, inserted := accounts, [], 0, 0, 0;
    }

    function Current(): Book
      reads this
    {
      Book(accounts, log, updated, skipped, inserted)
    }

    lemma AbsorbSame(id: ContractId)
      requires id in accounts
      ensures accounts[id := accounts[id]] == accounts
    {
    }

    /** Persists one contract row over the account as it stands. */
    method Persist(id: ContractId, record: Option<Contract>) returns (ok: bool)
      requires id in accounts
      modifies this
      ensures var stored := Billing.Store(old(accounts[id]), record, [], 0);
        && ok == stored.Some?
        && (ok ==> Current() == Absorb(old(Current()), id, stored.value))
      ensures var c := old(accounts[id].contract);
        ok <==> (record.Some? && ValidContract(record.value)
                 && (|| record.value == c
                     || (record.value.createdAt == c.createdAt && c.updatedAt < record.value.updatedAt)))
    {
      if record.None? || !ValidContract(record.value) {
        return false;
      }
      var existing := accounts[id];
      var persisted := PersistContract(existing.contract, record.value);
      match persisted {
        case Refused =>
          return false;
        case Skipped =>
          skipped := skipped + 1;
          AbsorbSame(id);
        case Updated(c) =>
          accounts := accounts[id := existing.(contract := c)];
          updated := updated + 1;
      }
      ok := true;
    }

    method BillAndTransition(id: ContractId, now: int, outcome: Outcome, forced: bool) returns (ok: bool)
      requires id in accounts
      modifies this
      ensures var billed := Bill(old(accounts[id]), now, outcome, forced);
        && ok == billed.Some?
        && (ok ==> Current() == Absorb(old(Current()), id, billed.value))
      ensures AccountOk(old(accounts[id])) && IsBillable(old(accounts[id].contract), now) ==>
                ok && RecordsBill(old(Current()), Current(), id, now, outcome, forced)
    {
      hide PlannedPayment, InsertPayment, ValidContract, ValidPayment, Transitioned, Billing.Store, Absorb, Advanced,
           Retried;
      ghost var start := Current();
      var account := accounts[id];
      var c := account.contract;
      var p := PlannedPayment(account, now, outcome, forced);
      if !ValidPayment(p) {
        BillIsRecorded(start, Current(), id, now, outcome, forced);
        return false;
      }
      var payments := InsertPayment(account.payments, p);
      InsertOnlyGrows(account.payments, p);
      accounts := accounts[id := account.(payments := payments)];
      inserted := inserted + (|payments| - |account.payments|);
      ghost var row := PaymentRow(c.person, c.Id(), p.cycle, p.attempt, p.completed);
      assert [row] + [] == [row];
      assert [row] + [StatusRow(c.person, PaymentFailed)] == [row, StatusRow(c.person, PaymentFailed)];
      log := log + [PaymentRow(c.person, c.Id(), p.cycle, p.attempt, p.completed)];
      if p.completed {
        ok := Persist(id, Some(Advanced(c, p, now)));
        if !c.status.Active? {
          log := log + [StatusRow(c.person, Active)];
          StoreAfterPayment(start, id, account, payments, Some(Advanced(c, p, now)), row,
                            [StatusRow(c.person, Active)]);
        } else {
          StoreAfterPayment(start, id, account, payments, Some(Advanced(c, p, now)), row, []);
          assert log + [] == log;
        }
      } else if c.status.PaymentFailed? {
        ok := Persist(id, Some(Retried(c, now)));
        StoreAfterPayment(start, id, account, payments, Some(Retried(c, now)), row, []);
        assert log + [] == log;
      } else {
        ok := Persist(id, Transitioned(c, PaymentFailed, now));
        log := log + [StatusRow(c.person, PaymentFailed)];
        StoreAfterPayment(start, id, account, payments, Transitioned(c, PaymentFailed, now), row,
                          [StatusRow(c.person, PaymentFailed)]);
      }
      BillIsRecorded(start, Current(), id, now, outcome, forced);
    }

    method VisitContract(id: ContractId, now: int, outcome: Outcome, forced: bool) returns (ok: bool)
      requires id in accounts
      modifies this
      ensures var visited := Visit(old(accounts[id]), now, outcome, forced);
        && ok == visited.Some?
        && (ok ==> Current() == Absorb(old(Current()), id, visited.value))
      ensures AccountOk(old(accounts[id])) ==> ok && RecordsVisit(old(Current()), Current(), id, now, outcome, forced)
    {
      hide Bill, Transitioned, LatestCompleted, ValidContract, AccountOk, RecordsVisit, RecordsBill;
      ghost var start := Current();
      var account := accounts[id];
      var c := account.contract;
      AbsorbSame(id);
      if c.updatedAt >= now {
        VisitIsRecorded(start, Current(), id, now, outcome, forced);
        return true;
      }
      if Expired(c, now) {
        ok := Persist(id, Transitioned(c, Churned, now));
        log := log + [StatusRow(c.person, Churned)];
      } else if RenewalDue(c, now) {
        var latest := LatestCompleted(account.payments);
        if latest.Some? && latest.value.periodEnd > now {
          ok := Persist(id, Some(Realigned(c, latest.value, now)));
          log := log + [RealignedRow(c.person)];
        } else {
          ok := BillAndTransition(id, now, outcome, forced);
        }
      } else if RetryDue(c, now) {
        ok := BillAndTransition(id, now, outcome, false);
      } else {
        ok := true;
      }
      VisitIsRecorded(start, Current(), id, now, outcome, forced);
    }

    /**
     Scans the contracts that are due.  The result is that of the scan body over every
     contract of the listing.
     */
    method RunExpiryScan(order: seq<ContractId>, now: int, outcome: Outcome, forced: Option<ContractId>)
      returns (ok: bool)
      requires Distinct(order)
      modifies this
      ensures var scanned := Scan(old(Current()), order, now, outcome, forced);
        && ok == scanned.Some?
        && (ok ==> Current() == scanned.value)
    {
      hide Visit, IsDue, Absorb, Distinct, AccountOk, RecordsVisit;
      var due := DueIds(accounts, order, now);
      DueScanIsFullScan(Current(), order, now, outcome, forced);
      ghost var start := Current();
      assert due[..0] == [];
      for i := 0 to |due|
        invariant Scan(start, due[..i], now, outcome, forced) == Some(Current())
      {
        assert due[..i + 1][..i] == due[..i];
        if due[i] in accounts {
          var visited := VisitContract(due[i], now, outcome, forced == Some(due[i]));
          if !visited {
            ScanStopped(start, due, i, now, outcome, forced);
            return false;
          }
        }
      }
      assert due[..|due|] == due;
      ok := true;
    }
  }

  // ---------------------------------------------------------------------------------------
  // What one scan does to the accounts
  // ---------------------------------------------------------------------------------------

  ghost predicate Open(a: Account) {
    !a.contract.status.Churned?
  }

  /** Two open contracts of one person. */
  ghost predicate BothOpen(a: Account, b: Account) {
    a.contract.person == b.contract.person && Open(a) && Open(b)
  }

  /** Every account is sound and filed under its id, and a person has at most one open contract. */
  ghost predicate AccountsOk(accounts: Accounts) {
    && (forall id :: id in accounts ==> AccountOk(accounts[id]) && accounts[id].contract.Id() == id)
    && (forall i, k :: i in accounts && k in accounts && BothOpen(accounts[i], accounts[k]) ==> i == k)
  }

  /** The listing holds every contract once. */
  ghost predicate Lists(order: seq<ContractId>, accounts: Accounts) {
    Distinct(order) && forall id :: id in order <==> id in accounts
  }

  /** Contracts, their ids and their payments stay; an ended contract stays as it is. */
  ghost predicate Continues(a: Account, b: Account) {
    && b.contract.Id() == a.contract.Id() && b.contract.createdAt == a.contract.createdAt
    && a.payments <= b.payments && a.contract.updatedAt <= b.contract.updatedAt
    && (!Open(a) ==> b == a)
  }

  ghost predicate AllContinue(accounts: Accounts, later: Accounts) {
    forall id :: id in accounts ==> id in later && Continues(accounts[id], later[id])
  }

  /** The scan visits each listed contract once and never raises. */
  lemma {:induction false} ScanVisitsEach(b: Book, ids: seq<ContractId>, now: int, outcome: Outcome,
                                          forced: Option<ContractId>)
    requires Distinct(ids) && forall id :: id in b.accounts ==> AccountOk(b.accounts[id])
    ensures var c := Scan(b, ids, now, outcome, forced);
      && c.Some? && c.value.accounts.Keys == b.accounts.Keys && c.value.skipped == b.skipped
      && forall id :: id in ids && id in b.accounts ==>
           Visit(b.accounts[id], now, outcome, forced == Some(id)).Some?
           && c.value.accounts[id] == Visit(b.accounts[id], now, outcome, forced == Some(id)).value.account
  {
    hide Visit, AccountOk;
    if ids == [] {
    } else {
      var id, before := ids[|ids| - 1], ids[..|ids| - 1];
      ScanVisitsEach(b, before, now, outcome, forced);
      ScanFrame(b, before, now, outcome, forced);
      assert ids == before + [id];
      if id in b.accounts {
        assert id !in before;
        VisitKeeps(b.accounts[id], now, outcome, forced == Some(id));
      }
    }
  }

  lemma TouchedContinues(a: Account, b: Account, now: int)
    requires Touched(a, b, now)
    ensures Continues(a, b)
  {
  }

  lemma ContinuingKeepsIds(accounts: Accounts, later: Accounts)
    requires AccountsOk(accounts) && later.Keys == accounts.Keys && AllContinue(accounts, later)
    requires forall id :: id in later ==> AccountOk(later[id])
    ensures AccountsOk(later)
  {
    hide AccountOk;
    forall id | id in later ensures later[id].contract.Id() == id && (Open(later[id]) ==> Open(accounts[id])) {
      assert Continues(accounts[id], later[id]);
    }
  }

  lemma ScanKeeps(b: Book, order: seq<ContractId>, now: int, outcome: Outcome, forced: Option<ContractId>)
    requires AccountsOk(b.accounts) && Lists(order, b.accounts)
    ensures var c := Scan(b, order, now, outcome, forced);
      c.Some? && AccountsOk(c.value.accounts) && AllContinue(b.accounts, c.value.accounts)
      && c.value.accounts.Keys == b.accounts.Keys
  {
    hide Visit, AccountOk, Scan, Touched, Continues;
    ScanVisitsEach(b, order, now, outcome, forced);
    var later := Scan(b, order, now, outcome, forced).value.accounts;
    forall id | id in b.accounts
      ensures AccountOk(later[id]) && Continues(b.accounts[id], later[id])
    {
      assert id in order;
      VisitKeeps(b.accounts[id], now, outcome, forced == Some(id));
      TouchedContinues(b.accounts[id], later[id], now);
    }
    ContinuingKeepsIds(b.accounts, later);
  }

  lemma EmptyScan(b: Book, now: int, outcome: Outcome, forced: Option<ContractId>)
    ensures Scan(b, [], now, outcome, forced) == Some(b)
  {
  }

  lemma VisitedIsNotDue(a: Account, now: int, outcome: Outcome, forced: bool)
    requires AccountOk(a)
    ensures var b := Visit(a, now, outcome, forced); b.Some? && !IsDue(b.value.account.contract, now)
  {
    hide Visit, AccountOk, Expired, RenewalDue, RetryDue;
    VisitKeeps(a, now, outcome, forced);
    if IsDue(a.contract, now) {
      DueIsTouched(a, now, outcome, forced);
    } else {
      NotDueIsUntouched(a, now, outcome, forced);
    }
  }

  lemma {:induction false} NothingDue(accounts: Accounts, order: seq<ContractId>, now: int)
    requires forall id :: id in accounts ==> !IsDue(accounts[id].contract, now)
    ensures DueIds(accounts, order, now) == []
  {
    hide IsDue;
    if order == [] {
    } else {
      NothingDue(accounts, order[..|order| - 1], now);
    }
  }

  /** A second scan at the same date finds nothing to do. */
  lemma {:induction false} SecondScanIsNoOp(b: Book, order: seq<ContractId>, now: int, outcome: Outcome,
                                            forced: Option<ContractId>, again: Outcome, forcedAgain: Option<ContractId>)
    requires AccountsOk(b.accounts) && Lists(order, b.accounts)
    ensures var c := Scan(b, order, now, outcome, forced);
      && c.Some?
      && DueIds(c.value.accounts, order, now) == []
      && Scan(Book(c.value.accounts, [], 0, 0, 0), order, now, again, forcedAgain)
           == Some(Book(c.value.accounts, [], 0, 0, 0))
  {
    hide Visit, AccountOk, Scan, IsDue;
    ScanVisitsEach(b, order, now, outcome, forced);
    var later := Scan(b, order, now, outcome, forced).value.accounts;
    forall id | id in later ensures !IsDue(later[id].contract, now) {
      assert id in order;
      VisitedIsNotDue(b.accounts[id], now, outcome, forced == Some(id));
    }
    NothingDue(later, order, now);
    DueScanIsFullScan(Book(later, [], 0, 0, 0), order, now, again, forcedAgain);
    EmptyScan(Book(later, [], 0, 0, 0), now, again, forcedAgain);
  }

  // ---------------------------------------------------------------------------------------
  // What the log and the counts of a scan say
  // ---------------------------------------------------------------------------------------

  /** The rows that tell how an account differs: its new payment, then its new status. */
  function Difference(a: Account, d: Account): seq<LogRow> {
    (if |d.payments| > |a.payments| then
       var p := d.payments[|d.payments| - 1];
       [PaymentRow(a.contract.person, ContractId(a.contract.person, a.contract.startedAt), p.cycle, p.attempt,
                   p.completed)]
     else [])
    + (if d.contract.status != a.contract.status then [StatusRow(a.contract.person, d.contract.status)] else [])
  }

  predicate Lengthened(a: Account, d: Account) {
    |d.payments| > |a.payments|
  }

  predicate Rewritten(a: Account, d: Account) {
    d.contract != a.contract
  }

  /** The differences of the listed accounts, in listing order. */
  function Differences(before: Accounts, later: Accounts, ids: seq<ContractId>): seq<LogRow> {
    if ids == [] then [] else
      var id := ids[|ids| - 1];
      Differences(before, later, ids[..|ids| - 1])
        + (if id in before && id in later then Difference(before[id], later[id]) else [])
  }

  function CountOf(before: Accounts, later: Accounts, ids: seq<ContractId>, test: (Account, Account) -> bool): nat {
    if ids == [] then 0 else
      var id := ids[|ids| - 1];
      CountOf(before, later, ids[..|ids| - 1], test)
        + (if id in before && id in later && test(before[id], later[id]) then 1 else 0)
  }

  lemma {:induction false} DifferencesFrame(before: Accounts, x: Accounts, y: Accounts, ids: seq<ContractId>,
                                            test: (Account, Account) -> bool)
    requires forall id :: id in ids ==> (id in x <==> id in y) && (id in x ==> x[id] == y[id])
    ensures Differences(before, x, ids) == Differences(before, y, ids)
    ensures CountOf(before, x, ids, test) == CountOf(before, y, ids, test)
  {
    if ids == [] {
    } else {
      DifferencesFrame(before, x, y, ids[..|ids| - 1], test);
      assert ids[|ids| - 1] in ids;
    }
  }

  lemma VisitTellsWhatChanged(a: Account, now: int, outcome: Outcome, forced: bool)
    requires AccountOk(a)
    ensures var r := Visit(a, now, outcome, forced);
      && r.Some?
      && r.value.log == Difference(a, r.value.account)
      && r.value.inserted == (if Lengthened(a, r.value.account) then 1 else 0)
      && r.value.updated == (if Rewritten(a, r.value.account) then 1 else 0)
  {
    hide Visit, AccountOk, IsGraceEnd, IsNextAttempt;
    VisitFollowsTheFields(a, now, outcome, forced);
  }

  /** The log and the counts have grown by what the listed accounts show. */
  ghost predicate Tells(b: Book, c: Book, ids: seq<ContractId>) {
    && c.log == b.log + Differences(b.accounts, c.accounts, ids)
    && c.inserted == b.inserted + CountOf(b.accounts, c.accounts, ids, Lengthened)
    && c.updated == b.updated + CountOf(b.accounts, c.accounts, ids, Rewritten)
    && c.skipped == b.skipped
  }

  lemma AbsorbTells(b: Book, c: Book, before: seq<ContractId>, id: ContractId, v: Visited)
    requires Tells(b, c, before) && id !in before
    requires id in b.accounts && id in c.accounts && c.accounts[id] == b.accounts[id]
    requires v.log == Difference(b.accounts[id], v.account) && v.skipped == 0
    requires v.inserted == (if Lengthened(b.accounts[id], v.account) then 1 else 0)
    requires v.updated == (if Rewritten(b.accounts[id], v.account) then 1 else 0)
    ensures Tells(b, Absorb(c, id, v), before + [id])
  {
    hide Difference, Lengthened, Rewritten;
    var d := Absorb(c, id, v);
    DifferencesFrame(b.accounts, c.accounts, d.accounts, before, Lengthened);
    DifferencesFrame(b.accounts, c.accounts, d.accounts, before, Rewritten);
    assert (before + [id])[..|before|] == before;
  }

  lemma UnlistedTells(b: Book, c: Book, before: seq<ContractId>, id: ContractId)
    requires Tells(b, c, before) && id !in b.accounts
    ensures Tells(b, c, before + [id])
  {
    assert (before + [id])[..|before|] == before;
  }

  /**
   The log of a scan is the payments and status changes it made, in listing order, and its counts
   are those of the payments added and the contracts changed.
   */
  lemma {:induction false} ScanTellsWhatChanged(b: Book, ids: seq<ContractId>, now: int, outcome: Outcome,
                                                forced: Option<ContractId>)
    requires Distinct(ids) && forall id :: id in b.accounts ==> AccountOk(b.accounts[id])
    ensures var c := Scan(b, ids, now, outcome, forced); c.Some? && Tells(b, c.value, ids)
  {
    if ids == [] {
    } else {
      hide Visit, AccountOk, Difference, Lengthened, Rewritten, Tells, Absorb;
      var id, before := ids[|ids| - 1], ids[..|ids| - 1];
      ScanTellsWhatChanged(b, before, now, outcome, forced);
      ScanFrame(b, before, now, outcome, forced);
      assert ids == before + [id];
      if id in b.accounts {
        VisitTellsWhatChanged(b.accounts[id], now, outcome, forced == Some(id));
        VisitKeeps(b.accounts[id], now, outcome, forced == Some(id));
        AbsorbTells(b, Scan(b, before, now, outcome, forced).value, before, id,
                    Visit(b.accounts[id], now, outcome, forced == Some(id)).value);
      } else {
        UnlistedTells(b, Scan(b, before, now, outcome, forced).value, before, id);
      }
    }
  }

  // ---------------------------------------------------------------------------------------
  // Runs
  // ---------------------------------------------------------------------------------------

  /** The subscription profiles, with the candidate that the deterministic selection picks. */
  datatype Profile =
    | Plain
    | FailPayment(pick: ContractId)
    | RequestCancel(pick: ContractId)
    | Churn(pick: ContractId)
    | StartContract(person: string)

  datatype RunInput = RunInput(now: int, order: seq<ContractId>, outcome: Outcome, profile: Profile)

  predicate FailCandidate(a: Account, now: int) {
    var latest := LatestCompleted(a.payments);
    && a.contract.updatedAt < now && RenewalDue(a.contract, now)
    && !(latest.Some? && latest.value.periodEnd > now)
  }

  predicate CancelCandidate(a: Account, now: int) {
    (a.contract.status.Active? || a.contract.status.PaymentFailed?) && a.contract.updatedAt < now
  }

  predicate ChurnCandidate(a: Account, now: int) {
    && (a.contract.status.PaymentFailed? || a.contract.status.CancelRequested?) && a.contract.updatedAt < now
    && a.contract.periodEnd.Some? && now >= a.contract.periodEnd.value
  }

  ghost predicate HasOpenContract(accounts: Accounts, person: string) {
    exists id :: id in accounts && id.person == person && Open(accounts[id])
  }

  function ForcedBy(profile: Profile): Option<ContractId> {
    if profile.FailPayment? then Some(profile.pick) else None
  }

  function Transition(b: Book, id: ContractId, target: Status, now: int): Option<Book>
    requires id in b.accounts
  {
    match Billing.Store(b.accounts[id], Transitioned(b.accounts[id].contract, target, now), [], 0)
    case Some(v) => Some(Absorb(b, id, v))
    case None => None
  }

  /** The profile's own step, after the scan; `None` where no candidate exists or a step raises. */
  ghost function ApplyProfile(b: Book, now: int, profile: Profile): Option<Book> {
    match profile
    case Plain => Some(b)
    case FailPayment(_) => Some(b)
    case RequestCancel(id) =>
      if id in b.accounts && CancelCandidate(b.accounts[id], now) then Transition(b, id, CancelRequested, now) else None
    case Churn(id) =>
      if id in b.accounts && ChurnCandidate(b.accounts[id], now) then Transition(b, id, Churned, now) else None
    case StartContract(person) =>
      var id := ContractId(person, now);
      var c := NewContract(person, now);
      if HasOpenContract(b.accounts, person) || c.None? || id in b.accounts then None
      else Some(b.(accounts := b.accounts[id := Account(c.value, [])]))
  }

  /** The forward-cursor guard on the contracts. */
  ghost predicate AllOlder(accounts: Accounts, now: int) {
    forall id :: id in accounts ==> accounts[id].contract.updatedAt < now
  }

  /** The subscription part of one generator run; `None` when it raises. */
  ghost function Run(accounts: Accounts, input: RunInput): Option<Accounts> {
    var forced := ForcedBy(input.profile);
    if !AllOlder(accounts, input.now) || !Lists(input.order, accounts) then None
    else if forced.Some? && !(forced.value in accounts && FailCandidate(accounts[forced.value], input.now)) then None
    else
      match Scan(Book(accounts, [], 0, 0, 0), input.order, input.now, input.outcome, forced)
      case None => None
      case Some(b) =>
        match ApplyProfile(b, input.now, input.profile)
        case None => None
        case Some(c) => Some(c.accounts)
  }

  /** A run that raises rolls its transaction back. */
  ghost function RunAll(accounts: Accounts, inputs: seq<RunInput>): Accounts
    decreases |inputs|
  {
    if inputs == [] then accounts else
      match Run(accounts, inputs[0])
      case Some(later) => RunAll(later, inputs[1..])
      case None => RunAll(accounts, inputs[1..])
  }

  lemma CancelKeeps(a: Account, now: int)
    requires AccountOk(a) && CancelCandidate(a, now)
    ensures var c := Changed(a.contract, CancelRequested, now);
      && Billing.Store(a, Transitioned(a.contract, CancelRequested, now), [], 0)
           == Some(Visited(Account(c, a.payments), [], 1, 0, 0))
      && AccountOk(Account(c, a.payments)) && Continues(a, Account(c, a.payments))
      && IsCancelled(a.contract, c, now)
  {
    hide WellSequenced, CycleStart;
    forall p | p in a.payments ensures PaymentOk(a.contract.startedAt, p, now) {
      assert PaymentOk(a.contract.startedAt, p, a.contract.updatedAt);
    }
  }

  lemma ReplaceKeeps(accounts: Accounts, id: ContractId, a: Account)
    requires AccountsOk(accounts) && id in accounts && AccountOk(a) && Continues(accounts[id], a)
    ensures AccountsOk(accounts[id := a]) && AllContinue(accounts, accounts[id := a])
  {
    hide AccountOk;
    var later := accounts[id := a];
    forall k | k in accounts ensures Continues(accounts[k], later[k]) {
    }
    ContinuingKeepsIds(accounts, later);
  }

  lemma AddKeeps(accounts: Accounts, id: ContractId, a: Account)
    requires AccountsOk(accounts) && id !in accounts && AccountOk(a) && a.contract.Id() == id
    requires !HasOpenContract(accounts, id.person)
    ensures AccountsOk(accounts[id := a]) && AllContinue(accounts, accounts[id := a])
  {
    hide AccountOk;
    forall k | k in accounts
      ensures accounts[id := a][k] == accounts[k] && (k.person == id.person ==> !Open(accounts[k]))
    {
    }
  }

  /** After the scan of a run no contract is left for the churn profile to end. */
  lemma ScanLeavesNoChurnCandidate(b: Book, order: seq<ContractId>, now: int, outcome: Outcome,
                                   forced: Option<ContractId>, id: ContractId)
    requires AccountsOk(b.accounts) && Lists(order, b.accounts) && AllOlder(b.accounts, now)
    requires Scan(b, order, now, outcome, forced).Some? && id in Scan(b, order, now, outcome, forced).value.accounts
    ensures !ChurnCandidate(Scan(b, order, now, outcome, forced).value.accounts[id], now)
  {
    hide Visit, AccountOk, Scan;
    ScanVisitsEach(b, order, now, outcome, forced);
    assert id in b.accounts && id in order;
    VisitedIsNotExpired(b.accounts[id], now, outcome, forced == Some(id));
  }

  /** A run with the churn profile always raises: its own scan has ended every candidate. */
  lemma ChurnProfileAlwaysRaises(accounts: Accounts, input: RunInput)
    requires AccountsOk(accounts) && input.profile.Churn?
    ensures Run(accounts, input).None?
  {
    hide AccountsOk, Scan, ChurnCandidate, Lists, AllOlder;
    var b := Book(accounts, [], 0, 0, 0);
    if AllOlder(accounts, input.now) && Lists(input.order, accounts) {
      ScanKeeps(b, input.order, input.now, input.outcome, None);
      var c := Scan(b, input.order, input.now, input.outcome, None);
      if input.profile.pick in c.value.accounts {
        ScanLeavesNoChurnCandidate(b, input.order, input.now, input.outcome, None, input.profile.pick);
      }
    }
  }

  lemma AllContinueTransitive(a: Accounts, b: Accounts, c: Accounts)
    requires AllContinue(a, b) && AllContinue(b, c)
    ensures AllContinue(a, c)
  {
    forall id | id in a ensures id in c && Continues(a[id], c[id]) {
      assert Continues(a[id], b[id]) && Continues(b[id], c[id]);
    }
  }

  lemma StartedIsOk(person: string, now: int)
    requires NewContract(person, now).Some?
    ensures var a := Account(NewContract(person, now).value, []);
      AccountOk(a) && a.contract.Id() == ContractId(person, now)
  {
    NewContractIsOk(person, now);
  }

  lemma ProfileKeeps(b: Book, now: int, profile: Profile)
    requires AccountsOk(b.accounts) && !profile.Churn? && ApplyProfile(b, now, profile).Some?
    ensures AccountsOk(ApplyProfile(b, now, profile).value.accounts)
    ensures AllContinue(b.accounts, ApplyProfile(b, now, profile).value.accounts)
  {
    hide AccountOk, Billing.Store, Transitioned, HasOpenContract, Changed, NewContract;
    match profile {
      case RequestCancel(id) =>
        CancelKeeps(b.accounts[id], now);
        var a := b.accounts[id];
        ReplaceKeeps(b.accounts, id, Account(Changed(a.contract, CancelRequested, now), a.payments));
      case StartContract(person) =>
        StartedIsOk(person, now);
        AddKeeps(b.accounts, ContractId(person, now), Account(NewContract(person, now).value, []));
      case _ =>
    }
  }

  /** A run keeps every account sound and every ended contract as it is. */
  lemma RunKeeps(accounts: Accounts, input: RunInput)
    requires AccountsOk(accounts) && Run(accounts, input).Some?
    ensures AccountsOk(Run(accounts, input).value) && AllContinue(accounts, Run(accounts, input).value)
  {
    hide AccountsOk, AllContinue, Scan, Lists, AllOlder, ApplyProfile, FailCandidate;
    var b := Book(accounts, [], 0, 0, 0);
    ScanKeeps(b, input.order, input.now, input.outcome, ForcedBy(input.profile));
    var c := Scan(b, input.order, input.now, input.outcome, ForcedBy(input.profile)).value;
    if input.profile.Churn? {
      ChurnProfileAlwaysRaises(accounts, input);
    } else {
      ProfileKeeps(c, input.now, input.profile);
      AllContinueTransitive(accounts, c.accounts, Run(accounts, input).value);
    }
  }

  /** What a visit leaves of a contract, told on its fields. */
  ghost predicate VisitedAs(a: Account, d: Account, now: int, outcome: Outcome, forced: bool) {
    && (IsBillable(a.contract, now) ==>
          exists v: Visited :: v.account == d && IsBilled(a, v, now, outcome, forced && a.contract.status == Active))
    && (IsEndable(a.contract, now) ==> exists v: Visited :: v.account == d && IsEnded(a, v, now))
    && (!IsBillable(a.contract, now) && !IsEndable(a.contract, now) ==> d == a)
  }

  lemma ScanFollowsTheFields(b: Book, order: seq<ContractId>, now: int, outcome: Outcome, forced: Option<ContractId>)
    requires AccountsOk(b.accounts) && Lists(order, b.accounts)
    ensures var c := Scan(b, order, now, outcome, forced);
      && c.Some? && c.value.accounts.Keys == b.accounts.Keys
      && forall id :: id in b.accounts ==>
           VisitedAs(b.accounts[id], c.value.accounts[id], now, outcome, forced == Some(id))
  {
    hide Visit, AccountOk, Scan, IsBilled, IsEnded, IsBillable, IsEndable;
    ScanVisitsEach(b, order, now, outcome, forced);
    var later := Scan(b, order, now, outcome, forced).value.accounts;
    forall id | id in b.accounts
      ensures VisitedAs(b.accounts[id], later[id], now, outcome, forced == Some(id))
    {
      assert id in order;
      VisitFollowsTheFields(b.accounts[id], now, outcome, forced == Some(id));
    }
  }

  /** What the profile asks of the contracts as they are before the run. */
  ghost predicate ProfileFinds(accounts: Accounts, now: int, profile: Profile) {
    match profile
    case Plain => true
    case FailPayment(id) =>
      id in accounts && accounts[id].contract.status == Active && IsBillable(accounts[id].contract, now)
    case RequestCancel(id) =>
      && id in accounts
      && (accounts[id].contract.status == Active || accounts[id].contract.status == PaymentFailed)
      && !IsBillable(accounts[id].contract, now) && !IsEndable(accounts[id].contract, now)
    case Churn(_) => false
    case StartContract(person) =>
      && 1 <= |person| <= 64
      && forall id :: id in accounts && id.person == person ==>
           accounts[id].contract.status == Churned || IsEndable(accounts[id].contract, now)
  }

  lemma FailCandidateIs(a: Account, now: int)
    requires AccountOk(a) && a.contract.updatedAt < now
    ensures FailCandidate(a, now) <==> a.contract.status == Active && IsBillable(a.contract, now)
  {
    hide WellSequenced, Spaced, LatestCompleted;
    if a.contract.status == Active && IsBillable(a.contract, now) {
      BillableIsDue(a, now);
      RenewalIsUncovered(a, now);
    }
  }

  lemma CancelCandidateIs(a: Account, d: Account, now: int, outcome: Outcome, forced: bool)
    requires a.contract.updatedAt < now && VisitedAs(a, d, now, outcome, forced)
    ensures CancelCandidate(d, now) <==>
      && (a.contract.status == Active || a.contract.status == PaymentFailed)
      && !IsBillable(a.contract, now) && !IsEndable(a.contract, now)
    ensures CancelCandidate(d, now) ==> d == a
  {
    hide IsGraceEnd, IsNextAttempt, IsLogged, IsPaidUp, IsInGrace;
  }

  lemma OpenAfterVisit(a: Account, d: Account, now: int, outcome: Outcome, forced: bool)
    requires VisitedAs(a, d, now, outcome, forced)
    ensures Open(d) <==> a.contract.status != Churned && !IsEndable(a.contract, now)
  {
    hide IsGraceEnd, IsNextAttempt, IsLogged;
  }

  lemma OpenAfterScan(accounts: Accounts, later: Accounts, input: RunInput, person: string)
    requires AccountsOk(accounts) && later.Keys == accounts.Keys
    requires forall id :: id in accounts ==>
      VisitedAs(accounts[id], later[id], input.now, input.outcome, ForcedBy(input.profile) == Some(id))
    ensures HasOpenContract(later, person) <==>
      exists id :: id in accounts && id.person == person
                   && accounts[id].contract.status != Churned && !IsEndable(accounts[id].contract, input.now)
  {
    hide AccountOk, VisitedAs, IsEndable, Open;
    forall id | id in accounts
      ensures Open(later[id]) <==>
        accounts[id].contract.status != Churned && !IsEndable(accounts[id].contract, input.now)
    {
      OpenAfterVisit(accounts[id], later[id], input.now, input.outcome, ForcedBy(input.profile) == Some(id));
    }
  }

  lemma SoundAccount(accounts: Accounts, id: ContractId)
    requires AccountsOk(accounts) && id in accounts
    ensures AccountOk(accounts[id]) && accounts[id].contract.Id() == id
  {
    hide AccountOk;
  }

  lemma NewIdIsFree(accounts: Accounts, now: int, id: ContractId)
    requires AccountsOk(accounts) && AllOlder(accounts, now) && id in accounts
    ensures id.startedAt < now
  {
    hide WellSequenced, Spaced, PaymentOk, CycleStart, ActiveOk, FailedOk;
    SoundAccount(accounts, id);
  }

  lemma ProfileSucceedsExactly(b: Book, later: Book, input: RunInput)
    requires AccountsOk(b.accounts) && AllOlder(b.accounts, input.now)
    requires AccountsOk(later.accounts) && later.accounts.Keys == b.accounts.Keys
    requires forall id :: id in b.accounts ==>
      VisitedAs(b.accounts[id], later.accounts[id], input.now, input.outcome, ForcedBy(input.profile) == Some(id))
    requires input.profile.RequestCancel? || input.profile.StartContract?
    ensures ApplyProfile(later, input.now, input.profile).Some? <==> ProfileFinds(b.accounts, input.now, input.profile)
  {
    hide AccountOk, VisitedAs, IsBillable, IsEndable, CancelCandidate, HasOpenContract, Transitioned;
    match input.profile {
      case RequestCancel(id) =>
        if id in b.accounts {
          CancelCandidateIs(b.accounts[id], later.accounts[id], input.now, input.outcome, false);
          if CancelCandidate(later.accounts[id], input.now) {
            CancelKeeps(later.accounts[id], input.now);
          }
        }
      case StartContract(person) =>
        OpenAfterScan(b.accounts, later.accounts, input, person);
        if ContractId(person, input.now) in b.accounts {
          NewIdIsFree(b.accounts, input.now, ContractId(person, input.now));
        }
    }
  }

  /**
   A run succeeds if and only if every contract is older than it, the listing is complete, and its
   profile finds what it asks for among the contracts as they are before the run.
   */
  lemma RunSucceedsExactly(accounts: Accounts, input: RunInput)
    requires AccountsOk(accounts)
    ensures Run(accounts, input).Some? <==>
      && (forall id :: id in accounts ==> accounts[id].contract.updatedAt < input.now)
      && Lists(input.order, accounts) && ProfileFinds(accounts, input.now, input.profile)
  {
    hide AccountsOk, Scan, Lists, FailCandidate, IsBillable, IsEndable, VisitedAs, HasOpenContract;
    if AllOlder(accounts, input.now) && Lists(input.order, accounts) {
      var b := Book(accounts, [], 0, 0, 0);
      ScanKeeps(b, input.order, input.now, input.outcome, ForcedBy(input.profile));
      ScanFollowsTheFields(b, input.order, input.now, input.outcome, ForcedBy(input.profile));
      var later := Scan(b, input.order, input.now, input.outcome, ForcedBy(input.profile)).value;
      match input.profile {
        case FailPayment(id) =>
          if id in accounts {
            SoundAccount(accounts, id);
            FailCandidateIs(accounts[id], input.now);
          }
        case Churn(_) =>
          ChurnProfileAlwaysRaises(accounts, input);
        case Plain =>
        case _ =>
          ProfileSucceedsExactly(b, later, input);
      }
    }
  }

  /** A contract as a profile starts it: ACTIVE and paid up for one period. */
  ghost predicate IsStarted(a: Account, person: string, now: int) {
    var c, end := a.contract, Some(now + SUBSCRIPTION_PERIOD);
    && a.payments == [] && c.person == person && c.status == Active && c.autoRenew
    && c.startedAt == now && c.periodStart == Some(now) && c.periodEnd == end && c.due == end && c.nextAttempt == end
    && c.failedAt.None? && c.cancelRequestedAt.None? && c.endedAt.None?
    && c.statusChangedAt == now && c.createdAt == now && c.updatedAt == now
  }

  /** The contract that a run starts, if its profile starts one. */
  function StartedBy(input: RunInput): set<ContractId> {
    if input.profile.StartContract? then {ContractId(input.profile.person, input.now)} else {}
  }

  /** The picked contract is cancelled; every other is what its visit leaves of it. */
  ghost predicate RunAs(id: ContractId, a: Account, d: Account, input: RunInput) {
    if input.profile == RequestCancel(id)
    then d.payments == a.payments && IsCancelled(a.contract, d.contract, input.now)
    else VisitedAs(a, d, input.now, input.outcome, input.profile == FailPayment(id))
  }

  lemma CancelledRunAs(b: Book, later: Book, input: RunInput, id: ContractId)
    requires AccountsOk(b.accounts) && AllOlder(b.accounts, input.now)
    requires AccountsOk(later.accounts) && later.accounts.Keys == b.accounts.Keys
    requires forall k :: k in b.accounts ==>
      VisitedAs(b.accounts[k], later.accounts[k], input.now, input.outcome, ForcedBy(input.profile) == Some(k))
    requires input.profile == RequestCancel(id) && ApplyProfile(later, input.now, input.profile).Some?
    ensures var after := ApplyProfile(later, input.now, input.profile).value.accounts;
      && after.Keys == b.accounts.Keys
      && forall k :: k in b.accounts ==> RunAs(k, b.accounts[k], after[k], input)
  {
    hide AccountOk, VisitedAs, CancelCandidate, Transitioned, Changed, IsCancelled;
    var a := later.accounts[id];
    CancelCandidateIs(b.accounts[id], a, input.now, input.outcome, false);
    CancelKeeps(a, input.now);
  }

  lemma StartedRunAs(b: Book, later: Book, input: RunInput)
    requires AccountsOk(b.accounts) && AllOlder(b.accounts, input.now) && input.profile.StartContract?
    requires later.accounts.Keys == b.accounts.Keys
    requires forall k :: k in b.accounts ==>
      VisitedAs(b.accounts[k], later.accounts[k], input.now, input.outcome, false)
    requires ApplyProfile(later, input.now, input.profile).Some?
    ensures var after := ApplyProfile(later, input.now, input.profile).value.accounts;
      && after.Keys == b.accounts.Keys + StartedBy(input)
      && (forall id :: id in StartedBy(input) ==> id !in b.accounts && IsStarted(after[id], id.person, input.now))
      && (forall k :: k in b.accounts ==> RunAs(k, b.accounts[k], after[k], input))
  {
    hide AccountsOk, VisitedAs, HasOpenContract, AllOlder;
  }

  /**
   What a successful run leaves: due contracts billed by the outcome of their attempt, expired ones
   ended, the picked one cancelled, a new one started, and every other contract as it was.
   */
  lemma RunFollowsTheFields(accounts: Accounts, input: RunInput)
    requires AccountsOk(accounts) && Run(accounts, input).Some?
    ensures var later := Run(accounts, input).value;
      && later.Keys == accounts.Keys + StartedBy(input)
      && (forall id :: id in StartedBy(input) ==>
            id !in accounts && IsStarted(later[id], id.person, input.now))
      && (forall id :: id in accounts ==> RunAs(id, accounts[id], later[id], input))
  {
    hide AccountsOk, Scan, Lists, FailCandidate, VisitedAs, HasOpenContract, IsCancelled, IsStarted, NewContract;
    var b := Book(accounts, [], 0, 0, 0);
    ScanKeeps(b, input.order, input.now, input.outcome, ForcedBy(input.profile));
    ScanFollowsTheFields(b, input.order, input.now, input.outcome, ForcedBy(input.profile));
    var later := Scan(b, input.order, input.now, input.outcome, ForcedBy(input.profile)).value;
    match input.profile {
      case RequestCancel(id) =>
        CancelledRunAs(b, later, input, id);
      case StartContract(_) =>
        StartedRunAs(b, later, input);
      case Churn(_) =>
        ChurnProfileAlwaysRaises(accounts, input);
      case _ =>
    }
  }

  lemma AllContinueReflexive(accounts: Accounts)
    ensures AllContinue(accounts, accounts)
  {
  }

  /**
   Over every sequence of runs from sound accounts: every account stays sound (and so has the
   closed form, the tiling and the retry bound proved in `Billing`), a person never has two
   open contracts, payments are only appended, and an ended contract is never touched again.
   */
  lemma {:induction false} RunsKeep(accounts: Accounts, inputs: seq<RunInput>)
    requires AccountsOk(accounts)
    ensures AccountsOk(RunAll(accounts, inputs)) && AllContinue(accounts, RunAll(accounts, inputs))
    decreases |inputs|
  {
    hide AccountsOk, AllContinue, Run;
    if inputs == [] {
      AllContinueReflexive(accounts);
    } else {
      match Run(accounts, inputs[0]) {
        case Some(later) =>
          RunKeeps(accounts, inputs[0]);
          RunsKeep(later, inputs[1..]);
          AllContinueTransitive(accounts, later, RunAll(accounts, inputs));
        case None =>
          RunsKeep(accounts, inputs[1..]);
      }
    }
  }

  /** From no contracts: every payment obeys the closed form, and a cycle is attempted at most four times. */
  lemma EveryPaymentObeys(inputs: seq<RunInput>, id: ContractId, p: Payment)
    requires id in RunAll(map[], inputs) && p in RunAll(map[], inputs)[id].payments
    ensures p.periodStart == id.startedAt + p.cycle * SUBSCRIPTION_PERIOD
    ensures p.periodEnd == p.periodStart + SUBSCRIPTION_PERIOD
    ensures 1 <= p.attempt <= 4
    ensures CycleCount(RunAll(map[], inputs)[id].payments, p.cycle) <= 4
  {
    hide RunAll, AccountOk, CycleCount;
    RunsKeep(map[], inputs);
    BillingClosedForm(RunAll(map[], inputs)[id], p);
    AtMostFourAttempts(RunAll(map[], inputs)[id], p.cycle);
  }

  lemma NoAccountsOk()
    ensures AccountsOk(map[])
  {
  }

  /** In every history the completed periods tile time and every earlier cycle was completed once, last. */
  lemma EveryHistoryTiles(inputs: seq<RunInput>, id: ContractId, cycle: int)
    requires id in RunAll(map[], inputs)
    ensures var payments := RunAll(map[], inputs)[id].payments;
      && (forall i :: 0 < i < |Completed(payments)| ==>
            Completed(payments)[i].periodStart == Completed(payments)[i - 1].periodEnd)
      && (1 <= cycle <= MaxCycle(payments) ==> exists i :: 0 <= i < |payments| && payments[i].cycle == cycle)
      && (1 <= cycle < MaxCycle(payments) ==> exists i :: EndsItsCycle(payments, i) && payments[i].cycle == cycle)
  {
    hide RunAll, AccountsOk, Completed, WellSequenced, ValidContract, MaxCycle, EndsItsCycle;
    NoAccountsOk();
    RunsKeep(map[], inputs);
    var a := RunAll(map[], inputs)[id];
    SoundAccount(RunAll(map[], inputs), id);
    CompletedPeriodsTile(a);
    if 1 <= cycle <= MaxCycle(a.payments) {
      CyclesHaveNoGaps(a.payments, cycle);
      if cycle < MaxCycle(a.payments) {
        QueriesReadTheEnd(a.payments);
        EarlierCyclesEndOnce(a.payments, cycle);
      }
    }
  }
}
