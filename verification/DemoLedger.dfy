// The re-runnable part of the demonstration seed: ten best-seller orders an hour
// apart, and the closed cash shift that holds their payments. A run may stop between
// any two writes; the payment transaction is one write.
module DemoLedger {
  import opened Prelude

  const HOUR := 60 * 60 * 1_000
  const MINUTE := 60_000

  datatype Sale = Sale(product: string, quantity: nat)

  const SALES := [
    Sale("香酥雞排", 3), Sale("香酥雞排", 3), Sale("香酥雞排", 3),
    Sale("香酥雞排", 3), Sale("地瓜薯條", 4), Sale("地瓜薯條", 2),
    Sale("地瓜薯條", 2), Sale("台式鹽酥雞", 1), Sale("台式鹽酥雞", 1),
    Sale("台式鹽酥雞", 1)]

  const COUNT: nat := 10

  function SaleAt(i: nat): Sale
    requires i < COUNT
  {
    SALES[i]
  }

  type Price = n: nat | 0 < n witness 1

  type Prices = string -> Price

  datatype Order = Order(total: nat, createdAt: int, paidAt: int, completedAt: int, cancelled: bool)

  datatype Item = Item(product: string, unitPrice: nat, quantity: nat)

  datatype Definition = Definition(order: nat, amount: nat, paidAt: int)

  datatype Payment = Payment(inDemoShift: bool, amount: nat, cashReceived: nat, paidAt: int)

  datatype Status = OPEN | CLOSED | OTHER

  datatype Shift = Shift(status: Status, openedAt: int, closedAt: Option<int>, expected: nat, counted: nat, variance: int)

  // Orders, items and payments of the demonstration, by position of the sale.
  datatype Ledger = Ledger(orders: map<nat, Order>, items: map<nat, Item>, payments: map<nat, Payment>, shift: Option<Shift>)

  const EMPTY := Ledger(map[], map[], map[], None)

  // ---- What a run writes, given the time of the first order ----

  function At(base: int, i: nat): int { base - i * HOUR }

  function TotalOf(i: nat, price: Prices): nat
    requires i < COUNT
  {
    price(SaleAt(i).product) * SaleAt(i).quantity
  }

  function OrderFor(i: nat, base: int, price: Prices): Order
    requires i < COUNT
  {
    Order(TotalOf(i, price), At(base, i), At(base, i), At(base, i), false)
  }

  function ItemFor(i: nat, price: Prices): Item
    requires i < COUNT
  {
    Item(SaleAt(i).product, price(SaleAt(i).product), SaleAt(i).quantity)
  }

  function Definitions(base: int, price: Prices, n: nat): (ds: seq<Definition>)
    requires n <= COUNT
    ensures |ds| == n && forall i :: 0 <= i < n ==> ds[i] == Definition(i, TotalOf(i, price), At(base, i))
  {
    if n == 0 then [] else Definitions(base, price, n - 1) + [Definition(n - 1, TotalOf(n - 1, price), At(base, n - 1))]
  }

  function PaymentFor(d: Definition): Payment { Payment(true, d.amount, d.amount, d.paidAt) }

  function PaymentsFor(ds: seq<Definition>): map<nat, Payment> {
    map i: nat | i < |ds| :: PaymentFor(ds[i])
  }

  function Sum(ds: seq<Definition>): nat {
    if ds == [] then 0 else Sum(ds[..|ds| - 1]) + ds[|ds| - 1].amount
  }

  function Earliest(ds: seq<Definition>): (t: int)
    requires ds != []
    ensures forall d :: d in ds ==> t <= d.paidAt
    ensures exists d :: d in ds && t == d.paidAt
  {
    if |ds| == 1 then ds[0].paidAt
    else var t := Earliest(ds[1..]); if ds[0].paidAt < t then ds[0].paidAt else t
  }

  function Latest(ds: seq<Definition>): (t: int)
    requires ds != []
    ensures forall d :: d in ds ==> d.paidAt <= t
    ensures exists d :: d in ds && t == d.paidAt
  {
    if |ds| == 1 then ds[0].paidAt
    else var t := Latest(ds[1..]); if t < ds[0].paidAt then ds[0].paidAt else t
  }

  function OpenedShift(ds: seq<Definition>): Shift
    requires ds != []
  {
    Shift(OPEN, Earliest(ds) - MINUTE, None, 0, 0, 0)
  }

  function ClosedShift(shift: Shift, ds: seq<Definition>): Shift
    requires ds != []
  {
    shift.(status := CLOSED, expected := Sum(ds), counted := Sum(ds), variance := 0, closedAt := Some(Latest(ds) + MINUTE))
  }

  // The payments of the definitions that the demonstration shift already holds.
  function HeldPayments(s: Ledger, ds: seq<Definition>): set<nat> {
    set d | d in ds && d.order in s.payments && s.payments[d.order].inDemoShift :: d.order
  }

  // The payments trigger lets no write move a cash payment to another shift or change its amount.
  predicate Refuses(payments: map<nat, Payment>, d: Definition) {
    d.order in payments && !(payments[d.order].inDemoShift && payments[d.order].amount == d.amount)
  }

  // The payment transaction; None when it throws and rolls back.
  function Settled(s: Ledger, ds: seq<Definition>, otherOpen: bool): Option<Ledger>
    requires ds != []
  {
    if s.shift.None? && otherOpen then None
    else
      var shift := if s.shift.None? then OpenedShift(ds) else s.shift.value;
      if shift.status == OTHER then None
      else if shift.status == CLOSED && |HeldPayments(s, ds)| != |ds| then None
      else if exists d <- ds :: Refuses(s.payments, d) then None
      else
        Some(s.(payments := s.payments + PaymentsFor(ds),
                shift := Some(if shift.status == OPEN then ClosedShift(shift, ds) else shift)))
  }

  // ---- A run that stops after a number of writes ----

  // Three writes per order, then the transaction.
  const WRITES: nat := 3 * COUNT + 1

  function BaseOf(s: Ledger, now: int): int { if 0 in s.orders then s.orders[0].createdAt else now - HOUR }

  function WriteStep(s: Ledger, base: int, price: Prices, k: nat): Ledger
    requires k < 3 * COUNT
  {
    var i := k / 3;
    if k % 3 == 0 then s.(orders := s.orders[i := OrderFor(i, base, price)])
    else if k % 3 == 1 then s.(items := s.items - {i})
    else s.(items := s.items[i := ItemFor(i, price)])
  }

  function OrdersWritten(s: Ledger, base: int, price: Prices, k: nat): Ledger
    requires k <= 3 * COUNT
  {
    if k == 0 then s else WriteStep(OrdersWritten(s, base, price, k - 1), base, price, k - 1)
  }

  function AfterRun(s: Ledger, now: int, price: Prices, otherOpen: bool, writes: nat): Ledger {
    var base := BaseOf(s, now);
    if writes < WRITES then OrdersWritten(s, base, price, if writes < 3 * COUNT then writes else 3 * COUNT)
    else
      var written := OrdersWritten(s, base, price, 3 * COUNT);
      var settled := Settled(written, Definitions(base, price, COUNT), otherOpen);
      if settled.Some? then settled.value else written
  }

  datatype Run = Run(now: int, otherOpen: bool, writes: nat)

  function AfterRuns(s: Ledger, price: Prices, runs: seq<Run>): Ledger {
    if runs == [] then s
    else
      var last := runs[|runs| - 1];
      AfterRun(AfterRuns(s, price, runs[..|runs| - 1]), last.now, price, last.otherOpen, last.writes)
  }

  // ---- What every run keeps ----

  function AllOrders(base: int, price: Prices): map<nat, Order> { map i: nat | i < COUNT :: OrderFor(i, base, price) }

  function AllItems(price: Prices): map<nat, Item> { map i: nat | i < COUNT :: ItemFor(i, price) }

  function Final(base: int, price: Prices): Ledger {
    var ds := Definitions(base, price, COUNT);
    Ledger(AllOrders(base, price), AllItems(price), PaymentsFor(ds), Some(ClosedShift(OpenedShift(ds), ds)))
  }

  // Part of the final state, built around one time of the first order.
  predicate Building(s: Ledger, base: int, price: Prices) {
    && (forall i :: i in s.orders ==> i < COUNT && s.orders[i] == OrderFor(i, base, price))
    && (forall i :: i in s.items ==> i in s.orders && i < COUNT && s.items[i] == ItemFor(i, price))
    && (s.orders != map[] ==> 0 in s.orders)
    && (s.shift.None? ==> s.payments == map[])
    && (s.shift.Some? ==> s.shift == Final(base, price).shift && s.payments == Final(base, price).payments &&
                          s.orders == AllOrders(base, price))
  }

  predicate Untouched(s: Ledger) { s.orders == map[] && s.items == map[] && s.payments == map[] && s.shift == None }

  lemma OrderStepBuilds(s: Ledger, base: int, price: Prices, k: nat)
    requires k < 3 * COUNT && Building(s, base, price)
    requires (k > 0 ==> 0 in s.orders) && (k % 3 != 0 ==> k / 3 in s.orders)
    ensures Building(WriteStep(s, base, price, k), base, price)
  {
    hide OrderFor, ItemFor, Definitions, OpenedShift, ClosedShift;
    var i := k / 3;
    if s.shift.Some? && k % 3 == 0 { assert s.orders[i := OrderFor(i, base, price)] == s.orders; }
  }

  lemma {:induction false} WritingOrdersBuilds(s: Ledger, base: int, price: Prices, k: nat)
    requires k <= 3 * COUNT && Building(s, base, price)
    ensures var w := OrdersWritten(s, base, price, k);
      && Building(w, base, price) && w.shift == s.shift && w.payments == s.payments
      && (forall i: nat :: 3 * i < k ==> i in w.orders)
      && (forall i: nat :: 3 * i + 2 < k ==> i in w.items)
      && (forall i :: i in s.orders ==> i in w.orders)
  {
    hide OrderFor, ItemFor, Building;
    if k > 0 {
      WritingOrdersBuilds(s, base, price, k - 1);
      var before, i := OrdersWritten(s, base, price, k - 1), (k - 1) / 3;
      if k > 1 { assert 0 in before.orders by { assert 3 * 0 < k - 1; } }
      if (k - 1) % 3 != 0 { assert 3 * i < k - 1; }
      OrderStepBuilds(before, base, price, k - 1);
    }
  }

  /** Written in full, the orders and items are the final ones. */
  lemma AllOrdersWritten(s: Ledger, base: int, price: Prices)
    requires Building(s, base, price)
    ensures var w := OrdersWritten(s, base, price, 3 * COUNT);
      w.orders == AllOrders(base, price) && w.items == AllItems(price) && Building(w, base, price)
      && w.shift == s.shift && w.payments == s.payments
  {
    WritingOrdersBuilds(s, base, price, 3 * COUNT);
    var w := OrdersWritten(s, base, price, 3 * COUNT);
    hide OrderFor, ItemFor, OrdersWritten;
    assert forall i: nat :: i < COUNT ==> 3 * i < 3 * COUNT && 3 * i + 2 < 3 * COUNT;
  }

  function Below(n: nat): (below: set<nat>)
    ensures |below| == n
    ensures forall i: nat :: i in below <==> i < n
  {
    if n == 0 then {} else Below(n - 1) + {n - 1}
  }

  lemma FullShiftHoldsItsPayments(s: Ledger, ds: seq<Definition>)
    requires forall i :: 0 <= i < |ds| ==> ds[i].order == i && i in s.payments && s.payments[i].inDemoShift
    ensures |HeldPayments(s, ds)| == |ds|
  {
    var held := HeldPayments(s, ds);
    forall i | i in Below(|ds|) ensures i in held { assert ds[i] in ds; }
    forall i | i in held ensures i in Below(|ds|) {
      var k :| 0 <= k < |ds| && ds[k].order == i;
    }
    assert held == Below(|ds|);
  }

  /** The transaction never finds a shift it closed itself incomplete: it throws only when
      another shift is open before the demonstration has its own. */
  lemma SettlingCompletes(s: Ledger, base: int, price: Prices, otherOpen: bool)
    requires Building(s, base, price) && s.orders == AllOrders(base, price) && s.items == AllItems(price)
    ensures Settled(s, Definitions(base, price, COUNT), otherOpen) ==
              if s.shift.None? && otherOpen then None else Some(Final(base, price))
  {
    hide Sum, Earliest, Latest, AllOrders, AllItems, Definitions, HeldPayments;
    var ds := Definitions(base, price, COUNT);
    if s.shift.Some? {
      FullShiftHoldsItsPayments(s, ds);
      assert s.payments + PaymentsFor(ds) == PaymentsFor(ds);
    } else {
      assert s.payments + PaymentsFor(ds) == PaymentsFor(ds);
    }
  }

  // The time of the first order is settled by the run that first writes it.
  lemma RunBuilds(s: Ledger, r: Run, price: Prices)
    requires Building(s, BaseOf(s, r.now), price)
    ensures var after := AfterRun(s, r.now, price, r.otherOpen, r.writes);
      && Building(after, BaseOf(s, r.now), price)
      && (forall now :: after.orders != map[] ==> BaseOf(after, now) == BaseOf(s, r.now))
      && (after.orders == map[] ==> Untouched(after))
      && (s.orders != map[] ==> after.orders != map[]) && (s.shift.Some? ==> after.shift.Some?)
      && (r.writes >= WRITES && (s.shift.Some? || !r.otherOpen) ==> after == Final(BaseOf(s, r.now), price))
  {
    var base := BaseOf(s, r.now);
    var k := if r.writes < 3 * COUNT then r.writes else 3 * COUNT;
    WritingOrdersBuilds(s, base, price, k);
    if s.orders != map[] { assert 0 in OrdersWritten(s, base, price, k).orders; }
    if r.writes >= WRITES {
      AllOrdersWritten(s, base, price);
      SettlingCompletes(OrdersWritten(s, base, price, 3 * COUNT), base, price, r.otherOpen);
    }
  }

  ghost predicate Rerunnable(s: Ledger, price: Prices) { forall now :: Building(s, BaseOf(s, now), price) }

  lemma {:induction false} RunsStayRerunnable(s: Ledger, price: Prices, runs: seq<Run>)
    requires Rerunnable(s, price)
    ensures var after := AfterRuns(s, price, runs);
      && Rerunnable(after, price)
      && (s.orders != map[] ==> after.orders != map[] && forall t, u :: BaseOf(after, t) == BaseOf(s, u))
      && (s.shift.Some? ==> after.shift.Some?)
  {
    if runs != [] {
      var last, shorter := runs[|runs| - 1], runs[..|runs| - 1];
      RunsStayRerunnable(s, price, shorter);
      var middle := AfterRuns(s, price, shorter);
      RunStaysRerunnable(middle, last, price);
    }
  }

  lemma RunStaysRerunnable(s: Ledger, r: Run, price: Prices)
    requires Rerunnable(s, price)
    ensures var after := AfterRun(s, r.now, price, r.otherOpen, r.writes);
      && Rerunnable(after, price)
      && (s.orders != map[] ==> after.orders != map[] && forall t, u :: BaseOf(after, t) == BaseOf(s, u))
      && (s.shift.Some? ==> after.shift.Some?)
  {
    var base, after := BaseOf(s, r.now), AfterRun(s, r.now, price, r.otherOpen, r.writes);
    RunBuilds(s, r, price);
    hide AfterRun, OrderFor, ItemFor, AllOrders, Final;
    if s.orders != map[] { assert forall u :: BaseOf(s, u) == base; }
  }

  /** Whatever crashed runs came before, a completed run with no other shift open reaches
      the final state; and whatever runs follow, crashed or not, the next completed run
      reaches the very same state. */
  lemma SeedConverges(price: Prices, before: seq<Run>, first: Run, between: seq<Run>, again: Run)
    requires first.writes >= WRITES && !first.otherOpen && again.writes >= WRITES
    ensures var done := AfterRuns(EMPTY, price, before + [first]);
      && done == Final(BaseOf(AfterRuns(EMPTY, price, before), first.now), price)
      && AfterRuns(done, price, between + [again]) == done
  {
    hide AfterRun, OrderFor, ItemFor, Final, AllOrders, AllItems;
    RunsStayRerunnable(EMPTY, price, before);
    var start := AfterRuns(EMPTY, price, before);
    assert (before + [first])[..|before|] == before;
    var done := AfterRuns(EMPTY, price, before + [first]);
    RunBuilds(start, first, price);
    RunStaysRerunnable(start, first, price);
    FinalHasItsBase(BaseOf(start, first.now), price);
    RunsStayRerunnable(done, price, between);
    var later := AfterRuns(done, price, between);
    assert (between + [again])[..|between|] == between;
    assert BaseOf(later, again.now) == BaseOf(done, again.now);
    RunBuilds(later, again, price);
  }

  lemma FinalHasItsBase(base: int, price: Prices)
    ensures Final(base, price).orders != map[] && Final(base, price).shift.Some?
    ensures forall now :: BaseOf(Final(base, price), now) == base
  {
    assert 0 in AllOrders(base, price);
  }

  /** The closed shift strictly contains every payment, and balances. */
  lemma FinalShiftBalances(base: int, price: Prices, i: nat)
    requires i < COUNT
    ensures var s := Final(base, price); var shift := s.shift.value;
      && shift.status == CLOSED && shift.closedAt.Some?
      && i in s.payments && i in s.orders
      && s.payments[i].paidAt == s.orders[i].completedAt
      && shift.openedAt < s.payments[i].paidAt < shift.closedAt.value
      && s.payments[i].amount == s.payments[i].cashReceived == s.orders[i].total
      && shift.expected == shift.counted == Sum(Definitions(base, price, COUNT)) && shift.variance == 0
  {
    var ds := Definitions(base, price, COUNT);
    assert ds[i] in ds;
  }

  lemma {:induction false} OrdersKeepPayments(s: Ledger, base: int, price: Prices, k: nat)
    requires k <= 3 * COUNT
    ensures var w := OrdersWritten(s, base, price, k); w.payments == s.payments && w.shift == s.shift
  {
    hide OrderFor, ItemFor;
    if k > 0 { OrdersKeepPayments(s, base, price, k - 1); }
  }

  function OrdersBefore(n: nat, base: int, price: Prices): map<nat, Order>
    requires n <= COUNT
  {
    map i: nat | i < n :: OrderFor(i, base, price)
  }

  function ItemsBefore(n: nat, price: Prices): map<nat, Item>
    requires n <= COUNT
  {
    map i: nat | i < n :: ItemFor(i, price)
  }

  lemma OneMoreSale(orders: map<nat, Order>, items: map<nat, Item>, base: int, price: Prices, n: nat)
    requires n < COUNT
    ensures (orders + OrdersBefore(n, base, price))[n := OrderFor(n, base, price)] == orders + OrdersBefore(n + 1, base, price)
    ensures (items + ItemsBefore(n, price) - {n})[n := ItemFor(n, price)] == items + ItemsBefore(n + 1, price)
  {
    hide OrderFor, ItemFor;
  }

  lemma NoSales(s: Ledger, base: int, price: Prices)
    ensures s.orders + OrdersBefore(0, base, price) == s.orders && s.items + ItemsBefore(0, price) == s.items
  {
    hide OrderFor, ItemFor;
  }

  // What the order loop leaves after n sales, whatever was there before.
  lemma {:induction false} SalesWritten(s: Ledger, base: int, price: Prices, n: nat)
    requires n <= COUNT
    ensures var w := OrdersWritten(s, base, price, 3 * n);
      w.orders == s.orders + OrdersBefore(n, base, price) && w.items == s.items + ItemsBefore(n, price)
  {
    hide *;
    if n == 0 {
      NothingWritten(s, base, price);
      NoSales(s, base, price);
    } else {
      SalesWritten(s, base, price, n - 1);
      SaleWrites(s, base, price, n - 1);
      OneMoreSale(s.orders, s.items, base, price, n - 1);
    }
  }

  predicate SameTotals(price: Prices, other: Prices) { forall i: nat :: i < COUNT ==> TotalOf(i, price) == TotalOf(i, other) }

  lemma RepricedRowsWritten(base: int, price: Prices, repriced: Prices)
    ensures var w := OrdersWritten(Final(base, price), base, repriced, 3 * COUNT);
      w.orders == AllOrders(base, repriced) && w.items == AllItems(repriced)
  {
    hide OrderFor, ItemFor, OrdersWritten, Definitions, OpenedShift, ClosedShift, PaymentsFor;
    SalesWritten(Final(base, price), base, repriced, COUNT);
  }

  // The payments of the final state hold every definition, at the total it had.
  lemma FinalPayments(base: int, price: Prices, i: nat)
    requires i < COUNT
    ensures i in Final(base, price).payments && Final(base, price).payments[i].inDemoShift
    ensures Final(base, price).payments[i].amount == TotalOf(i, price)
  {
  }

  // The transaction on a closed shift that holds those payments.
  lemma AllFinalPayments(base: int, price: Prices)
    ensures var s := Final(base, price);
      && s.shift.Some? && s.shift.value.status == CLOSED
      && forall i: nat :: i < COUNT ==> i in s.payments && s.payments[i].inDemoShift && s.payments[i].amount == TotalOf(i, price)
  {
    forall i: nat | i < COUNT
      ensures i in Final(base, price).payments && Final(base, price).payments[i].inDemoShift
      ensures Final(base, price).payments[i].amount == TotalOf(i, price)
    {
      FinalPayments(base, price, i);
    }
  }

  lemma RepricedTransaction(s: Ledger, base: int, price: Prices, repriced: Prices, otherOpen: bool)
    requires s.payments == Final(base, price).payments && s.shift == Final(base, price).shift
    ensures Settled(s, Definitions(base, repriced, COUNT), otherOpen) == if SameTotals(price, repriced) then Some(s) else None
  {
    assert COUNT > 0;
    hide *;
    AllFinalPayments(base, price);
    RepricedHeld(s, base, price, repriced);
    RepricedAmounts(base, price, repriced);
    SettledOnClosed(s, Definitions(base, repriced, COUNT), otherOpen);
  }

  // The transaction on a shift that is closed already.
  lemma SettledOnClosed(s: Ledger, ds: seq<Definition>, otherOpen: bool)
    requires ds != [] && s.shift.Some? && s.shift.value.status == CLOSED
    ensures Settled(s, ds, otherOpen) ==
      if |HeldPayments(s, ds)| != |ds| || exists d <- ds :: Refuses(s.payments, d) then None
      else Some(s.(payments := s.payments + PaymentsFor(ds)))
  {
    hide HeldPayments, Refuses, PaymentsFor;
  }

  lemma RepricedHeld(s: Ledger, base: int, price: Prices, repriced: Prices)
    requires s.payments == Final(base, price).payments
    ensures |HeldPayments(s, Definitions(base, repriced, COUNT))| == COUNT
  {
    hide *;
    AllFinalPayments(base, price);
    FullShiftHoldsItsPayments(s, Definitions(base, repriced, COUNT));
  }

  lemma SameDefinitions(base: int, price: Prices, repriced: Prices)
    requires SameTotals(price, repriced)
    ensures Definitions(base, repriced, COUNT) == Definitions(base, price, COUNT)
  {
    hide TotalOf, At;
  }

  lemma SamePayments(base: int, price: Prices, repriced: Prices)
    requires SameTotals(price, repriced)
    ensures Final(base, price).payments + PaymentsFor(Definitions(base, repriced, COUNT)) == Final(base, price).payments
  {
    SameDefinitions(base, price, repriced);
    hide TotalOf, Definitions, OpenedShift, ClosedShift, AllOrders, AllItems, SameTotals;
  }

  // The trigger refuses a payment exactly when a total changed; otherwise the same rows are written.
  lemma RepricedAmounts(base: int, price: Prices, repriced: Prices)
    ensures var owed, payments := Definitions(base, repriced, COUNT), Final(base, price).payments;
      && ((exists d <- owed :: Refuses(payments, d)) <==> !SameTotals(price, repriced))
      && (SameTotals(price, repriced) ==> payments + PaymentsFor(owed) == payments)
  {
    hide Final, Definitions, TotalOf, PaymentsFor;
    AllFinalPayments(base, price);
    if SameTotals(price, repriced) { SamePayments(base, price, repriced); }
    var owed, payments := Definitions(base, repriced, COUNT), Final(base, price).payments;
    if i: nat :| i < COUNT && TotalOf(i, price) != TotalOf(i, repriced) {
      assert owed[i] in owed && Refuses(payments, owed[i]);
    }
  }

  /** A rerun with other prices, after the shift was closed: orders and items get the new
      prices, payments and shift stay, and the transaction commits exactly when every sale
      keeps its total. Otherwise orders and payments disagree from then on. */
  lemma RepricedRerun(base: int, price: Prices, repriced: Prices, r: Run)
    requires r.writes >= WRITES
    ensures var before, after := Final(base, price), AfterRun(Final(base, price), r.now, repriced, r.otherOpen, r.writes);
      var written := OrdersWritten(before, base, repriced, 3 * COUNT);
      && after.orders == AllOrders(base, repriced) && after.items == AllItems(repriced)
      && after.payments == before.payments && after.shift == before.shift
      && (Settled(written, Definitions(base, repriced, COUNT), r.otherOpen).Some? <==> SameTotals(price, repriced))
  {
    FinalHasItsBase(base, price);
    RepricedRowsWritten(base, price, repriced);
    OrdersKeepPayments(Final(base, price), base, repriced, 3 * COUNT);
    var written := OrdersWritten(Final(base, price), base, repriced, 3 * COUNT);
    hide AllOrders, AllItems, Definitions, OrdersWritten, Settled, Final, SameTotals;
    RepricedTransaction(written, base, price, repriced, r.otherOpen);
  }

  lemma TotalsAgree(base: int, price: Prices, repriced: Prices)
    ensures var orders, payments := AllOrders(base, repriced), Final(base, price).payments;
      (forall i: nat :: i < COUNT ==> i in orders && i in payments && orders[i].total == payments[i].amount) <==>
        SameTotals(price, repriced)
  {
    hide Final, TotalOf;
    AllFinalPayments(base, price);
  }

  /** Orders and payments agree after a completed rerun exactly when no total changed. */
  lemma RepricedRerunAgreesExactly(base: int, price: Prices, repriced: Prices, r: Run)
    requires r.writes >= WRITES
    ensures var after := AfterRun(Final(base, price), r.now, repriced, r.otherOpen, r.writes);
      (forall i: nat :: i < COUNT ==> i in after.orders && i in after.payments && after.orders[i].total == after.payments[i].amount) <==>
        SameTotals(price, repriced)
  {
    hide AfterRun, AllOrders, Final, SameTotals;
    RepricedRerun(base, price, repriced, r);
    TotalsAgree(base, price, repriced);
  }

  lemma FirstOrder(base: int, price: Prices)
    ensures 0 in AllOrders(base, price) && AllOrders(base, price)[0].total == TotalOf(0, price)
  {
  }

  function Dearer(price: Prices): Prices { product => price(product) + 1 }

  /** A dollar more on every price: the first order then asks for three dollars more than was paid. */
  lemma OneDollarMore(base: int, price: Prices, r: Run)
    requires r.writes >= WRITES
    ensures var after := AfterRun(Final(base, price), r.now, Dearer(price), r.otherOpen, r.writes);
      && !SameTotals(price, Dearer(price))
      && 0 in after.orders && 0 in after.payments && after.orders[0].total == after.payments[0].amount + 3
  {
    DearerTotal(price);
    hide AfterRun, AllOrders, Final, TotalOf, Dearer;
    RepricedRerun(base, price, Dearer(price), r);
    FinalPayments(base, price, 0);
    FirstOrder(base, Dearer(price));
  }

  lemma DearerTotal(price: Prices)
    ensures TotalOf(0, Dearer(price)) == TotalOf(0, price) + 3
  {
  }

  // ---- The seed itself ----

  lemma NothingWritten(s: Ledger, base: int, price: Prices)
    ensures OrdersWritten(s, base, price, 0) == s
  {
  }

  lemma SaleWrites(s: Ledger, base: int, price: Prices, i: nat)
    requires i < COUNT
    ensures var w := OrdersWritten(s, base, price, 3 * i);
      var w1 := w.(orders := w.orders[i := OrderFor(i, base, price)]);
      var w2 := w1.(items := w1.items - {i});
      && OrdersWritten(s, base, price, 3 * i + 1) == w1
      && OrdersWritten(s, base, price, 3 * i + 2) == w2
      && OrdersWritten(s, base, price, 3 * i + 3) == w2.(items := w2.items[i := ItemFor(i, price)])
  {
    hide OrderFor, ItemFor, SaleAt;
    assert (3 * i) / 3 == i && (3 * i) % 3 == 0;
    assert (3 * i + 1) / 3 == i && (3 * i + 1) % 3 == 1;
    assert (3 * i + 2) / 3 == i && (3 * i + 2) % 3 == 2;
  }

  class DemoSeed {
    var db: Ledger

    constructor (db: Ledger)
      ensures this.db == db
    {
      this.db := db;
    }

    // Updates the payments a closed shift holds, or creates or replaces those of an open one;
    // stops where the trigger refuses a row.
    method WritePayments(ds: seq<Definition>, held: bool) returns (ok: bool)
      requires forall i :: 0 <= i < |ds| ==> ds[i].order == i && (held ==> i in db.payments)
      modifies this
      ensures ok <==> forall d <- ds :: !Refuses(old(db).payments, d)
      ensures ok ==> db == old(db).(payments := old(db.payments) + PaymentsFor(ds))
    {
      hide Earliest, Latest, Sum, Settled, OrdersWritten, SaleAt, PaymentsFor, Refuses;
      ghost var start := db.payments;
      NoPayments(start, ds);
      for i := 0 to |ds|
        invariant db == old(db).(payments := start + PaymentsFor(ds[..i]))
        invariant forall k :: 0 <= k < i ==> !Refuses(start, ds[k])
      {
        NextPayment(start, ds, i);
        if Refuses(db.payments, ds[i]) { return false; }
        assert held ==> ds[i].order in db.payments;   // the update finds its row
        var payment := Payment(true, ds[i].amount, ds[i].amount, ds[i].paidAt);
        db := db.(payments := db.payments[ds[i].order := payment]);
      }
      assert ds[..|ds|] == ds;
      return true;
    }

    /** The payment transaction: throws and rolls back, or leaves the settled ledger. */
    method SettlePayments(ds: seq<Definition>, otherOpen: bool) returns (ok: bool)
      requires ds != [] && forall i :: 0 <= i < |ds| ==> ds[i].order == i
      modifies this
      ensures ok == Settled(old(db), ds, otherOpen).Some?
      ensures db == if ok then Settled(old(db), ds, otherOpen).value else old(db)
    {
      hide Earliest, Latest, Sum, HeldPayments, PaymentsFor, OrdersWritten, SaleAt, Refuses;
      var openAt, closeAt, total := Earliest(ds) - MINUTE, Latest(ds) + MINUTE, Sum(ds);
      var start := db;
      if db.shift.None? {
        if otherOpen { return false; }
        db := db.(shift := Some(Shift(OPEN, openAt, None, 0, 0, 0)));
      }
      var status := db.shift.value.status;
      if status != OPEN && status != CLOSED {
        db := start;
        return false;
      }
      if status == CLOSED && |HeldPayments(db, ds)| != |ds| { return false; }
      if status == CLOSED { HeldPaymentsAreAll(start, ds); }
      ok := WritePayments(ds, status == CLOSED);
      if !ok {
        db := start;
        return;
      }
      if status == OPEN {
        var shift := db.shift.value;
        db := db.(shift := Some(Shift(CLOSED, shift.openedAt, Some(closeAt), total, total, 0)));
      }
    }

    // The three writes of one sale, as far as the budget goes.
    method WriteSale(ghost start: Ledger, i: nat, base: int, price: Prices, budget: nat) returns (used: nat)
      requires i < COUNT && db == OrdersWritten(start, base, price, 3 * i)
      modifies this
      ensures used == if budget < 3 then budget else 3
      ensures db == OrdersWritten(start, base, price, 3 * i + used)
    {
      hide OrdersWritten, SaleAt;
      SaleWrites(start, base, price, i);
      var sale, completedAt := SaleAt(i), base - i * HOUR;
      var unitPrice := price(sale.product);
      var order := Order(unitPrice * sale.quantity, completedAt, completedAt, completedAt, false);
      assert order == OrderFor(i, base, price);
      if budget == 0 { return 0; }
      db := db.(orders := db.orders[i := order]);
      if budget == 1 { return 1; }
      db := db.(items := db.items - {i});
      if budget == 2 { return 2; }
      db := db.(items := db.items[i := Item(sale.product, unitPrice, sale.quantity)]);
      return 3;
    }

    /** One run of the seed that stops after the given number of writes. */
    method Seed(now: int, price: Prices, otherOpen: bool, writes: nat) returns (completed: bool)
      modifies this
      ensures db == AfterRun(old(db), now, price, otherOpen, writes)
      ensures completed == (writes >= WRITES && Settled(OrdersWritten(old(db), BaseOf(old(db), now), price, 3 * COUNT),
                                                        Definitions(BaseOf(old(db), now), price, COUNT), otherOpen).Some?)
    {
      hide OrdersWritten, Settled, TotalOf, SaleAt, SALES;
      NothingWritten(db, if 0 in db.orders then db.orders[0].createdAt else now - HOUR, price);
      var base := if 0 in db.orders then db.orders[0].createdAt else now - HOUR;
      var definitions: seq<Definition> := [];
      var done := 0;
      for i := 0 to COUNT
        invariant done == 3 * i && done <= writes
        invariant db == OrdersWritten(old(db), base, price, 3 * i)
        invariant definitions == Definitions(base, price, i)
      {
        var used := WriteSale(old(db), i, base, price, writes - done);
        done := done + used;
        if used < 3 { return false; }
        definitions := definitions + [Definition(i, TotalOf(i, price), base - i * HOUR)];
      }
      if done == writes { return false; }
      completed := SettlePayments(definitions, otherOpen);
    }
  }

  lemma NoPayments(payments: map<nat, Payment>, ds: seq<Definition>)
    ensures payments + PaymentsFor(ds[..0]) == payments
  {
  }

  lemma NextPayment(payments: map<nat, Payment>, ds: seq<Definition>, i: nat)
    requires i < |ds| && ds[i].order == i
    ensures payments + PaymentsFor(ds[..i + 1]) == (payments + PaymentsFor(ds[..i]))[i := PaymentFor(ds[i])]
    ensures Refuses(payments + PaymentsFor(ds[..i]), ds[i]) <==> Refuses(payments, ds[i])
    ensures i in payments + PaymentsFor(ds[..i]) <==> i in payments
  {
  }

  lemma HeldPaymentsAreAll(s: Ledger, ds: seq<Definition>)
    requires |HeldPayments(s, ds)| == |ds| && forall i :: 0 <= i < |ds| ==> ds[i].order == i
    ensures forall i: nat :: i < |ds| ==> i in s.payments
  {
    var held := HeldPayments(s, ds);
    forall i | i in held ensures i in Below(|ds|) {
      var k :| 0 <= k < |ds| && ds[k].order == i;
    }
    SubsetOfSameSize(held, Below(|ds|));
    forall i: nat | i < |ds| ensures i in s.payments { assert i in held; }
  }

  lemma SubsetOfSameSize(a: set<nat>, b: set<nat>)
    requires a <= b && |a| == |b|
    ensures a == b
  {
    assert |b - a| == |b| - |a|;
  }
}
