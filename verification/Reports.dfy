/** The sales report (backend/src/reports.controller.ts): its totals reconcile with each other and
    with the payments, in every reachable state and for every period. */
module Reports {
  import opened Outcomes
  import opened Financial
  import opened Schema
  import opened Integrity
  import opened Runs
  import opened Settlements
  import opened PixEndpoints
  import Theorems

  /** `_sum` of one column over a set of orders. */
  ghost function SumOver(orders: Orders, ids: set<Id>, column: Order -> int): int
    requires ids <= orders.Keys
    decreases ids
  {
    if ids == {} then
      0
    else
      var id :| id in ids;
      column(orders[id]) + SumOver(orders, ids - {id}, column)
  }

  /** A linear relation between columns, true of each order, is true of the sums. */
  lemma {:induction false} SumsAreLinear(
      orders: Orders, ids: set<Id>, a: Order -> int, b: Order -> int, c: Order -> int, d: Order -> int)
    requires ids <= orders.Keys
    requires forall id :: id in ids ==> a(orders[id]) - b(orders[id]) + c(orders[id]) == d(orders[id])
    ensures SumOver(orders, ids, a) - SumOver(orders, ids, b) + SumOver(orders, ids, c) == SumOver(orders, ids, d)
    decreases ids
  {
    if ids != {} {
      var id :| id in ids && SumOver(orders, ids, a) == a(orders[id]) + SumOver(orders, ids - {id}, a);
      SumSplits(orders, ids, b, id);
      SumSplits(orders, ids, c, id);
      SumSplits(orders, ids, d, id);
      SumsAreLinear(orders, ids - {id}, a, b, c, d);
    }
  }

  /** Any order may be taken out of a sum first. */
  lemma {:induction false} SumSplits(orders: Orders, ids: set<Id>, column: Order -> int, id: Id)
    requires ids <= orders.Keys && id in ids
    ensures SumOver(orders, ids, column) == column(orders[id]) + SumOver(orders, ids - {id}, column)
    decreases ids
  {
    var first :| first in ids && SumOver(orders, ids, column) == column(orders[first]) +
        SumOver(orders, ids - {first}, column);
    if first != id {
      SumSplits(orders, ids - {first}, column, id);
      SumSplits(orders, ids - {id}, column, first);
      assert ids - {first} - {id} == ids - {id} - {first};
    }
  }

  /** The orders of the report: closed, and settled within the period. */
  function InPeriod(orders: Orders, tenant: Id, start: Time, end: Time): set<Id> {
    set id | id in orders && orders[id].tenant == tenant && orders[id].status == Closed &&
             orders[id].bill.settledAt.Some? && start <= orders[id].bill.settledAt.value <= end
  }

  function AmountBy(payments: seq<Payment>, via: Method): int {
    if payments == [] then
      0
    else
      var p := payments[|payments| - 1];
      AmountBy(payments[..|payments| - 1], via) + (if p.via == via then p.amount else 0)
  }

  lemma {:induction false} MethodsPartitionAmounts(payments: seq<Payment>)
    ensures AmountOf(payments) ==
            AmountBy(payments, Cash) + AmountBy(payments, Pix) + AmountBy(payments, Credit) +
            AmountBy(payments, Debit) + AmountBy(payments, Voucher) + AmountBy(payments, UnknownMethod)
  {
    if payments != [] {
      MethodsPartitionAmounts(payments[..|payments| - 1]);
    }
  }

  /** A row of the payments grouped by method. */
  datatype GroupRow = GroupRow(via: Method, amount: int)

  /** The rows that grouping the payments of these orders by method returns: one for each method
      used, carrying the summed amount. */
  ghost predicate Grouped(orders: Orders, ids: set<Id>, rows: seq<GroupRow>)
    requires ids <= orders.Keys
  {
    && (forall i, j :: 0 <= i < j < |rows| ==> rows[i].via != rows[j].via)
    && (forall i :: 0 <= i < |rows| ==> rows[i].amount == SumOver(orders, ids, MethodColumn(rows[i].via)))
    && (forall via: Method :: (forall i :: 0 <= i < |rows| ==> rows[i].via != via) ==>
          SumOver(orders, ids, MethodColumn(via)) == 0)
  }

  function MethodColumn(via: Method): Order -> int {
    (o: Order) => AmountBy(o.payments, via)
  }

  /** The loop that fills the report's record of payment methods: a method's entry, or zero when it
      has none, is all that the orders were paid by that method. */
  method FillPaymentMethods(ghost orders: Orders, ghost ids: set<Id>, rows: seq<GroupRow>)
    returns (methods: map<Method, int>)
    requires ids <= orders.Keys && Grouped(orders, ids, rows)
    ensures forall via: Method ::
              (if via in methods then methods[via] else 0) == SumOver(orders, ids, MethodColumn(via))
  {
    methods := map[];
    for k := 0 to |rows|
      invariant forall via :: via in methods <==> exists i :: 0 <= i < k && rows[i].via == via
      invariant forall i :: 0 <= i < k ==> rows[i].via in methods && methods[rows[i].via] == rows[i].amount
    {
      methods := methods[rows[k].via := rows[k].amount];
    }
  }

  datatype SalesReport = SalesReport(gross: int, discounts: int, fees: int, received: int)

  ghost function SalesOfPeriod(orders: Orders, ids: set<Id>): SalesReport
    requires ids <= orders.Keys
  {
    SalesReport(
      SumOver(orders, ids, (o: Order) => o.bill.subtotal),
      SumOver(orders, ids, (o: Order) => o.bill.discount),
      SumOver(orders, ids, (o: Order) => o.bill.fee),
      SumOver(orders, ids, (o: Order) => o.bill.total))
  }

  lemma {:induction false} PaymentsPartitionTotals(orders: Orders, ids: set<Id>)
    requires ids <= orders.Keys
    requires forall id :: id in ids ==> AmountOf(orders[id].payments) == orders[id].bill.total
    ensures SumOver(orders, ids, (o: Order) => o.bill.total) ==
            SumOver(orders, ids, MethodColumn(Cash)) + SumOver(orders, ids, MethodColumn(Pix)) +
            SumOver(orders, ids, MethodColumn(Credit)) + SumOver(orders, ids, MethodColumn(Debit)) +
            SumOver(orders, ids, MethodColumn(Voucher)) + SumOver(orders, ids, MethodColumn(UnknownMethod))
    decreases ids
  {
    if ids != {} {
      var total := (o: Order) => o.bill.total;
      var id :| id in ids && SumOver(orders, ids, total) == total(orders[id]) + SumOver(orders, ids - {id}, total);
      SumSplits(orders, ids, MethodColumn(Cash), id);
      SumSplits(orders, ids, MethodColumn(Pix), id);
      SumSplits(orders, ids, MethodColumn(Credit), id);
      SumSplits(orders, ids, MethodColumn(Debit), id);
      SumSplits(orders, ids, MethodColumn(Voucher), id);
      SumSplits(orders, ids, MethodColumn(UnknownMethod), id);
      MethodsPartitionAmounts(orders[id].payments);
      PaymentsPartitionTotals(orders, ids - {id});
    }
  }

  /** In every reachable state and for every period, gross - discounts + fees is what was received,
      and the payment methods account for exactly what was received. */
  lemma SalesReconcile(states: seq<Db>, steps: seq<Step>, i: nat, tenant: Id, start: Time, end: Time)
    requires Run(states, steps) && i < |states|
    ensures var ids := InPeriod(states[i].orders, tenant, start, end);
      var r := SalesOfPeriod(states[i].orders, ids);
      && r.gross - r.discounts + r.fees == r.received
      && r.received ==
         SumOver(states[i].orders, ids, MethodColumn(Cash)) + SumOver(states[i].orders, ids, MethodColumn(Pix)) +
         SumOver(states[i].orders, ids, MethodColumn(Credit)) + SumOver(states[i].orders, ids, MethodColumn(Debit)) +
         SumOver(states[i].orders, ids, MethodColumn(Voucher)) +
             SumOver(states[i].orders, ids, MethodColumn(UnknownMethod))
  {
    var orders := states[i].orders;
    var ids := InPeriod(orders, tenant, start, end);
    forall id | id in ids
      ensures var o := orders[id];
        AmountOf(o.payments) == o.bill.total && o.bill.subtotal - o.bill.discount + o.bill.fee == o.bill.total
    {
      Theorems.PaymentsEqualTotal(states, steps, i, id);
    }
    SumsAreLinear(orders, ids, (o: Order) => o.bill.subtotal, (o: Order) => o.bill.discount,
                  (o: Order) => o.bill.fee, (o: Order) => o.bill.total);
    PaymentsPartitionTotals(orders, ids);
  }

  // ----- what enters the report, and when -----

  /** Sums depend on the orders summed only. */
  lemma {:induction false} SumOfSameOrders(a: Orders, b: Orders, ids: set<Id>, column: Order -> int)
    requires ids <= a.Keys && ids <= b.Keys && forall id :: id in ids ==> a[id] == b[id]
    ensures SumOver(a, ids, column) == SumOver(b, ids, column)
    decreases ids
  {
    if ids != {} {
      var id :| id in ids && SumOver(a, ids, column) == column(a[id]) + SumOver(a, ids - {id}, column);
      SumSplits(b, ids, column, id);
      SumOfSameOrders(a, b, ids - {id}, column);
    }
  }

  /** The order is settled now: it enters the reports of its tenant whose period contains this moment. */
  predicate Enters(o: Order, now: Time, tenant: Id, start: Time, end: Time) {
    o.tenant == tenant && start <= now && now <= end
  }

  lemma ColumnGains(orders: Orders, id: Id, o: Order, ids: set<Id>, column: Order -> int)
    requires ids <= orders.Keys && id !in ids
    ensures SumOver(orders[id := o], ids, column) == SumOver(orders, ids, column)
    ensures SumOver(orders[id := o], ids + {id}, column) == SumOver(orders, ids, column) + column(o)
  {
    SumSplits(orders[id := o], ids + {id}, column, id);
    assert ids + {id} - {id} == ids;
    SumOfSameOrders(orders, orders[id := o], ids, column);
  }

  function Plus(a: SalesReport, o: Order): SalesReport {
    SalesReport(a.gross + o.bill.subtotal, a.discounts + o.bill.discount, a.fees + o.bill.fee,
                a.received + o.bill.total)
  }

  lemma ReportGains(orders: Orders, id: Id, o: Order, now: Time, tenant: Id, start: Time, end: Time)
    requires id in orders && orders[id].status != Closed && o.tenant == orders[id].tenant
    requires o.status == Closed && o.bill.settledAt == Some(now)
    ensures var ids, ids' := InPeriod(orders, tenant, start, end), InPeriod(orders[id := o], tenant, start, end);
      if Enters(o, now, tenant, start, end) then
        ids' == ids + {id} && id !in ids &&
        SalesOfPeriod(orders[id := o], ids') == Plus(SalesOfPeriod(orders, ids), o)
      else
        ids' == ids && SalesOfPeriod(orders[id := o], ids') == SalesOfPeriod(orders, ids)
  {
    var ids, ids' := InPeriod(orders, tenant, start, end), InPeriod(orders[id := o], tenant, start, end);
    assert id !in ids;
    assert ids' == if Enters(o, now, tenant, start, end) then ids + {id} else ids;
    ColumnGains(orders, id, o, ids, (o: Order) => o.bill.subtotal);
    ColumnGains(orders, id, o, ids, (o: Order) => o.bill.discount);
    ColumnGains(orders, id, o, ids, (o: Order) => o.bill.fee);
    ColumnGains(orders, id, o, ids, (o: Order) => o.bill.total);
  }

  /** A settlement adds its bill to the reports of its tenant whose period contains its moment, and to no
      other report. */
  lemma SettlementEntersItsReports(states: seq<Db>, steps: seq<Step>, i: nat, tenant: Id, start: Time, end: Time)
    requires Run(states, steps) && i + 1 < |states| && i < |steps| && steps[i].Api? && IsSettlement(steps[i].call)
    requires states[i + 1].orders != states[i].orders && Within(steps[i].sight, |states|)
    ensures steps[i].call.id in states[i + 1].orders
    ensures var o := states[i + 1].orders[steps[i].call.id];
      var before := SalesOfPeriod(states[i].orders, InPeriod(states[i].orders, tenant, start, end));
      SalesOfPeriod(states[i + 1].orders, InPeriod(states[i + 1].orders, tenant, start, end)) ==
      if steps[i].ctx.tenant == tenant && start <= steps[i].env.now && steps[i].env.now <= end then Plus(before, o)
      else before
  {
    hide Run, Bills, InPeriod, SalesOfPeriod, Theorems.SoldExactly;
    var cents, fee := CommittedSettlement(states, steps, i);
    var id := steps[i].call.id;
    ReportGains(states[i].orders, id, states[i + 1].orders[id], steps[i].env.now, tenant, start, end);
  }

  /** So does a payment by Pix. */
  lemma PaymentEntersItsReports(states: seq<Db>, steps: seq<Step>, i: nat, c: Id, tenant: Id, start: Time, end: Time)
    requires Run(states, steps) && i < |steps| && i + 1 < |states| && c in states[i].charges
    requires c in states[i + 1].charges
    requires states[i].charges[c].status != Paid && states[i + 1].charges[c].status == Paid
    ensures steps[i].Webhook? && states[i].charges[c].order in states[i + 1].orders
    ensures var o := states[i + 1].orders[states[i].charges[c].order];
      var before := SalesOfPeriod(states[i].orders, InPeriod(states[i].orders, tenant, start, end));
      SalesOfPeriod(states[i + 1].orders, InPeriod(states[i + 1].orders, tenant, start, end)) ==
      if o.tenant == tenant && start <= steps[i].now && steps[i].now <= end then Plus(before, o) else before
  {
    hide Run, InPeriod, SalesOfPeriod, Theorems.SoldExactly;
    PaidOnlyForItsAmount(states, steps, i, c);
    var id := states[i].charges[c].order;
    ReportGains(states[i].orders, id, states[i + 1].orders[id], steps[i].now, tenant, start, end);
  }

  /** An order closed without payments is in no report. */
  lemma UnpaidOrdersAreNotReported(states: seq<Db>, steps: seq<Step>, i: nat, id: Id,
                                   tenant: Id, start: Time, end: Time)
    requires Run(states, steps) && i < |states| && id in InPeriod(states[i].orders, tenant, start, end)
    ensures id in states[i].orders && states[i].orders[id].payments != [] && states[i].orders[id].tenant == tenant
  {
    Theorems.StateFacts(states, steps, i, i);
    assert OrderOk(states[i].orders[id]);
  }
}
