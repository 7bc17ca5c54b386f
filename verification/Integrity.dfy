/** What every reachable database satisfies, and that each kind of write keeps it. */
module Integrity {
  import opened Outcomes
  import opened Financial
  import opened Schema
  import opened Stock
  import opened Handlers

  // ----- one order -----

  function Rank(s: Status): nat {
    match s
    case Open => 0
    case SentToKitchen => 1
    case Delivered => 2
    case Closed => 3
    case Canceled => 3
  }

  /** A history row follows the row before it: the kitchen gets open orders and delivers what it got; and
      it names the status it leaves, except the row of a close without payments, which names none. */
  predicate Follows(before: HistoryRow, row: HistoryRow) {
    && Rank(before.to) < Rank(row.to)
    && row.to != Canceled
    && (row.to == SentToKitchen ==> before.to == Open)
    && (row.to == Delivered ==> before.to == SentToKitchen)
    && (row.from == Some(before.to) || (row.from.None? && row.to == Closed))
  }

  predicate HistoryOk(h: seq<HistoryRow>, status: Status) {
    && h != []
    && h[0].from.None? && h[0].to == Open
    && (forall i :: 0 < i < |h| ==> Follows(h[i - 1], h[i]))
    && h[|h| - 1].to == status
  }

  predicate ItemsOk(items: seq<Item>) {
    forall i :: 0 <= i < |items| ==> items[i].quantity >= 1 && items[i].price >= 0
  }

  /** The bill is the exact bill of the items. */
  predicate BillOf(items: seq<Item>, b: Bill) {
    && b.subtotal == Subtotal(items)
    && 0 <= b.discount <= b.subtotal
    && b.feeBps >= 0
    && b.fee == RoundBps((b.subtotal - b.discount) * b.feeBps)
    && b.total == b.subtotal - b.discount + b.fee
  }

  /** Either the order carries no money at all, or it is closed, its payments add up to its total,
      and its total is the bill of its items. */
  predicate MoneyOk(o: Order) {
    if o.payments == [] then
      o.bill == UNBILLED
    else
      && o.status == Closed
      && BillOf(o.items, o.bill)
      && AmountOf(o.payments) == o.bill.total
      && o.bill.total > 0
      && o.bill.settledAt.Some?
  }

  predicate OrderOk(o: Order) {
    && HistoryOk(o.history, o.status)
    && ItemsOk(o.items)
    && MoneyOk(o)
    && (o.status == Closed ==> o.table.None?)
    && o.version >= |o.history| + |o.items|
  }

  // ----- the tables together -----

  type Orders = map<Id, Order>

  predicate OrdersOk(orders: Orders) {
    forall id :: id in orders ==> OrderOk(orders[id])
  }

  predicate ItemsLinked(o: Order, products: map<Id, Product>) {
    forall i :: 0 <= i < |o.items| && o.items[i].product.Some? ==>
      && o.items[i].product.value in products
      && products[o.items[i].product.value].tenant == o.tenant
  }

  predicate TableLinked(o: Order, tables: map<Id, DiningTable>) {
    o.table.Some? ==> o.table.value in tables && tables[o.table.value].tenant == o.tenant
  }

  /** The products sold and the table held by an order belong to the order's tenant. */
  predicate OrdersLinked(orders: Orders, products: map<Id, Product>, tables: map<Id, DiningTable>) {
    forall id :: id in orders ==> ItemsLinked(orders[id], products) && TableLinked(orders[id], tables)
  }

  /** A Pix charge belongs to its order's tenant and asks for a positive amount. */
  predicate ChargesLinked(orders: Orders, charges: map<Id, Charge>) {
    forall c :: c in charges ==>
      charges[c].order in orders && orders[charges[c].order].tenant == charges[c].tenant && charges[c].amount > 0
  }

  /** At most one active order holds a table. */
  predicate Seated(orders: Orders) {
    forall a, b :: a in orders && b in orders && a != b && orders[a].table.Some? ==>
      !(Active(orders[a].status) && Holds(orders[b], orders[a].tenant, orders[a].table.value))
  }

  predicate IsSettled(orders: Orders, id: Id) {
    id in orders && orders[id].payments != []
  }

  /** A product has at most one sale movement per settled order, and none for any other reference. */
  ghost predicate SalesOnce(orders: Orders, movements: seq<Movement>) {
    forall id, p :: |SalesOf(movements, id, p)| <= (if IsSettled(orders, id) then 1 else 0)
  }

  /** A payment made by a Pix charge is its order's only payment, and the charge is the order's. */
  predicate PixPaid(id: Id, o: Order, charges: map<Id, Charge>) {
    forall i :: 0 <= i < |o.payments| && o.payments[i].charge.Some? ==>
      && |o.payments| == 1
      && o.payments[i].charge.value in charges
      && charges[o.payments[i].charge.value].order == id
  }

  predicate PixOk(orders: Orders, charges: map<Id, Charge>) {
    forall id :: id in orders ==> PixPaid(id, orders[id], charges)
  }

  predicate KeysCompleted(keys: map<Key, KeyRow>) {
    forall k :: k in keys ==> keys[k].status == Completed && keys[k].response.Some?
  }

  predicate PricesOk(products: map<Id, Product>) {
    forall p :: p in products ==> products[p].price >= 0
  }

  ghost predicate Inv(db: Db) {
    && OrdersOk(db.orders)
    && OrdersLinked(db.orders, db.products, db.tables)
    && ChargesLinked(db.orders, db.charges)
    && Seated(db.orders)
    && Balanced(Ledger(db.products, db.movements))
    && SalesOnce(db.orders, db.movements)
    && PixOk(db.orders, db.charges)
    && KeysCompleted(db.keys)
    && PricesOk(db.products)
  }

  // ----- consequences -----

  /** Four rows at most: a history is a strictly rising walk through four ranks. */
  lemma {:induction false} HistoryIsShort(h: seq<HistoryRow>, status: Status)
    requires HistoryOk(h, status)
    ensures |h| - 1 <= Rank(status) && |h| <= 4 && status != Canceled
    decreases |h|
  {
    if |h| > 1 {
      var init := h[..|h| - 1];
      HistoryIsShort(init, h[|h| - 2].to);
      assert Follows(h[|h| - 2], h[|h| - 1]);
    }
  }

  lemma {:induction false} SubtotalNotNegative(items: seq<Item>)
    requires ItemsOk(items)
    ensures Subtotal(items) >= 0
  {
    if items != [] {
      SubtotalNotNegative(items[..|items| - 1]);
      var last := items[|items| - 1];
      assert last.quantity * last.price >= 0;
    }
  }

  /** The two uniqueness rules of the schema that the handlers never check hold anyway: no sale
      movement is repeated for an order and product, and no charge pays twice. */
  lemma UniqueRulesNeverClash(db: Db, a: Id, b: Id, i: nat, j: nat, p: Id)
    requires Inv(db)
    ensures |SalesOf(db.movements, a, p)| <= 1
    ensures
      && a in db.orders && b in db.orders
      && i < |db.orders[a].payments| && j < |db.orders[b].payments|
      && db.orders[a].payments[i].charge.Some?
      && db.orders[a].payments[i].charge == db.orders[b].payments[j].charge
      ==> a == b && i == j
  {
    assert |SalesOf(db.movements, a, p)| <= (if IsSettled(db.orders, a) then 1 else 0);
    assert a in db.orders ==> PixPaid(a, db.orders[a], db.charges);
    assert b in db.orders ==> PixPaid(b, db.orders[b], db.charges);
  }

  // ----- kinds of write -----

  lemma PutSeated(orders: Orders, id: Id, o: Order)
    requires Seated(orders)
    requires o.table.Some? && Active(o.status) ==>
               forall b :: b in orders && b != id ==> !Holds(orders[b], o.tenant, o.table.value)
    ensures Seated(orders[id := o])
  {
  }

  lemma PutSalesOnce(orders: Orders, id: Id, o: Order, movements: seq<Movement>)
    requires SalesOnce(orders, movements)
    requires if id in orders then orders[id].payments == o.payments else o.payments == []
    ensures SalesOnce(orders[id := o], movements)
  {
    forall j, p ensures |SalesOf(movements, j, p)| <= (if IsSettled(orders[id := o], j) then 1 else 0) {
      assert |SalesOf(movements, j, p)| <= (if IsSettled(orders, j) then 1 else 0);
    }
  }

  lemma PutLinks(db: Db, id: Id, o: Order)
    requires OrdersOk(db.orders) && OrdersLinked(db.orders, db.products, db.tables)
    requires ChargesLinked(db.orders, db.charges) && PixOk(db.orders, db.charges)
    requires OrderOk(o) && ItemsLinked(o, db.products) && TableLinked(o, db.tables) && PixPaid(id, o, db.charges)
    requires id in db.orders ==> db.orders[id].tenant == o.tenant
    ensures var orders := db.orders[id := o];
      && OrdersOk(orders) && OrdersLinked(orders, db.products, db.tables)
      && ChargesLinked(orders, db.charges) && PixOk(orders, db.charges)
  {
  }

  /** Writing one order, its payments untouched. */
  lemma PutOrder(db: Db, id: Id, o: Order)
    requires Inv(db) && OrderOk(o) && ItemsLinked(o, db.products) && TableLinked(o, db.tables)
    requires if id in db.orders
             then db.orders[id].tenant == o.tenant && db.orders[id].payments == o.payments
             else o.payments == []
    requires o.table.Some? && Active(o.status) ==> !Occupied(db, o.tenant, o.table.value, Some(id))
    ensures Inv(db.(orders := db.orders[id := o]))
  {
    PutSeated(db.orders, id, o);
    PutSalesOnce(db.orders, id, o, db.movements);
    assert id in db.orders ==> PixPaid(id, db.orders[id], db.charges);
    PutLinks(db, id, o);
  }

  /** The sale of an order, which turns it from unsettled to settled. */
  lemma SaleOnce(db: Db, id: Id, o: Order, seller: Seller)
    requires SalesOnce(db.orders, db.movements) && id in db.orders && db.orders[id].payments == []
    requires o.payments != [] && seller.order == id
    ensures var db' := WithSale(db, id, o, seller, o.items); SalesOnce(db'.orders, db'.movements)
  {
    var db' := WithSale(db, id, o, seller, o.items);
    ProductsAreDistinct(o.items);
    forall j, p ensures |SalesOf(db'.movements, j, p)| <= (if IsSettled(db'.orders, j) then 1 else 0) {
      assert |SalesOf(db.movements, j, p)| <= (if IsSettled(db.orders, j) then 1 else 0);
      SellAllMovements(Ledger(db.products, db.movements), seller, o.items, Products(o.items), j, p);
    }
  }

  lemma SaleBalances(db: Db, o: Order, seller: Seller)
    requires Balanced(Ledger(db.products, db.movements)) && ItemsLinked(o, db.products) && seller.tenant == o.tenant
    ensures var l := SellAll(Ledger(db.products, db.movements), seller, o.items, Products(o.items));
      Balanced(l) && l.products.Keys == db.products.Keys &&
      forall p :: p in db.products ==> l.products[p] == db.products[p].(stock := l.products[p].stock)
  {
    ProductsAreDistinct(o.items);
    forall p | p in Products(o.items) && p in db.products ensures db.products[p].tenant == o.tenant {
      assert Lists(o.items, p);
    }
    SellAllFrame(Ledger(db.products, db.movements), seller, o.items, Products(o.items));
    SellAllKeepsBalance(Ledger(db.products, db.movements), seller, o.items, Products(o.items));
  }

  /** Owners and prices are untouched, so links and prices survive a stock write. */
  predicate SameOwners(products: map<Id, Product>, products': map<Id, Product>) {
    && products.Keys <= products'.Keys
    && forall p :: p in products ==> products'[p].tenant == products[p].tenant
  }

  lemma LinksSurvive(orders: Orders, products: map<Id, Product>, products': map<Id, Product>,
                     tables: map<Id, DiningTable>)
    requires OrdersLinked(orders, products, tables) && SameOwners(products, products')
    ensures OrdersLinked(orders, products', tables)
  {
    forall id | id in orders ensures ItemsLinked(orders[id], products') {
      assert ItemsLinked(orders[id], products);
    }
  }

  /** Settling an order: it gains its payments and loses its table, and its stock is sold. */
  lemma PutSale(db: Db, id: Id, o: Order, seller: Seller)
    requires Inv(db) && id in db.orders && db.orders[id].payments == []
    requires OrderOk(o) && o.payments != [] && o.table.None? && o.tenant == db.orders[id].tenant &&
             o.items == db.orders[id].items
    requires PixPaid(id, o, db.charges)
    requires seller.tenant == o.tenant && seller.order == id
    ensures Inv(WithSale(db, id, o, seller, o.items))
  {
    var db' := WithSale(db, id, o, seller, o.items);
    assert ItemsLinked(db.orders[id], db.products);
    SaleBalances(db, o, seller);
    SaleOnce(db, id, o, seller);
    PutLinks(db, id, o);
    LinksSurvive(db'.orders, db.products, db'.products, db.tables);
    PutSeated(db.orders, id, o);
  }

  /** A stock write outside a sale: owners stay, prices stay valid, no sale movement is added. */
  lemma PutStock(db: Db, l: Ledger)
    requires Inv(db) && Balanced(l) && SameOwners(db.products, l.products) && PricesOk(l.products)
    requires forall id, p :: SalesOf(l.movements, id, p) == SalesOf(db.movements, id, p)
    ensures Inv(db.(products := l.products, movements := l.movements))
  {
    forall j, p ensures |SalesOf(l.movements, j, p)| <= (if IsSettled(db.orders, j) then 1 else 0) {
      assert |SalesOf(db.movements, j, p)| <= (if IsSettled(db.orders, j) then 1 else 0);
    }
    LinksSurvive(db.orders, db.products, l.products, db.tables);
  }

  lemma ChargesStayLinked(orders: Orders, charges: map<Id, Charge>, c: Id, charge: Charge)
    requires ChargesLinked(orders, charges) && PixOk(orders, charges)
    requires charge.order in orders && orders[charge.order].tenant == charge.tenant && charge.amount > 0
    requires c in charges ==> charges[c].order == charge.order
    ensures ChargesLinked(orders, charges[c := charge]) && PixOk(orders, charges[c := charge])
  {
    forall id | id in orders ensures PixPaid(id, orders[id], charges[c := charge]) {
      assert PixPaid(id, orders[id], charges);
    }
  }

  /** Writing one charge: a new one for an order of its tenant, or a new status. */
  lemma PutCharge(db: Db, c: Id, charge: Charge)
    requires Inv(db) && charge.order in db.orders && db.orders[charge.order].tenant == charge.tenant &&
             charge.amount > 0
    requires c in db.charges ==> db.charges[c].order == charge.order
    ensures Inv(db.(charges := db.charges[c := charge]))
  {
    ChargesStayLinked(db.orders, db.charges, c, charge);
  }
}
