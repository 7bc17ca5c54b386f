/** How one write may change the database: nothing recorded is ever lost or rewritten, the
    integrity invariant is kept, and only rows of the acting tenant change. */
module Progress {
  import opened Outcomes
  import opened Financial
  import opened Schema
  import opened Stock
  import opened Handlers
  import opened Integrity
  import Text

  // ----- what later states keep -----

  /** `p` is `o` at a later time. The version is a faithful stamp: equal versions mean equal rows. */
  predicate OrderLater(o: Order, p: Order) {
    && p.tenant == o.tenant
    && o.version <= p.version
    && (o.version == p.version ==> o == p)
    && (o.status == Closed ==> o == p)
    && Rank(o.status) <= Rank(p.status)
    && o.items <= p.items
    && o.history <= p.history
    && o.payments <= p.payments
  }

  predicate OrdersLater(a: Orders, b: Orders) {
    forall id :: id in a ==> id in b && OrderLater(a[id], b[id])
  }

  predicate ChargesLater(a: map<Id, Charge>, b: map<Id, Charge>) {
    forall c :: c in a ==> c in b && b[c] == a[c].(status := b[c].status)
  }

  predicate TablesLater(a: map<Id, DiningTable>, b: map<Id, DiningTable>) {
    forall t :: t in a ==> t in b && b[t].tenant == a[t].tenant
  }

  predicate KeysLater(a: map<Key, KeyRow>, b: map<Key, KeyRow>) {
    forall k :: k in a ==> k in b && b[k] == a[k]
  }

  predicate Later(a: Db, b: Db) {
    && OrdersLater(a.orders, b.orders)
    && SameOwners(a.products, b.products)
    && TablesLater(a.tables, b.tables)
    && ChargesLater(a.charges, b.charges)
    && KeysLater(a.keys, b.keys)
    && a.movements <= b.movements
  }

  lemma LaterTransitive(a: Db, b: Db, c: Db)
    requires Later(a, b) && Later(b, c)
    ensures Later(a, c)
  {
    forall id | id in a.orders ensures id in c.orders && OrderLater(a.orders[id], c.orders[id]) {
      assert OrderLater(a.orders[id], b.orders[id]) && OrderLater(b.orders[id], c.orders[id]);
    }
  }

  // ----- what a write by one tenant leaves alone -----

  predicate OrdersBy(a: Orders, b: Orders, t: Id) {
    forall id :: id in b && (id !in a || b[id] != a[id]) ==> b[id].tenant == t
  }

  predicate ProductsBy(a: map<Id, Product>, b: map<Id, Product>, t: Id) {
    forall p :: p in b && (p !in a || b[p] != a[p]) ==> b[p].tenant == t
  }

  predicate TablesBy(a: map<Id, DiningTable>, b: map<Id, DiningTable>, t: Id) {
    forall d :: d in b && (d !in a || b[d] != a[d]) ==> b[d].tenant == t
  }

  predicate ChargesBy(a: map<Id, Charge>, b: map<Id, Charge>, t: Id) {
    forall c :: c in b && (c !in a || b[c] != a[c]) ==> b[c].tenant == t
  }

  predicate KeysBy(a: map<Key, KeyRow>, b: map<Key, KeyRow>, t: Id) {
    forall k :: k in b && k !in a ==> k.0 == t
  }

  predicate MovementsBy(a: seq<Movement>, b: seq<Movement>, t: Id) {
    forall i :: |a| <= i < |b| ==> b[i].tenant == t
  }

  predicate LimitsBy(a: map<Id, int>, b: map<Id, int>, t: Id) {
    && (forall u :: u in b && u != t ==> u in a && b[u] == a[u])
    && (forall u :: u in a && u != t ==> u in b)
  }

  predicate WrittenBy(a: Db, b: Db, t: Id) {
    && OrdersBy(a.orders, b.orders, t)
    && ProductsBy(a.products, b.products, t)
    && TablesBy(a.tables, b.tables, t)
    && ChargesBy(a.charges, b.charges, t)
    && KeysBy(a.keys, b.keys, t)
    && MovementsBy(a.movements, b.movements, t)
    && LimitsBy(a.limits, b.limits, t)
  }

  /** A sound write by tenant `t`. */
  ghost predicate Sound(a: Db, b: Db, t: Id) {
    Inv(b) && Later(a, b) && WrittenBy(a, b, t)
  }

  // ----- idempotency keeps soundness -----

  lemma RememberSound(a: Db, b: Db, key: Key, hash: Fingerprint, response: Response)
    requires Sound(a, b, key.0) && b.keys == a.keys && key !in a.keys
    ensures Sound(a, Remember(b, key, hash, response), key.0)
  {
  }

  lemma ExecuteSound(read: Db, db: Db, ctx: Context, hash: Fingerprint, mutation: TxResult)
    requires Inv(db)
    requires mutation.Commit? ==> Sound(db, mutation.db, ctx.tenant) && mutation.db.keys == db.keys
    ensures Sound(db, ExecuteIdempotent(read, db, ctx, hash, mutation).0, ctx.tenant)
  {
    var key := (ctx.tenant, Text.Trim(ctx.header.GetOr("")));
    assert Sound(db, db, ctx.tenant);
    if key !in db.keys && mutation.Commit? {
      RememberSound(db, mutation.db, key, hash, mutation.response);
    } else if key !in db.keys && mutation.Unchanged? {
      RememberSound(db, db, key, hash, mutation.response);
    }
  }

  lemma SaveSound(db: Db, ctx: Context, hash: Fingerprint, tx: TxResult)
    requires Inv(db)
    requires tx.Commit? ==> Sound(db, tx.db, ctx.tenant) && tx.db.keys == db.keys
    ensures Sound(db, SaveIdempotency(db, ctx, hash, tx).0, ctx.tenant)
  {
    var key := (ctx.tenant, ctx.header.GetOr(""));
    assert Sound(db, db, ctx.tenant);
    if tx.Commit? && key !in db.keys {
      RememberSound(db, tx.db, key, hash, tx.response);
    }
  }

  // ----- the transactions on orders -----

  lemma HistoryGrows(h: seq<HistoryRow>, status: Status, row: HistoryRow)
    requires HistoryOk(h, status) && Follows(h[|h| - 1], row)
    ensures HistoryOk(h + [row], row.to)
  {
    var h' := h + [row];
    forall i | 0 < i < |h'| ensures Follows(h'[i - 1], h'[i]) {
      assert i < |h| ==> Follows(h[i - 1], h[i]);
    }
  }

  /** A rewrite of one order that advances its version is sound. */
  lemma PutOrderSound(db: Db, id: Id, o: Order, t: Id)
    requires Inv(db) && OrderOk(o) && ItemsLinked(o, db.products) && TableLinked(o, db.tables) && o.tenant == t
    requires if id in db.orders
             then OrderLater(db.orders[id], o) && db.orders[id].payments == o.payments
             else o.payments == []
    requires o.table.Some? && Active(o.status) ==> !Occupied(db, o.tenant, o.table.value, Some(id))
    ensures Sound(db, db.(orders := db.orders[id := o]), t)
  {
    PutOrder(db, id, o);
  }

  lemma FreeForAll(db: Db, tenant: Id, table: Id, id: Id)
    ensures Occupied(db, tenant, table, Some(id)) ==> Occupied(db, tenant, table, None)
  {
  }

  lemma CreateSound(db: Db, ctx: Context, seat: Seat, id: Id)
    requires Inv(db) && id !in db.orders
    requires seat.table.Some? ==> seat.table.value in db.tables && db.tables[seat.table.value].tenant == ctx.tenant
    ensures var tx := CreateTx(db, ctx, seat, id);
      tx.Commit? ==> Sound(db, tx.db, ctx.tenant) && tx.db.keys == db.keys
  {
    var tx := CreateTx(db, ctx, seat, id);
    if tx.Commit? {
      var o := tx.response.order;
      assert OrderOk(o);
      FreeForAll(db, ctx.tenant, seat.table.GetOr(""), id);
      PutOrderSound(db, id, o, ctx.tenant);
    }
  }

  /** An active order keeps the table it holds. */
  lemma StillSeated(db: Db, id: Id)
    requires Inv(db) && id in db.orders && Active(db.orders[id].status)
    ensures var o := db.orders[id]; o.table.Some? ==> !Occupied(db, o.tenant, o.table.value, Some(id))
  {
  }

  lemma AddItemSound(db: Db, ctx: Context, id: Id, expected: Option<int>, line: Item)
    requires Inv(db) && line.quantity >= 1 && line.price >= 0
    requires line.product.Some? ==>
               line.product.value in db.products && db.products[line.product.value].tenant == ctx.tenant
    ensures var tx := AddItemTx(db, ctx, id, expected, line);
      tx.Commit? ==> Sound(db, tx.db, ctx.tenant) && tx.db.keys == db.keys
  {
    var tx := AddItemTx(db, ctx, id, expected, line);
    if tx.Commit? {
      var o, o' := db.orders[id], tx.response.order;
      HistoryIsShort(o.history, o.status);
      StillSeated(db, id);
      assert ItemsLinked(o, db.products) && TableLinked(o, db.tables);
      assert OrderOk(o) && o.payments == [] && OrderOk(o');
      PutOrderSound(db, id, o', ctx.tenant);
    }
  }

  lemma StatusSound(db: Db, ctx: Context, id: Id, from: Status, body: StatusBody)
    requires Inv(db) && Predecessor(body.status) == Some(from)
    ensures var tx := UpdateStatusTx(db, ctx, id, from, body);
      tx.Commit? ==> Sound(db, tx.db, ctx.tenant) && tx.db.keys == db.keys
  {
    var tx := UpdateStatusTx(db, ctx, id, from, body);
    if tx.Commit? {
      var o, o' := db.orders[id], tx.response.order;
      StillSeated(db, id);
      assert ItemsLinked(o, db.products) && TableLinked(o, db.tables);
      assert OrderOk(o) && o.payments == [];
      HistoryGrows(o.history, o.status, o'.history[|o'.history| - 1]);
      PutOrderSound(db, id, o', ctx.tenant);
    }
  }

  lemma CloseSound(db: Db, ctx: Context, id: Id, expected: Option<int>)
    requires Inv(db)
    ensures var tx := CloseTx(db, ctx, id, expected);
      tx.Commit? ==> Sound(db, tx.db, ctx.tenant) && tx.db.keys == db.keys
  {
    var tx := CloseTx(db, ctx, id, expected);
    if tx.Commit? {
      var o, o' := db.orders[id], tx.response.order;
      assert ItemsLinked(o, db.products);
      assert OrderOk(o) && o.payments == [];
      HistoryGrows(o.history, o.status, o'.history[|o'.history| - 1]);
      PutOrderSound(db, id, o', ctx.tenant);
    }
  }

  lemma TransferSound(db: Db, ctx: Context, id: Id, target: Id)
    requires Inv(db)
    ensures var tx := TransferTx(db, ctx, id, target);
      tx.Commit? ==> Sound(db, tx.db, ctx.tenant) && tx.db.keys == db.keys
  {
    var tx := TransferTx(db, ctx, id, target);
    if tx.Commit? {
      var o, o' := db.orders[id], tx.response.order;
      assert ItemsLinked(o, db.products) && OrderOk(o);
      PutOrderSound(db, id, o', ctx.tenant);
    }
  }

  // ----- the two settlements -----

  lemma PutOrderLater(orders: Orders, id: Id, o: Order)
    requires id in orders && OrderLater(orders[id], o)
    ensures OrdersLater(orders, orders[id := o]) && OrdersBy(orders, orders[id := o], o.tenant)
  {
  }

  lemma WithSaleProgress(db: Db, id: Id, o: Order, seller: Seller)
    requires id in db.orders && OrderLater(db.orders[id], o) && ItemsLinked(db.orders[id], db.products)
    requires o.items == db.orders[id].items && seller.tenant == o.tenant
    ensures var db' := WithSale(db, id, o, seller, o.items);
      Later(db, db') && WrittenBy(db, db', o.tenant) && db'.keys == db.keys
  {
    PutOrderLater(db.orders, id, o);
    SaleFrame(db, db.orders[id], o, seller);
  }

  lemma WithSaleSound(db: Db, id: Id, o: Order, seller: Seller)
    requires Inv(db) && id in db.orders && db.orders[id].payments == [] && OrderLater(db.orders[id], o)
    requires OrderOk(o) && o.payments != [] && o.table.None? && o.items == db.orders[id].items &&
             PixPaid(id, o, db.charges)
    requires seller.tenant == o.tenant && seller.order == id
    ensures Sound(db, WithSale(db, id, o, seller, o.items), o.tenant)
    ensures WithSale(db, id, o, seller, o.items).keys == db.keys
  {
    assert ItemsLinked(db.orders[id], db.products);
    WithSaleProgress(db, id, o, seller);
    PutSale(db, id, o, seller);
  }

  lemma SaleFrame(db: Db, before: Order, o: Order, seller: Seller)
    requires ItemsLinked(before, db.products) && o.items == before.items && o.tenant == before.tenant == seller.tenant
    ensures var l := SellAll(Ledger(db.products, db.movements), seller, o.items, Products(o.items));
      && SameOwners(db.products, l.products) && ProductsBy(db.products, l.products, o.tenant)
      && db.movements <= l.movements && MovementsBy(db.movements, l.movements, o.tenant)
  {
    var l := Ledger(db.products, db.movements);
    ProductsAreDistinct(o.items);
    SellAllFrame(l, seller, o.items, Products(o.items));
    SellAllMovers(l, seller, o.items, Products(o.items));
    forall p | p in db.products && SellAll(l, seller, o.items, Products(o.items)).products[p] != db.products[p]
      ensures db.products[p].tenant == o.tenant
    {
      SellAllStock(l, seller, o.items, Products(o.items), p);
      assert Lists(o.items, p);
    }
  }

  lemma {:induction false} SellAllMovers(l: Ledger, seller: Seller, items: seq<Item>, order: seq<Id>)
    ensures var l' := SellAll(l, seller, items, order);
      l.movements <= l'.movements && MovementsBy(l.movements, l'.movements, seller.tenant)
    decreases |order|
  {
    if order != [] {
      SellAllMovers(l, seller, items, order[..|order| - 1]);
    }
  }

  /** An accepted quote is the exact bill of the items, and its payments are worth its total. */
  lemma QuoteIsExact(items: seq<Item>, role: Role, limit: Option<int>, body: SettleBody)
    requires ItemsOk(items)
    ensures var r := QuoteOf(items, role, limit, body);
      r.Ok? ==> QuoteExact(items, r.value)
  {
    var r := QuoteOf(items, role, limit, body);
    SubtotalNotNegative(items);
    if r.Ok? {
      AmountsArePositive(body.payments);
    }
  }

  /** The quote is the exact bill of the items, with payments worth its total. */
  predicate QuoteExact(items: seq<Item>, quote: Quote) {
    var t := quote.totals;
    && t.subtotal == Subtotal(items) && 0 <= t.discount <= t.subtotal && t.feeBps >= 0
    && t.fee == RoundBps((t.subtotal - t.discount) * t.feeBps)
    && t.total == t.subtotal - t.discount + t.fee
    && quote.payments != [] && AmountOf(quote.payments) == t.total && t.total > 0
    && (forall i :: 0 <= i < |quote.payments| ==> quote.payments[i].charge.None?)
  }

  lemma SettledOrderOk(o: Order, quote: Quote, user: Option<Id>, now: Time)
    requires OrderOk(o) && Active(o.status)
    requires QuoteExact(o.items, quote)
    ensures var o' := Settled(o, o.status, quote, user, now);
      OrderOk(o') && OrderLater(o, o') && BillOf(o.items, o'.bill) && o'.payments == quote.payments
  {
    var o' := Settled(o, o.status, quote, user, now);
    assert o.payments == [];
    assert o'.payments == quote.payments;
    HistoryGrows(o.history, o.status, o'.history[|o'.history| - 1]);
  }

  /** What a committed settlement went through: the version guard, and a quote of the snapshot. */
  lemma SettleCommits(seen: Seen, db: Db, ctx: Context, id: Id, body: SettleBody, now: Time) returns (quote: Quote)
    requires SettleTx(seen, db, ctx, id, body, now).Commit?
    ensures Owned(seen.order, ctx.tenant, id) && Owned(db, ctx.tenant, id)
    ensures Active(db.orders[id].status) && db.orders[id].version == seen.order.orders[id].version
    ensures exists role, limit :: QuoteOf(seen.order.orders[id].items, role, limit, body) == Ok(quote)
    ensures var o' := Settled(db.orders[id], seen.order.orders[id].status, quote, ctx.user, now);
      SettleTx(seen, db, ctx, id, body, now) ==
        Commit(WithSale(db, id, o', Seller(ctx.tenant, id, ctx.user, true), seen.order.orders[id].items),
            OrderView(id, o'))
  {
    quote := SettleGate(seen, ctx, id, body).quote;
    var role, limit := EffectiveRole(ctx.role), LimitOf(seen.limits, ctx.tenant);
    assert QuoteOf(seen.order.orders[id].items, role, limit, body) == Ok(quote);
  }

  lemma SettledSound(db: Db, id: Id, quote: Quote, user: Option<Id>, now: Time)
    requires Inv(db) && id in db.orders && Active(db.orders[id].status) && QuoteExact(db.orders[id].items, quote)
    ensures var o := db.orders[id]; var o' := Settled(o, o.status, quote, user, now);
      var db' := WithSale(db, id, o', Seller(o.tenant, id, user, true), o.items);
      Sound(db, db', o.tenant) && db'.keys == db.keys && BillOf(o.items, o'.bill)
  {
    var o := db.orders[id];
    assert OrderOk(o) && o.payments == [];
    SettledOrderOk(o, quote, user, now);
    var o' := Settled(o, o.status, quote, user, now);
    assert PixPaid(id, o', db.charges);
    WithSaleSound(db, id, o', Seller(o.tenant, id, user, true));
  }

  /** The version guard makes an earlier snapshot as good as the current row: the row guarded is the
      row that was read, and the bill written is the bill of the items at commit time. */
  lemma SettleSound(seen: Seen, db: Db, ctx: Context, id: Id, body: SettleBody, now: Time)
    requires Inv(db) && Later(seen.order, db)
    ensures var tx := SettleTx(seen, db, ctx, id, body, now);
      tx.Commit? ==>
        && Sound(db, tx.db, ctx.tenant) && tx.db.keys == db.keys
        && Owned(seen.order, ctx.tenant, id) && Owned(db, ctx.tenant, id) && seen.order.orders[id] == db.orders[id]
        && tx.response.OrderView? && BillOf(db.orders[id].items, tx.response.order.bill)
  {
    if SettleTx(seen, db, ctx, id, body, now).Commit? {
      var quote := SettleCommits(seen, db, ctx, id, body, now);
      var o := db.orders[id];
      assert seen.order.orders[id] == o by { assert OrderLater(seen.order.orders[id], o); }
      var role, limit :| QuoteOf(o.items, role, limit, body) == Ok(quote);
      assert QuoteExact(o.items, quote) by {
        assert OrderOk(o);
        QuoteIsExact(o.items, role, limit, body);
      }
      SettledSound(db, id, quote, ctx.user, now);
    }
  }

  lemma ChargeProgress(charges: map<Id, Charge>, c: Id, charge: Charge)
    requires c in charges ==> charge == charges[c].(status := charge.status)
    ensures ChargesLater(charges, charges[c := charge]) && ChargesBy(charges, charges[c := charge], charge.tenant)
  {
  }

  lemma PutChargeSound(db: Db, c: Id, charge: Charge)
    requires Inv(db) && charge.order in db.orders && db.orders[charge.order].tenant == charge.tenant &&
             charge.amount > 0
    requires c in db.charges ==> charge == db.charges[c].(status := charge.status)
    ensures Sound(db, db.(charges := db.charges[c := charge]), charge.tenant)
  {
    ChargeProgress(db.charges, c, charge);
    PutCharge(db, c, charge);
  }

  lemma PaidOrderOk(o: Order, charge: Charge, c: Id, now: Time)
    requires OrderOk(o) && Active(o.status)
    ensures var r := CalculateBillTotals(Subtotal(o.items), charge.discount, charge.feeBps);
      r.Ok? && r.value.total == charge.amount && charge.amount > 0 ==>
        var o' := PaidOrder(o, charge, c, r.value, now);
        OrderOk(o') && OrderLater(o, o') && BillOf(o.items, o'.bill) &&
            o'.payments == [Payment(Pix, charge.amount, None, 0, Some(c))]
  {
    hide RoundBps, Subtotal, ItemsOk;
    var r := CalculateBillTotals(Subtotal(o.items), charge.discount, charge.feeBps);
    SubtotalNotNegative(o.items);
    if r.Ok? && r.value.total == charge.amount && charge.amount > 0 {
      var o' := PaidOrder(o, charge, c, r.value, now);
      assert o.payments == [];
      HistoryGrows(o.history, o.status, o'.history[|o'.history| - 1]);
      assert o'.payments == [Payment(Pix, charge.amount, None, 0, Some(c))];
      assert o'.payments[..0] == [] && AmountOf(o'.payments[..0]) == 0;
    }
  }

  lemma PaymentSound(db: Db, c: Id, totals: Totals, now: Time)
    requires Inv(db) && c in db.charges && db.charges[c].order in db.orders
    requires db.charges[c].status != Paid && Active(db.orders[db.charges[c].order].status)
    requires CalculateBillTotals(Subtotal(db.orders[db.charges[c].order].items), db.charges[c].discount,
             db.charges[c].feeBps) == Ok(totals)
    requires totals.total == db.charges[c].amount
    ensures var charge := db.charges[c]; var o := db.orders[charge.order];
      var sold := WithSale(db, charge.order, PaidOrder(o, charge, c, totals, now),
          Seller(charge.tenant, charge.order, None, false), o.items);
      Sound(db, sold.(charges := db.charges[c := charge.(status := Paid)]), charge.tenant)
  {
    var charge := db.charges[c];
    var o := db.orders[charge.order];
    var o', seller := PaidOrder(o, charge, c, totals, now), Seller(charge.tenant, charge.order, None, false);
    PaidOrderOk(o, charge, c, now);
    assert OrderOk(o) && o.payments == [];
    var sold := WithSale(db, charge.order, o', seller, o.items);
    WithSaleSound(db, charge.order, o', seller);
    PutChargeSound(sold, c, charge.(status := Paid));
    WrittenByTransitive(db, sold, sold.(charges := sold.charges[c := charge.(status := Paid)]), charge.tenant);
  }

  lemma PaidSound(db: Db, c: Id, tenant: Id, now: Time)
    requires Inv(db) && (c in db.charges ==> db.charges[c].tenant == tenant)
    ensures Sound(db, PaidTx(db, c, tenant, now).0, tenant)
  {
    assert Sound(db, db, tenant);
    if c in db.charges && db.charges[c].order in db.orders {
      var charge, o := db.charges[c], db.orders[db.charges[c].order];
      var r := CalculateBillTotals(Subtotal(o.items), charge.discount, charge.feeBps);
      if charge.status != Paid && Active(o.status) && r.Ok? && r.value.total == charge.amount {
        PaymentSound(db, c, r.value, now);
      }
    }
  }

  lemma WrittenByTransitive(a: Db, b: Db, c: Db, t: Id)
    requires Later(a, b) && Later(b, c) && WrittenBy(a, b, t) && WrittenBy(b, c, t)
    ensures Later(a, c) && WrittenBy(a, c, t)
  {
    LaterTransitive(a, b, c);
    forall id | id in c.orders && (id !in a.orders || c.orders[id] != a.orders[id]) ensures c.orders[id].tenant == t {
      if id in b.orders && c.orders[id] == b.orders[id] {
      }
    }
  }

  // ----- stock writes -----

  /** A stock write is sound when the ledger it leaves is. */
  lemma PutStockSound(db: Db, l: Ledger, t: Id)
    requires Inv(db) && Balanced(l) && SameOwners(db.products, l.products) && PricesOk(l.products)
    requires forall id, p :: SalesOf(l.movements, id, p) == SalesOf(db.movements, id, p)
    requires ProductsBy(db.products, l.products, t) && db.movements <= l.movements &&
             MovementsBy(db.movements, l.movements, t)
    ensures Sound(db, db.(products := l.products, movements := l.movements), t)
  {
    PutStock(db, l);
  }

  lemma AdjustedLedger(l: Ledger, p: Product, m: Movement)
    requires Balanced(l) && PricesOk(l.products) && m.product in l.products && m.kind != Sale
    requires p == l.products[m.product].(cost := p.cost) && p.tenant == m.tenant
    ensures var l' := Record(l.(products := l.products[m.product := p]), m);
      && Balanced(l') && SameOwners(l.products, l'.products) && PricesOk(l'.products)
      && (forall id, q :: SalesOf(l'.movements, id, q) == SalesOf(l.movements, id, q))
      && ProductsBy(l.products, l'.products, m.tenant) && l.movements <= l'.movements &&
          MovementsBy(l.movements, l'.movements, m.tenant)
  {
    var costed := l.(products := l.products[m.product := p]);
    assert Balanced(costed);
    RecordKeepsBalance(costed, m);
    forall id, q ensures SalesOf(l.movements + [m], id, q) == SalesOf(l.movements, id, q) {
      SalesOfAppend(l.movements, m, id, q);
    }
  }

  lemma AdjustSound(db: Db, ctx: Context, product: Id, body: AdjustBody)
    requires Inv(db) && body.kind != Sale
    ensures var tx := AdjustTx(db, ctx, product, body);
      tx.Commit? ==> Sound(db, tx.db, ctx.tenant) && tx.db.keys == db.keys
  {
    var tx := AdjustTx(db, ctx, product, body);
    if tx.Commit? {
      var l, p, m := Ledger(db.products, db.movements), db.products[product], tx.response.movement;
      var costed := p.(cost := body.unitCost.GetOr(p.cost));
      AdjustedLedger(l, costed, m);
      PutStockSound(db, Record(l.(products := l.products[product := costed]), m), ctx.tenant);
    }
  }

  lemma {:induction false} ReceiveAllMovers(
      l: Ledger, t: Id, id: Id, author: Option<Id>, lines: seq<PurchaseLine>, read: map<Id, Product>)
    requires forall i :: 0 <= i < |lines| ==> lines[i].product in l.products && lines[i].product in read
    ensures var l' := ReceiveAll(l, t, id, author, lines, read);
      && l.movements <= l'.movements && MovementsBy(l.movements, l'.movements, t)
      && (forall o, p :: SalesOf(l'.movements, o, p) == SalesOf(l.movements, o, p))
    decreases |lines|
  {
    if lines != [] {
      var line := lines[|lines| - 1];
      ReceiveAllMovers(l, t, id, author, lines[..|lines| - 1], read);
      var before := ReceiveAll(l, t, id, author, lines[..|lines| - 1], read);
      var m := Movement(t, line.product, PurchaseEntry, line.quantity, Some(line.unitCost), Some(id), author);
      forall o, p ensures SalesOf(before.movements + [m], o, p) == SalesOf(before.movements, o, p) {
        SalesOfAppend(before.movements, m, o, p);
      }
    }
  }

  lemma {:induction false} UnlistedProductStays(
      l: Ledger, t: Id, id: Id, author: Option<Id>, lines: seq<PurchaseLine>, read: map<Id, Product>, p: Id)
    requires forall i :: 0 <= i < |lines| ==>
               lines[i].product in l.products && lines[i].product in read && lines[i].product != p
    requires p in l.products
    ensures ReceiveAll(l, t, id, author, lines, read).products[p] == l.products[p]
    decreases |lines|
  {
    if lines != [] {
      UnlistedProductStays(l, t, id, author, lines[..|lines| - 1], read, p);
    }
  }

  lemma PurchaseLedger(l: Ledger, t: Id, id: Id, author: Option<Id>, lines: seq<PurchaseLine>, read: map<Id, Product>)
    requires Balanced(l) && PricesOk(l.products)
    requires forall i :: 0 <= i < |lines| ==>
               lines[i].product in l.products && lines[i].product in read && l.products[lines[i].product].tenant == t
    ensures var l' := ReceiveAll(l, t, id, author, lines, read);
      && Balanced(l') && SameOwners(l.products, l'.products) && PricesOk(l'.products)
      && (forall o, q :: SalesOf(l'.movements, o, q) == SalesOf(l.movements, o, q))
      && ProductsBy(l.products, l'.products, t) && l.movements <= l'.movements &&
          MovementsBy(l.movements, l'.movements, t)
  {
    ReceiveAllMovers(l, t, id, author, lines, read);
    ReceiveAllKeepsBalance(l, t, id, author, lines, read);
    var l' := ReceiveAll(l, t, id, author, lines, read);
    forall p | p in l.products && l'.products[p] != l.products[p] ensures l.products[p].tenant == t {
      if forall i :: 0 <= i < |lines| ==> lines[i].product != p {
        UnlistedProductStays(l, t, id, author, lines, read, p);
      }
    }
  }

  lemma PurchaseSound(look: Db, db: Db, ctx: Context, lines: seq<PurchaseLine>, id: Id)
    requires Inv(db) && AllOwned(look, ctx.tenant, lines) && SameOwners(look.products, db.products)
    ensures var tx := PurchaseTx(look, db, ctx, lines, id);
      tx.Commit? ==> Sound(db, tx.db, ctx.tenant) && tx.db.keys == db.keys
  {
    var l := Ledger(db.products, db.movements);
    PurchaseLedger(l, ctx.tenant, id, ctx.user, lines, look.products);
    PutStockSound(db, ReceiveAll(l, ctx.tenant, id, ctx.user, lines, look.products), ctx.tenant);
  }
}
