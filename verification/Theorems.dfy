/** What the integrity invariant means for users of the system, over whole runs. */
module Theorems {
  import opened Outcomes
  import opened Financial
  import opened Schema
  import opened Stock
  import opened Handlers
  import opened Integrity
  import opened Progress
  import opened Runs

  lemma StateFacts(states: seq<Db>, steps: seq<Step>, i: nat, j: nat)
    requires Run(states, steps) && i <= j < |states|
    ensures Inv(states[i]) && Later(states[i], states[j])
  {
    ReachableStatesAreSound(states, steps, j);
  }

  // ----- versions and closing -----

  /** The version is a faithful stamp: whenever an order has the same version in two states of a
      run, its whole row is the same, with items, payments and history. */
  lemma VersionIsAFaithfulStamp(states: seq<Db>, steps: seq<Step>, i: nat, j: nat, id: Id)
    requires Run(states, steps) && i <= j < |states|
    requires id in states[i].orders && id in states[j].orders
    requires states[i].orders[id].version == states[j].orders[id].version
    ensures states[i].orders[id] == states[j].orders[id]
  {
    StateFacts(states, steps, i, j);
    assert OrderLater(states[i].orders[id], states[j].orders[id]);
  }

  /** A closed order is never touched again; before that its rank only rises, and its items, payments
      and history only grow. */
  lemma LifecycleIsMonotone(states: seq<Db>, steps: seq<Step>, i: nat, j: nat, id: Id)
    requires Run(states, steps) && i <= j < |states| && id in states[i].orders
    ensures id in states[j].orders
    ensures var o, p := states[i].orders[id], states[j].orders[id];
      && (o.status == Closed ==> p == o)
      && Rank(o.status) <= Rank(p.status)
      && o.items <= p.items && o.history <= p.history && o.payments <= p.payments
      && p.tenant == o.tenant
  {
    StateFacts(states, steps, i, j);
    assert OrderLater(states[i].orders[id], states[j].orders[id]);
  }

  /** The history of an order is a strictly rising walk of at most four rows from open to its status. Only
      an open order is sent to the kitchen, and only a sent one delivered; each row names the status it
      leaves, but the row of a close without payments names none. */
  lemma HistoryIsAWalk(states: seq<Db>, steps: seq<Step>, i: nat, id: Id)
    requires Run(states, steps) && i < |states| && id in states[i].orders
    ensures var o := states[i].orders[id]; var h := o.history;
      && 1 <= |h| <= 4
      && h[0].from.None? && h[0].to == Open && h[|h| - 1].to == o.status
      && (forall k :: 0 < k < |h| ==>
            && Rank(h[k - 1].to) < Rank(h[k].to)
            && (h[k].to == SentToKitchen ==> h[k - 1].to == Open)
            && (h[k].to == Delivered ==> h[k - 1].to == SentToKitchen)
            && (h[k].from == Some(h[k - 1].to) || (h[k].from.None? && h[k].to == Closed)))
  {
    StateFacts(states, steps, i, i);
    var o := states[i].orders[id];
    assert OrderOk(o);
    HistoryIsShort(o.history, o.status);
    forall k | 0 < k < |o.history| ensures Follows(o.history[k - 1], o.history[k]) {
    }
  }

  /** A table is held by at most one active order of its tenant, and a closed order holds none. */
  lemma OneActiveOrderPerTable(states: seq<Db>, steps: seq<Step>, i: nat, a: Id, b: Id)
    requires Run(states, steps) && i < |states| && a in states[i].orders && b in states[i].orders
    ensures var o, p := states[i].orders[a], states[i].orders[b];
      && (o.status == Closed ==> o.table.None?)
      && (Active(o.status) && Active(p.status) && o.tenant == p.tenant && o.table.Some? && o.table == p.table ==>
          a == b)
  {
    StateFacts(states, steps, i, i);
    assert OrderOk(states[i].orders[a]);
  }

  /** Step `i` closes the order, through settlement, plain close or a Pix notification. */
  predicate ClosesAt(states: seq<Db>, i: nat, id: Id) {
    && i + 1 < |states|
    && id in states[i].orders && states[i].orders[id].status != Closed
    && id in states[i + 1].orders && states[i + 1].orders[id].status == Closed
  }

  /** Step `i` records payments for the order. */
  predicate PaysAt(states: seq<Db>, i: nat, id: Id) {
    && i + 1 < |states|
    && id in states[i].orders && id in states[i + 1].orders
    && states[i].orders[id].payments != states[i + 1].orders[id].payments
  }

  /** No order is closed twice or paid twice, through any mix of settle, close and webhook; and an
      order closed without payments is never paid later. */
  lemma NoSecondSettlement(states: seq<Db>, steps: seq<Step>, i: nat, j: nat, id: Id)
    requires Run(states, steps) && i < |steps| && j < |steps|
    requires ClosesAt(states, i, id) || PaysAt(states, i, id)
    requires ClosesAt(states, j, id) || PaysAt(states, j, id)
    ensures i == j
    ensures PaysAt(states, i, id) ==> ClosesAt(states, i, id)
  {
    if PaysAt(states, i, id) {
      PayingCloses(states, steps, i, id);
    }
    if PaysAt(states, j, id) {
      PayingCloses(states, steps, j, id);
    }
    if i < j {
      LifecycleIsMonotone(states, steps, i + 1, j, id);
    } else if j < i {
      LifecycleIsMonotone(states, steps, j + 1, i, id);
    }
  }

  lemma PayingCloses(states: seq<Db>, steps: seq<Step>, i: nat, id: Id)
    requires Run(states, steps) && i < |steps| && PaysAt(states, i, id)
    ensures ClosesAt(states, i, id)
  {
    StateFacts(states, steps, i, i + 1);
    StateFacts(states, steps, i + 1, i + 1);
    assert OrderLater(states[i].orders[id], states[i + 1].orders[id]);
    assert OrderOk(states[i].orders[id]) && OrderOk(states[i + 1].orders[id]);
  }

  // ----- what the version counts -----

  function Slack(o: Order): int {
    o.version - |o.history| - |o.items|
  }

  /** Versions advance in step with histories and items; a new order starts in step. */
  predicate VersionsInStep(a: Orders, b: Orders) {
    forall id :: id in b ==> Slack(b[id]) == (if id in a then Slack(a[id]) else 0)
  }

  lemma CreateInStep(read: Db, look: Db, db: Db, ctx: Context, body: CreateBody, env: Env)
    requires env.newId !in db.orders
    ensures VersionsInStep(db.orders, ServeCreate(read, look, db, ctx, body, env).0.orders)
  {
  }

  /** Saving the key leaves the orders as the transaction left them. */
  lemma SavedOrders(read: Db, db: Db, ctx: Context, hash: Fingerprint, tx: TxResult)
    requires tx.Commit? ==> VersionsInStep(db.orders, tx.db.orders)
    ensures VersionsInStep(db.orders, SaveIdempotency(db, ctx, hash, tx).0.orders)
    ensures VersionsInStep(db.orders, CheckAndSave(read, db, ctx, hash, tx).0.orders)
  {
  }

  lemma AddItemTxInStep(db: Db, ctx: Context, id: Id, expected: Option<int>, line: Item)
    ensures var tx := AddItemTx(db, ctx, id, expected, line); tx.Commit? ==> VersionsInStep(db.orders, tx.db.orders)
  {
  }

  lemma AddItemInStep(read: Db, look: Db, db: Db, ctx: Context, id: Id, body: AddItemBody)
    ensures VersionsInStep(db.orders, ServeAddItem(read, look, db, ctx, id, body).0.orders)
  {
    var line := ReadLine(look, ctx.tenant, body);
    if line.Ok? {
      AddItemTxInStep(db, ctx, id, body.expected, line.value);
      SavedOrders(read, db, ctx, OfItem(body), AddItemTx(db, ctx, id, body.expected, line.value));
    }
  }

  lemma StatusTxInStep(db: Db, ctx: Context, id: Id, from: Status, body: StatusBody)
    ensures var tx := UpdateStatusTx(db, ctx, id, from, body); tx.Commit? ==> VersionsInStep(db.orders, tx.db.orders)
  {
  }

  lemma StatusInStep(read: Db, db: Db, ctx: Context, id: Id, body: StatusBody)
    ensures VersionsInStep(db.orders, ServeStatus(read, db, ctx, id, body).0.orders)
  {
    var from := Predecessor(body.status);
    if from.Some? {
      StatusTxInStep(db, ctx, id, from.value, body);
      SavedOrders(read, db, ctx, OfStatus(body), UpdateStatusTx(db, ctx, id, from.value, body));
    }
  }

  lemma CloseTxInStep(db: Db, ctx: Context, id: Id, expected: Option<int>)
    ensures var tx := CloseTx(db, ctx, id, expected); tx.Commit? ==> VersionsInStep(db.orders, tx.db.orders)
  {
  }

  lemma ServeSettleInStep(read: Db, seen: Seen, db: Db, ctx: Context, id: Id, body: SettleBody, env: Env)
    ensures VersionsInStep(db.orders, ServeSettle(read, seen, db, ctx, id, body, env).0.orders)
  {
    SettleInStep(seen, db, ctx, id, body, env.now);
    var tx := SettleTx(seen, db, ctx, id, body, env.now);
    assert ServeSettle(read, seen, db, ctx, id, body, env).0.orders in
      {db.orders, match tx case Commit(db', _) => db'.orders case _ => db.orders};
  }

  lemma CloseInStep(read: Db, seen: Seen, db: Db, ctx: Context, id: Id, body: SettleBody, env: Env)
    ensures VersionsInStep(db.orders, ServeClose(read, seen, db, ctx, id, body, env).0.orders)
  {
    if body.payments != [] {
      ServeSettleInStep(read, seen, db, ctx, id, body, env);
    } else {
      CloseTxInStep(db, ctx, id, body.expected);
      SavedOrders(read, db, ctx, OfClose(body), CloseTx(db, ctx, id, body.expected));
    }
  }

  lemma OrdersUntouched(read: Db, look: Db, db: Db, ctx: Context, call: Call, env: Env, picked: Id)
    ensures call.AdjustStock? ==> ServeAdjust(read, db, ctx, call.product, call.adjust).0.orders == db.orders
    ensures call.RegisterPurchase? ==> ServePurchase(read, look, db, ctx, call.lines, env).0.orders == db.orders
    ensures call.CreateCharge? ==> ServeCharge(read, db, ctx, call.charge, env, picked).0.orders == db.orders
  {
  }

  lemma ServeInStep(read: Db, seen: Seen, db: Db, ctx: Context, call: Call, env: Env, picked: Id)
    requires !call.TransferTable? && env.newId !in db.orders
    ensures VersionsInStep(db.orders, Serve(read, seen, db, ctx, call, env, picked).0.orders)
  {
    match call
    case SettleOrder(id, body) => ServeSettleInStep(read, seen, db, ctx, id, body, env);
    case CloseOrder(id, body) => CloseInStep(read, seen, db, ctx, id, body, env);
    case RegisterPurchase(_) => OrdersUntouched(read, seen.look, db, ctx, call, env, picked);
    case AdjustStock(_, _) => OrdersUntouched(read, seen.look, db, ctx, call, env, picked);
    case CreateCharge(_) => OrdersUntouched(read, seen.look, db, ctx, call, env, picked);
    case CreateOrder(body) => CreateInStep(read, seen.look, db, ctx, body, env);
    case AddItem(id, body) => AddItemInStep(read, seen.look, db, ctx, id, body);
    case UpdateStatus(id, body) => StatusInStep(read, db, ctx, id, body);
    case TransferTable(_, _) =>
  }

  lemma SettleInStep(seen: Seen, db: Db, ctx: Context, id: Id, body: SettleBody, now: Time)
    ensures var tx := SettleTx(seen, db, ctx, id, body, now); tx.Commit? ==> VersionsInStep(db.orders, tx.db.orders)
  {
    if SettleTx(seen, db, ctx, id, body, now).Commit? {
      var quote := SettleCommits(seen, db, ctx, id, body, now);
    }
  }

  lemma PaidInStep(db: Db, c: Id, tenant: Id, now: Time)
    ensures VersionsInStep(db.orders, PaidTx(db, c, tenant, now).0.orders)
  {
  }

  lemma HookInStep(read: Db, db: Db, hook: Hook, c: Id, now: Time)
    ensures VersionsInStep(db.orders, ServeHook(read, db, hook, c, now).0.orders)
  {
    if c in read.charges {
      PaidInStep(db, c, read.charges[c].tenant, now);
    }
  }

  /** Step `i` moves order `id` to another table. */
  predicate TransfersAt(states: seq<Db>, step: Step, i: nat, id: Id) {
    && i + 1 < |states|
    && step.Api? && step.call.TransferTable? && step.call.id == id
    && id in states[i].orders && id in states[i + 1].orders && states[i].orders[id] != states[i + 1].orders[id]
  }

  function Transfers(states: seq<Db>, steps: seq<Step>, n: nat, id: Id): nat
    requires n <= |steps|
  {
    if n == 0 then
      0
    else
      Transfers(states, steps, n - 1, id) + (if TransfersAt(states, steps[n - 1], n - 1, id) then 1 else 0)
  }

  lemma StepCounts(states: seq<Db>, step: Step, i: nat, id: Id)
    requires i + 1 < |states| && StepsTo(states, step, i) && id in states[i + 1].orders
    ensures Slack(states[i + 1].orders[id]) ==
            (if id in states[i].orders then Slack(states[i].orders[id]) else 0) +
            (if TransfersAt(states, step, i, id) then 1 else 0)
  {
    var past := states[..i + 1];
    assert Last(past) == states[i];
    match step
    case Api(read, sight, ctx, call, env, picked) =>
      if !call.TransferTable? {
        ServeInStep(past[read], SeenAt(past, sight), states[i], ctx, call, env, picked);
      }
    case Webhook(read, hook, charge, now) => HookInStep(past[read], states[i], hook, charge, now);
    case _ =>
  }

  /** The version counts: one for each history row, each item and each move to another table. */
  lemma {:induction false} VersionCountsEvents(states: seq<Db>, steps: seq<Step>, n: nat, id: Id)
    requires Run(states, steps) && n < |states| && id in states[n].orders
    ensures states[n].orders[id].version ==
            |states[n].orders[id].history| + |states[n].orders[id].items| + Transfers(states, steps, n, id)
  {
    hide StepsTo, TransfersAt;
    if n > 0 {
      assert StepsTo(states, steps[n - 1], n - 1);
      StepCounts(states, steps[n - 1], n - 1, id);
      if id in states[n - 1].orders {
        VersionCountsEvents(states, steps, n - 1, id);
      } else {
        NoTransfersBeforeCreation(states, steps, n, id);
      }
    }
  }

  lemma {:induction false} NoTransfersBeforeCreation(states: seq<Db>, steps: seq<Step>, n: nat, id: Id)
    requires Run(states, steps) && 0 < n < |states| && id !in states[n - 1].orders
    ensures Transfers(states, steps, n, id) == 0
  {
    if n > 1 {
      StateFacts(states, steps, n - 2, n - 1);
      assert id !in states[n - 2].orders;
      NoTransfersBeforeCreation(states, steps, n - 1, id);
    } else {
      assert Transfers(states, steps, 0, id) == 0;
    }
  }

  // ----- money -----

  /** In every state, an order's payments add up to its total: zero until it is settled, and then
      exactly subtotal - discount + fee, with the subtotal taken from its items. */
  lemma PaymentsEqualTotal(states: seq<Db>, steps: seq<Step>, i: nat, id: Id)
    requires Run(states, steps) && i < |states| && id in states[i].orders
    ensures var o := states[i].orders[id];
      && AmountOf(o.payments) == o.bill.total
      && (o.status != Closed ==> o.payments == [] && o.bill.total == 0)
      && (o.payments != [] ==> BillOf(o.items, o.bill) && o.bill.total > 0)
      && o.bill.total == o.bill.subtotal - o.bill.discount + o.bill.fee
  {
    StateFacts(states, steps, i, i);
    assert OrderOk(states[i].orders[id]);
  }

  /** When settleOrder commits, the row it read, however long ago, is the row it writes over, and
      the bill it writes is the bill of the items at that moment. */
  lemma SettlementBillsCurrentItems(states: seq<Db>, steps: seq<Step>, sight: Sight, i: nat, ctx: Context, id: Id,
      body: SettleBody, now: Time)
    requires Run(states, steps) && sight.order <= i < |states| && Within(sight, |states|)
    ensures var tx := SettleTx(SeenAt(states, sight), states[i], ctx, id, body, now);
      tx.Commit? ==>
        && id in states[sight.order].orders && id in states[i].orders
        && states[sight.order].orders[id] == states[i].orders[id]
        && tx.response.OrderView?
        && BillOf(states[i].orders[id].items, tx.response.order.bill)
        && AmountOf(tx.response.order.payments) == tx.response.order.bill.total
  {
    StateFacts(states, steps, sight.order, i);
    StateFacts(states, steps, i, i);
    SettleSound(SeenAt(states, sight), states[i], ctx, id, body, now);
    var tx := SettleTx(SeenAt(states, sight), states[i], ctx, id, body, now);
    if tx.Commit? {
      SettleWritesItsResponse(SeenAt(states, sight), states[i], ctx, id, body, now);
      assert OrderOk(tx.db.orders[id]);
    }
  }

  lemma SettleWritesItsResponse(seen: Seen, db: Db, ctx: Context, id: Id, body: SettleBody, now: Time)
    ensures var tx := SettleTx(seen, db, ctx, id, body, now);
      tx.Commit? ==> tx.response.OrderView? && id in tx.db.orders && tx.db.orders[id] == tx.response.order
  {
  }

  // ----- stock -----

  /** Every product's quantity is the sum of its movements, in every state. */
  lemma StockIsTheSumOfItsMovements(states: seq<Db>, steps: seq<Step>, i: nat, p: Id)
    requires Run(states, steps) && i < |states|
    ensures p in states[i].products ==> states[i].products[p].stock == Moved(states[i].movements, p)
    ensures p !in states[i].products ==> Moved(states[i].movements, p) == 0
  {
    StateFacts(states, steps, i, i);
    if p !in states[i].products {
      UnknownProductNeverMoved(states[i].movements, p);
    }
  }

  /** The effect on product `p` of settling order `id`: if the order lists it and it is controlled at
      that moment, it falls by the quantity sold and gets exactly one sale movement, of that size;
      otherwise it keeps its quantity and gets none. */
  predicate ProductSold(db: Db, db': Db, id: Id, p: Id)
    requires id in db.orders && p in db.products
  {
    var items := db.orders[id].items;
    var sells := Lists(items, p) && db.products[p].controlled;
    && p in db'.products
    && db'.products[p] == db.products[p].(stock := db.products[p].stock - (if sells then 1000 * Sold(items, p) else 0))
    && |SalesOf(db'.movements, id, p)| == (if sells then 1 else 0)
    && (sells ==> SalesOf(db'.movements, id, p)[0].quantity == -1000 * Sold(items, p))
  }

  /** The movement is the sale of a controlled product that the order lists: minus the quantity sold, at
      the cost of the product's first item. */
  predicate IsSaleOf(db: Db, id: Id, author: Option<Id>, m: Movement)
    requires id in db.orders
  {
    var items := db.orders[id].items;
    && m.kind == Sale && m.reference == Some(id) && m.tenant == db.orders[id].tenant && m.author == author
    && m.product in db.products && db.products[m.product].controlled && Lists(items, m.product)
    && m.quantity == -1000 * Sold(items, m.product) && m.unitCost == Some(FirstCost(items, m.product))
  }

  /** The stock moves by exactly the sale of the order, product by product, and no other movement is
      added. */
  predicate SoldExactly(db: Db, db': Db, id: Id, author: Option<Id>)
    requires id in db.orders
  {
    && (forall p :: p in db.products ==> ProductSold(db, db', id, p))
    && db'.products.Keys == db.products.Keys
    && db.movements <= db'.movements
    && (forall i :: |db.movements| <= i < |db'.movements| ==> IsSaleOf(db, id, author, db'.movements[i]))
  }

  lemma ProductSoldAt(db: Db, id: Id, o: Order, seller: Seller, p: Id)
    requires SalesOnce(db.orders, db.movements) && id in db.orders && ItemsLinked(db.orders[id], db.products)
    requires db.orders[id].payments == [] && o.items == db.orders[id].items && p in db.products
    requires seller.tenant == db.orders[id].tenant && seller.order == id
    ensures ProductSold(db, WithSale(db, id, o, seller, o.items), id, p)
  {
    var l, items := Ledger(db.products, db.movements), o.items;
    ProductsAreDistinct(items);
    SellAllFrame(l, seller, items, Products(items));
    SellAllStock(l, seller, items, Products(items), p);
    SellAllMovements(l, seller, items, Products(items), id, p);
    assert |SalesOf(db.movements, id, p)| <= (if IsSettled(db.orders, id) then 1 else 0);
  }

  lemma SaleIsExact(db: Db, id: Id, o: Order, seller: Seller)
    requires Inv(db) && id in db.orders && db.orders[id].payments == [] && o.items == db.orders[id].items
    requires seller.tenant == db.orders[id].tenant && seller.order == id
    ensures SoldExactly(db, WithSale(db, id, o, seller, o.items), id, seller.author)
  {
    assert ItemsLinked(db.orders[id], db.products);
    forall p | p in db.products ensures ProductSold(db, WithSale(db, id, o, seller, o.items), id, p) {
      ProductSoldAt(db, id, o, seller, p);
    }
    OnlySalesAdded(db, id, o, seller);
  }

  lemma OnlySalesAdded(db: Db, id: Id, o: Order, seller: Seller)
    requires id in db.orders && o.items == db.orders[id].items
    requires seller.tenant == db.orders[id].tenant && seller.order == id
    ensures var db' := WithSale(db, id, o, seller, o.items);
      && db'.products.Keys == db.products.Keys && db.movements <= db'.movements
      && (forall i :: |db.movements| <= i < |db'.movements| ==> IsSaleOf(db, id, seller.author, db'.movements[i]))
  {
    var l, items := Ledger(db.products, db.movements), o.items;
    ProductsAreDistinct(items);
    SellAllFrame(l, seller, items, Products(items));
    var db' := WithSale(db, id, o, seller, items);
    forall i | |db.movements| <= i < |db'.movements| ensures IsSaleOf(db, id, seller.author, db'.movements[i]) {
      SellAllAddsOnlySales(l, seller, items, Products(items), i);
    }
  }

  /** settleOrder moves the stock exactly. */
  lemma SettleMovesStockExactly(seen: Seen, db: Db, ctx: Context, id: Id, body: SettleBody, now: Time)
    requires Inv(db) && Later(seen.order, db)
    ensures var tx := SettleTx(seen, db, ctx, id, body, now);
      tx.Commit? ==> id in db.orders && SoldExactly(db, tx.db, id, ctx.user)
  {
    if SettleTx(seen, db, ctx, id, body, now).Commit? {
      var quote := SettleCommits(seen, db, ctx, id, body, now);
      assert seen.order.orders[id] == db.orders[id] by { assert OrderLater(seen.order.orders[id], db.orders[id]); }
      assert db.orders[id].payments == [] by { assert OrderOk(db.orders[id]); }
      SaleIsExact(db, id, Settled(db.orders[id], seen.order.orders[id].status, quote, ctx.user, now),
          Seller(ctx.tenant, id, ctx.user, true));
    }
  }

  /** So does a paid Pix notification, although it looks products up without their tenant. */
  lemma WebhookMovesStockExactly(db: Db, c: Id, now: Time)
    requires Inv(db) && c in db.charges
    ensures var (db', reply) := PaidTx(db, c, db.charges[c].tenant, now);
      var id := db.charges[c].order;
      && id in db.orders
      && (reply == Acknowledged(false) ==>
            && SoldExactly(db, db', id, None)
            && db'.orders[id].status == Closed
            && db'.orders[id].payments == [Payment(Pix, db.charges[c].amount, None, 0, Some(c))]
            && BillOf(db.orders[id].items, db'.orders[id].bill))
      && (reply != Acknowledged(false) ==> db' == db)
  {
    var charge := db.charges[c];
    var id := charge.order;
    assert id in db.orders && db.orders[id].tenant == charge.tenant;
    var (db', reply) := PaidTx(db, c, charge.tenant, now);
    if reply == Acknowledged(false) {
      var o := db.orders[id];
      assert OrderOk(o) && o.payments == [];
      var totals := CalculateBillTotals(Subtotal(o.items), charge.discount, charge.feeBps).value;
      PaidOrderOk(o, charge, c, now);
      SaleIsExact(db, id, PaidOrder(o, charge, c, totals, now), Seller(charge.tenant, id, None, false));
    }
  }

  /** Paid is not the last status of a charge: a late notification of another status overwrites it
      exactly when it had looked the charge up before it was paid. The order stays settled all the
      same. */
  lemma PaidIsOverwrittenExactlyWhen(read: Db, db: Db, hook: Hook, c: Id, now: Time)
    requires Matches(read, hook, c) && c in db.charges && db.charges[c].status == Paid
    requires hook.amount.Some? ==> hook.amount.value == read.charges[c].amount
    ensures ServeHook(read, db, hook, c, now).0.charges[c].status != Paid <==>
            read.charges[c].status != Paid && hook.status != Paid
    ensures ServeHook(read, db, hook, c, now).0.orders == db.orders
  {
  }

  // ----- tenants -----

  /** Everything in the database that belongs to one tenant. */
  datatype TenantView = TenantView(
    orders: Orders, products: map<Id, Product>, tables: map<Id, DiningTable>, charges: map<Id, Charge>,
    movements: seq<Movement>, keys: map<Key, KeyRow>, limit: Option<int>)

  function MovementsOf(movements: seq<Movement>, t: Id): seq<Movement> {
    if movements == [] then
      []
    else
      var m := movements[|movements| - 1];
      MovementsOf(movements[..|movements| - 1], t) + (if m.tenant == t then [m] else [])
  }

  function ViewOf(db: Db, t: Id): TenantView {
    TenantView(
      map id | id in db.orders && db.orders[id].tenant == t :: db.orders[id],
      map p | p in db.products && db.products[p].tenant == t :: db.products[p],
      map d | d in db.tables && db.tables[d].tenant == t :: db.tables[d],
      map c | c in db.charges && db.charges[c].tenant == t :: db.charges[c],
      MovementsOf(db.movements, t),
      map k | k in db.keys && k.0 == t :: db.keys[k],
      if t in db.limits then Some(db.limits[t]) else None)
  }

  lemma {:induction false} OthersMovementsUnchanged(a: seq<Movement>, b: seq<Movement>, t: Id, u: Id)
    requires a <= b && MovementsBy(a, b, t) && u != t
    ensures MovementsOf(b, u) == MovementsOf(a, u)
    decreases |b|
  {
    if |b| > |a| {
      OthersMovementsUnchanged(a, b[..|b| - 1], t, u);
    } else {
      assert a == b;
    }
  }

  lemma OthersOrdersUnchanged(a: Orders, b: Orders, t: Id, u: Id)
    requires OrdersLater(a, b) && OrdersBy(a, b, t) && u != t
    ensures (map id | id in a && a[id].tenant == u :: a[id]) == (map id | id in b && b[id].tenant == u :: b[id])
  {
    forall id | id in a ensures id in b && OrderLater(a[id], b[id]) {
    }
  }

  /** No step, whoever takes it, changes anything that another tenant can see. */
  lemma OtherTenantsAreUntouched(states: seq<Db>, steps: seq<Step>, i: nat, u: Id)
    requires Run(states, steps) && i < |steps|
    ensures Enabled(states[..i + 1], steps[i])
    ensures u != Actor(states[..i + 1], steps[i]) ==> ViewOf(states[i + 1], u) == ViewOf(states[i], u)
  {
    assert StepsTo(states, steps[i], i);
    ReachableStatesAreSound(states, steps, i);
    StepSoundAt(states, steps[i], i);
    var t := Actor(states[..i + 1], steps[i]);
    if u != t {
      WriteIsInvisible(states[i], states[i + 1], t, u);
    }
  }

  lemma OthersProductsUnchanged(a: map<Id, Product>, b: map<Id, Product>, t: Id, u: Id)
    requires SameOwners(a, b) && ProductsBy(a, b, t) && u != t
    ensures (map p | p in a && a[p].tenant == u :: a[p]) == (map p | p in b && b[p].tenant == u :: b[p])
  {
  }

  lemma OthersTablesUnchanged(a: map<Id, DiningTable>, b: map<Id, DiningTable>, t: Id, u: Id)
    requires TablesLater(a, b) && TablesBy(a, b, t) && u != t
    ensures (map d | d in a && a[d].tenant == u :: a[d]) == (map d | d in b && b[d].tenant == u :: b[d])
  {
  }

  lemma OthersChargesUnchanged(a: map<Id, Charge>, b: map<Id, Charge>, t: Id, u: Id)
    requires ChargesLater(a, b) && ChargesBy(a, b, t) && u != t
    ensures (map c | c in a && a[c].tenant == u :: a[c]) == (map c | c in b && b[c].tenant == u :: b[c])
  {
  }

  lemma OthersKeysUnchanged(a: map<Key, KeyRow>, b: map<Key, KeyRow>, t: Id, u: Id)
    requires KeysLater(a, b) && KeysBy(a, b, t) && u != t
    ensures (map k | k in a && k.0 == u :: a[k]) == (map k | k in b && k.0 == u :: b[k])
  {
  }

  lemma WriteIsInvisible(a: Db, b: Db, t: Id, u: Id)
    requires Later(a, b) && WrittenBy(a, b, t) && u != t
    ensures ViewOf(b, u) == ViewOf(a, u)
  {
    OthersMovementsUnchanged(a.movements, b.movements, t, u);
    OthersOrdersUnchanged(a.orders, b.orders, t, u);
    OthersProductsUnchanged(a.products, b.products, t, u);
    OthersTablesUnchanged(a.tables, b.tables, t, u);
    OthersChargesUnchanged(a.charges, b.charges, t, u);
    OthersKeysUnchanged(a.keys, b.keys, t, u);
  }
}
