/** The handlers as they run: methods that update the tables in place, statement by statement,
    inside transactions that roll back. Each is proved to do exactly what `Handlers` says. */
module Database {
  import opened Outcomes
  import opened Financial
  import opened Schema
  import opened Stock
  import opened Handlers
  import opened Integrity
  import opened Progress
  import opened Runs
  import Text

  /** A transaction body did what `tx` describes; after a throw the caller rolls back. */
  ghost predicate Performs(db: Db, db': Db, r: Result<Response>, tx: TxResult) {
    match tx
    case Commit(committed, response) => db' == committed && r == Ok(response)
    case Unchanged(response) => db' == db && r == Ok(response)
    case Abort(error) => r == Fail(error)
  }

  class Tables {
    var orders: map<Id, Order>
    var products: map<Id, Product>
    var tables: map<Id, DiningTable>
    var limits: map<Id, int>
    var charges: map<Id, Charge>
    var movements: seq<Movement>
    var keys: map<Key, KeyRow>

    constructor ()
      ensures Snapshot() == Db(map[], map[], map[], map[], map[], [], map[])
    {
      orders, products, tables, limits := map[], map[], map[], map[];
      charges, movements, keys := map[], [], map[];
    }

    function Snapshot(): Db
      reads this
    {
      Db(orders, products, tables, limits, charges, movements, keys)
    }

    method Rollback(saved: Db)
      modifies this
      ensures Snapshot() == saved
    {
      orders, products, tables, limits := saved.orders, saved.products, saved.tables, saved.limits;
      charges, movements, keys := saved.charges, saved.movements, saved.keys;
    }

    // ----- executeIdempotent -----

    /** The insert that opens the transaction; it fails on an existing key. */
    method Begin(key: Key, hash: Fingerprint) returns (started: bool)
      modifies this`keys
      ensures started == (key !in old(keys))
      ensures keys == if started then old(keys)[key := KeyRow(Processing, hash, None)] else old(keys)
    {
      started := key !in keys;
      if started {
        keys := keys[key := KeyRow(Processing, hash, None)];
      }
    }

    /** The end of the transaction: complete the key row, or roll everything back. */
    method Finish(saved: Db, key: Key, hash: Fingerprint, r: Result<Response>) returns (reply: Reply)
      requires keys == saved.keys[key := KeyRow(Processing, hash, None)]
      modifies this
      ensures r.Fail? ==> Snapshot() == saved && reply == Refused(r.error)
      ensures r.Ok? ==>
                && Snapshot() == Remember(old(Snapshot()).(keys := saved.keys), key, hash, r.value)
                && reply == Answered(r.value, false)
    {
      match r
      case Fail(error) =>
        Rollback(saved);
        reply := Refused(error);
      case Ok(response) =>
        keys := keys[key := KeyRow(Completed, hash, Some(response))];
        assert keys == saved.keys[key := KeyRow(Completed, hash, Some(response))];
        reply := Answered(response, false);
    }

    // ----- createOrder -----

    /** The body of the transaction. Here and below, `db` is the state before the key was inserted. */
    method CreateMutation(ghost db: Db, ctx: Context, seat: Seat, id: Id) returns (r: Result<Response>)
      requires Snapshot() == db.(keys := keys)
      modifies this`orders
      ensures Performs(db, Snapshot().(keys := db.keys), r, CreateTx(db, ctx, seat, id))
    {
      if seat.table.Some? && Occupied(Snapshot(), ctx.tenant, seat.table.value, None) {
        return Fail(Conflict);
      }
      var order := Order(ctx.tenant, seat.table, seat.caption, seat.orderType, Open, 1, [], [], [], UNBILLED);
      order := order.(history := [HistoryRow(None, Open, ctx.user)]);
      orders := orders[id := order];
      r := Ok(OrderView(id, orders[id]));
    }

    method HandleCreate(read: Db, look: Db, ctx: Context, body: CreateBody, env: Env) returns (reply: Reply)
      modifies this
      ensures (Snapshot(), reply) == ServeCreate(read, look, old(Snapshot()), ctx, body, env)
    {
      var seat := ReadSeat(look, ctx.tenant, body);
      if seat.Fail? {
        return Refused(seat.error);
      }
      var hash := OfCall(ctx.tenant, ctx.user, CreateOrder(body));
      var key := (ctx.tenant, Text.Trim(ctx.header.GetOr("")));
      if key.1 == "" {
        return Refused(BadRequest);
      }
      if key in read.keys {
        return Recall(read.keys[key], hash);
      }
      var saved := Snapshot();
      var started := Begin(key, hash);
      if !started {
        return Recall(keys[key], hash);
      }
      var r := CreateMutation(saved, ctx, seat.value, env.newId);
      reply := Finish(saved, key, hash, r);
    }

    // ----- addItem, updateOrderStatus, closeOrder -----

    /** saveIdempotency, or the rollback that its duplicate key causes. */
    method Save(saved: Db, ctx: Context, hash: Fingerprint, response: Response) returns (reply: Reply)
      modifies this
      ensures var key := (ctx.tenant, ctx.header.GetOr(""));
        if key.1 == "" then Snapshot() == old(Snapshot()) && reply == Answered(response, false)
        else if key in old(keys) then Snapshot() == saved && reply == Refused(Duplicate)
        else Snapshot() == Remember(old(Snapshot()), key, hash, response) && reply == Answered(response, false)
    {
      var key := (ctx.tenant, ctx.header.GetOr(""));
      if key.1 != "" {
        if key in keys {
          Rollback(saved);
          return Refused(Duplicate);
        }
        keys := keys[key := KeyRow(Completed, hash, Some(response))];
      }
      reply := Answered(response, false);
    }

    method HandleAddItem(read: Db, look: Db, ctx: Context, id: Id, body: AddItemBody) returns (reply: Reply)
      modifies this
      ensures (Snapshot(), reply) == ServeAddItem(read, look, old(Snapshot()), ctx, id, body)
    {
      var hash := OfItem(body);
      match CheckIdempotency(read, ctx, hash) {
        case Rejected(error) => return Refused(error);
        case Cached(response) => return Answered(response, true);
        case Proceed =>
      }
      var line := ReadLine(look, ctx.tenant, body);
      if line.Fail? {
        return Refused(line.error);
      }
      var saved := Snapshot();
      if PendingCharge(saved, id) {
        return Refused(Conflict);
      }
      // updateMany with the status and version in its where clause
      if Owned(saved, ctx.tenant, id) && orders[id].status != Closed && Expects(body.expected, orders[id].version) {
        orders := orders[id := orders[id].(version := orders[id].version + 1)];
      } else if !Owned(saved, ctx.tenant, id) {
        return Refused(NotFound);
      } else if orders[id].status == Closed {
        return Refused(BadRequest);
      } else {
        return Refused(Conflict);
      }
      orders := orders[id := orders[id].(items := orders[id].items + [line.value])];
      assert orders == old(orders)[id := orders[id]];
      reply := Save(saved, ctx, hash, OrderView(id, orders[id]));
    }

    method HandleStatus(read: Db, ctx: Context, id: Id, body: StatusBody) returns (reply: Reply)
      modifies this
      ensures (Snapshot(), reply) == ServeStatus(read, old(Snapshot()), ctx, id, body)
    {
      var hash := OfStatus(body);
      match CheckIdempotency(read, ctx, hash) {
        case Rejected(error) => return Refused(error);
        case Cached(response) => return Answered(response, true);
        case Proceed =>
      }
      var from := Predecessor(body.status);
      if from.None? {
        return Refused(BadRequest);
      }
      var saved := Snapshot();
      if PendingCharge(saved, id) {
        return Refused(Conflict);
      }
      if !(Owned(saved, ctx.tenant, id) && orders[id].status == from.value &&
          Expects(body.expected, orders[id].version)) {
        if !Owned(saved, ctx.tenant, id) {
          return Refused(NotFound);
        }
        if orders[id].status == body.status {
          return Answered(OrderView(id, orders[id]), false);
        }
        return Refused(Conflict);
      }
      orders := orders[id := orders[id].(status := body.status, version := orders[id].version + 1)];
      orders := orders[id := orders[id].(history := orders[id].history + [HistoryRow(from, body.status, ctx.user)])];
      assert orders == old(orders)[id := orders[id]];
      reply := Save(saved, ctx, hash, OrderView(id, orders[id]));
    }

    method HandleClose(read: Db, seen: Seen, ctx: Context, id: Id, body: SettleBody, env: Env) returns (reply: Reply)
      modifies this
      ensures (Snapshot(), reply) == ServeClose(read, seen, old(Snapshot()), ctx, id, body, env)
    {
      if body.payments != [] {
        reply := HandleSettle(read, seen, ctx, id, body, env);
        return;
      }
      var hash := OfClose(body);
      match CheckIdempotency(read, ctx, hash) {
        case Rejected(error) => return Refused(error);
        case Cached(response) => return Answered(response, true);
        case Proceed =>
      }
      var saved := Snapshot();
      if !(Owned(saved, ctx.tenant, id) && Active(orders[id].status) && Expects(body.expected, orders[id].version)) {
        if !Owned(saved, ctx.tenant, id) {
          return Refused(NotFound);
        }
        if orders[id].status == Closed {
          return Answered(OrderView(id, orders[id]), false);
        }
        return Refused(if orders[id].status == Canceled then BadRequest else Conflict);
      }
      orders := orders[id := orders[id].(status := Closed, version := orders[id].version + 1, table := None)];
      orders := orders[id := orders[id].(history := orders[id].history + [HistoryRow(None, Closed, ctx.user)])];
      assert orders == old(orders)[id := orders[id]];
      reply := Save(saved, ctx, hash, OrderView(id, orders[id]));
    }

    method HandleTransfer(ctx: Context, id: Id, target: Id) returns (reply: Reply)
      modifies this`orders
      ensures (Snapshot(), reply) == ServeTransfer(old(Snapshot()), ctx, id, target)
    {
      if target == "" {
        return Refused(BadRequest);
      }
      if !Owned(Snapshot(), ctx.tenant, id) {
        return Refused(NotFound);
      }
      if !Active(orders[id].status) {
        return Refused(BadRequest);
      }
      if target !in tables || tables[target].tenant != ctx.tenant || !tables[target].active {
        return Refused(NotFound);
      }
      if Occupied(Snapshot(), ctx.tenant, target, Some(id)) {
        return Refused(Conflict);
      }
      orders := orders[id := orders[id].(
        table := Some(target), tableLabel := tables[target].tableLabel, version := orders[id].version + 1)];
      reply := Answered(OrderView(id, orders[id]), false);
    }

    // ----- settlement -----

    /** The stock part of a settlement: aggregate the items by product, then decrement and record
        product by product. */
    method SellStock(seller: Seller, items: seq<Item>)
      modifies this`products, this`movements
      ensures Ledger(products, movements) == SellAll(Ledger(old(products), old(movements)), seller, items,
              Products(items))
    {
      var order, sales := AggregateSales(items);
      for i := 0 to |order|
        invariant Ledger(products, movements) ==
                  SellAll(Ledger(old(products), old(movements)), seller, items, order[..i])
      {
        var p := order[i];
        assert order[..i + 1][..i] == order[..i];
        if !(p in products && (seller.scoped ==> products[p].tenant == seller.tenant) && products[p].controlled) {
          continue;
        }
        products := products[p := products[p].(stock := products[p].stock - 1000 * sales[p].quantity)];
        movements := movements + [
          Movement(seller.tenant, p, Sale, -1000 * sales[p].quantity, Some(sales[p].unitCost), Some(seller.order),
              seller.author)];
      }
      assert order[..|order|] == order;
    }

    /** Discount, permission, totals and payments, each of which can throw. */
    method ComputeQuote(items: seq<Item>, role: Role, limit: Option<int>, body: SettleBody) returns (r: Result<Quote>)
      ensures r == QuoteOf(items, role, limit, body)
    {
      var subtotal := Subtotal(items);
      var discount := ResolveDiscount(subtotal, body.discount);
      if discount.Fail? {
        return Fail(discount.error);
      }
      if !DiscountPermitted(role, limit, subtotal, discount.value.cents) {
        return Fail(BadRequest);
      }
      var totals := CalculateBillTotals(subtotal, discount.value.cents, body.feeBps.GetOr(DEFAULT_FEE_BPS));
      if totals.Fail? {
        return Fail(totals.error);
      }
      var check := ValidatePaymentsTotal(totals.value.total, body.payments);
      if check.Fail? {
        return Fail(check.error);
      }
      r := Ok(Quote(totals.value, discount.value, check.value.payments));
    }

    /** The writes of a settlement whose guards have passed. */
    method WriteSettlement(id: Id, from: Status, quote: Quote, user: Option<Id>, now: Time, seller: Seller,
        items: seq<Item>)
      requires id in orders
      modifies this`orders, this`products, this`movements
      ensures Snapshot() == WithSale(old(Snapshot()), id, Settled(old(orders)[id], from, quote, user, now), seller,
              items)
    {
      var totals := quote.totals;
      orders := orders[id := orders[id].(status := Closed, version := orders[id].version + 1, table := None,
        bill := Bill(totals.subtotal, totals.discount, totals.feeBps, totals.fee, totals.total,
                     quote.discount.kind, quote.discount.value,
                     if totals.discount > 0 then user else None, Some(now), user))];
      orders := orders[id := orders[id].(payments := orders[id].payments + quote.payments)];
      orders := orders[id := orders[id].(history := orders[id].history + [HistoryRow(Some(from), Closed, user)])];
      assert orders == old(orders)[id := Settled(old(orders)[id], from, quote, user, now)];
      SellStock(seller, items);
    }

    /** The checks of a settlement, on the order as read. */
    method CheckSettlement(seen: Seen, ctx: Context, id: Id, body: SettleBody) returns (gate: Gate)
      ensures gate == SettleGate(seen, ctx, id, body)
    {
      if !Owned(seen.order, ctx.tenant, id) {
        return Stop(NotFound);
      }
      var order := seen.order.orders[id];
      if order.status == Closed {
        return if order.payments == [] then Stop(Conflict) else Already(order);
      }
      if order.status == Canceled {
        return Stop(BadRequest);
      }
      if !Expects(body.expected, order.version) || PendingCharge(seen.charges, id) {
        return Stop(Conflict);
      }
      var quote := ComputeQuote(order.items, EffectiveRole(ctx.role), LimitOf(seen.limits, ctx.tenant), body);
      gate := if quote.Fail? then Stop(quote.error) else Go(order, quote.value);
    }

    method SettleMutation(ghost db: Db, seen: Seen, ctx: Context, id: Id, body: SettleBody, now: Time)
      returns (r: Result<Response>)
      requires Snapshot() == db.(keys := keys)
      modifies this`orders, this`products, this`movements
      ensures Performs(db, Snapshot().(keys := db.keys), r, SettleTx(seen, db, ctx, id, body, now))
    {
      var gate := CheckSettlement(seen, ctx, id, body);
      match gate
      case Stop(error) => r := Fail(error);
      case Already(order) => r := Ok(OrderView(id, order));
      case Go(order, quote) =>
        if id in orders && orders[id].tenant == ctx.tenant && Active(orders[id].status) &&
            orders[id].version == order.version {
          WriteSettlement(id, order.status, quote, ctx.user, now, Seller(ctx.tenant, id, ctx.user, true), order.items);
          r := Ok(OrderView(id, orders[id]));
        } else {
          r := Fail(Conflict);
        }
    }

    method HandleSettle(read: Db, seen: Seen, ctx: Context, id: Id, body: SettleBody, env: Env) returns (reply: Reply)
      modifies this
      ensures (Snapshot(), reply) == ServeSettle(read, seen, old(Snapshot()), ctx, id, body, env)
    {
      var hash := OfCall(ctx.tenant, ctx.user, SettleOrder(id, body));
      var key := (ctx.tenant, Text.Trim(ctx.header.GetOr("")));
      if key.1 == "" {
        return Refused(BadRequest);
      }
      if key in read.keys {
        return Recall(read.keys[key], hash);
      }
      var saved := Snapshot();
      var started := Begin(key, hash);
      if !started {
        return Recall(keys[key], hash);
      }
      var r := SettleMutation(saved, seen, ctx, id, body, env.now);
      reply := Finish(saved, key, hash, r);
    }

    // ----- inventory and purchases -----

    method AdjustMutation(ghost db: Db, ctx: Context, product: Id, body: AdjustBody) returns (r: Result<Response>)
      requires Snapshot() == db.(keys := keys)
      modifies this`products, this`movements
      ensures Performs(db, Snapshot().(keys := db.keys), r, AdjustTx(db, ctx, product, body))
    {
      if !(product in products && products[product].tenant == ctx.tenant && products[product].controlled) {
        return Fail(NotFound);
      }
      var signed := SignedQuantity(body);
      var p := products[product];
      products := products[product := p.(stock := p.stock + signed, cost := body.unitCost.GetOr(p.cost))];
      var m := Movement(ctx.tenant, product, body.kind, signed, body.unitCost, None, ctx.user);
      movements := movements + [m];
      assert products == old(products)[product := p.(cost := body.unitCost.GetOr(p.cost))]
        [product := products[product]];
      r := Ok(StockView(product, m));
    }

    method HandleAdjust(read: Db, ctx: Context, product: Id, body: AdjustBody) returns (reply: Reply)
      modifies this
      ensures (Snapshot(), reply) == ServeAdjust(read, old(Snapshot()), ctx, product, body)
    {
      if body.quantity == 0 {
        return Refused(BadRequest);
      }
      var hash := OfCall(ctx.tenant, ctx.user, AdjustStock(product, body));
      var key := (ctx.tenant, Text.Trim(ctx.header.GetOr("")));
      if key.1 == "" {
        return Refused(BadRequest);
      }
      if key in read.keys {
        return Recall(read.keys[key], hash);
      }
      var saved := Snapshot();
      var started := Begin(key, hash);
      if !started {
        return Recall(keys[key], hash);
      }
      var r := AdjustMutation(saved, ctx, product, body);
      reply := Finish(saved, key, hash, r);
    }

    /** One purchase line: cost, and quantity with its movement when the product is controlled. */
    method ReceiveLine(tenant: Id, purchase: Id, user: Option<Id>, line: PurchaseLine, controlled: bool)
      requires line.product in products
      modifies this`products, this`movements
      ensures Ledger(products, movements) ==
              ReceiveOne(Ledger(old(products), old(movements)), tenant, purchase, user, line, controlled)
    {
      var p := products[line.product];
      products := products[line.product :=
        p.(cost := line.unitCost, stock := if controlled then p.stock + line.quantity else p.stock)];
      if controlled {
        movements := movements + [
          Movement(tenant, line.product, PurchaseEntry, line.quantity, Some(line.unitCost), Some(purchase), user)];
      }
      assert products == old(products)[line.product := p.(cost := line.unitCost)]
        [line.product := products[line.product]];
    }

    method PurchaseMutation(ghost db: Db, look: Db, ctx: Context, lines: seq<PurchaseLine>, id: Id)
      returns (r: Result<Response>)
      requires AllOwned(look, ctx.tenant, lines)
      requires Snapshot() == db.(keys := keys)
      modifies this`products, this`movements
      ensures Performs(db, Snapshot().(keys := db.keys), r, PurchaseTx(look, db, ctx, lines, id))
    {
      for i := 0 to |lines|
        invariant forall k :: 0 <= k < i ==> lines[k].product in db.products
        invariant Ledger(products, movements) ==
                  ReceiveAll(Ledger(db.products, db.movements), ctx.tenant, id, ctx.user, lines[..i], look.products)
      {
        var line := lines[i];
        if line.product !in products {
          return Fail(NotFound);
        }
        ReceiveNext(Ledger(db.products, db.movements), ctx.tenant, id, ctx.user, lines, look.products, i);
        ReceiveLine(ctx.tenant, id, ctx.user, line, look.products[line.product].controlled);
      }
      assert lines[..|lines|] == lines;
      r := Ok(PurchaseView(id));
    }

    method HandlePurchase(read: Db, look: Db, ctx: Context, lines: seq<PurchaseLine>, env: Env) returns (reply: Reply)
      modifies this
      ensures (Snapshot(), reply) == ServePurchase(read, look, old(Snapshot()), ctx, lines, env)
    {
      if lines == [] || !DistinctProducts(lines) || !AllOwned(look, ctx.tenant, lines) {
        return Refused(BadRequest);
      }
      var hash := OfCall(ctx.tenant, ctx.user, RegisterPurchase(lines));
      var key := (ctx.tenant, Text.Trim(ctx.header.GetOr("")));
      if key.1 == "" {
        return Refused(BadRequest);
      }
      if key in read.keys {
        return Recall(read.keys[key], hash);
      }
      var saved := Snapshot();
      var started := Begin(key, hash);
      if !started {
        return Recall(keys[key], hash);
      }
      var r := PurchaseMutation(saved, look, ctx, lines, env.newId);
      reply := Finish(saved, key, hash, r);
    }

    // ----- Pix -----

    /** PixController.createCharge: the order was read earlier, and the adapter has answered since. */
    method HandleCharge(read: Db, ctx: Context, body: ChargeBody, env: Env, picked: Id) returns (reply: Reply)
      modifies this`charges
      ensures (Snapshot(), reply) == ServeCharge(read, old(Snapshot()), ctx, body, env, picked)
    {
      if body.order !in read.orders || read.orders[body.order].tenant != ctx.tenant {
        return Refused(NotFound);
      }
      var order := read.orders[body.order];
      if !Active(order.status) {
        return Refused(BadRequest);
      }
      if body.expected.Some? && order.version != body.expected.value {
        return Refused(Conflict);
      }
      if PendingCharge(read, body.order) {
        return Answered(ChargeView(picked), false);
      }
      var subtotal := Subtotal(order.items);
      var discount := ChargeDiscount(subtotal, body.discount);
      if discount.Fail? {
        return Refused(discount.error);
      }
      var bill := CalculateBillTotals(subtotal, discount.value.cents, body.feeBps.GetOr(0));
      if bill.Fail? {
        return Refused(bill.error);
      }
      if bill.value.total <= 0 {
        return Refused(BadRequest);
      }
      if exists c :: c in charges && charges[c].tenant == ctx.tenant && charges[c].txid == env.txid {
        return Answered(ChargeView(picked), false);
      }
      charges := charges[env.newId := Charge(ctx.tenant, body.order, env.provider, env.txid, bill.value.total,
        discount.value.kind, discount.value.value, discount.value.cents, bill.value.feeBps, Pending)];
      reply := Answered(ChargeView(env.newId), false);
    }

    method HandlePaid(c: Id, tenant: Id, now: Time) returns (reply: HookReply)
      modifies this`orders, this`products, this`movements, this`charges
      ensures (Snapshot(), reply) == PaidTx(old(Snapshot()), c, tenant, now)
    {
      if c !in charges {
        return HookRefused(NotFound);
      }
      var charge := charges[c];
      if charge.status == Paid {
        return Acknowledged(true);
      }
      if charge.order !in orders {
        return HookRefused(NotFound);
      }
      var id, order := charge.order, orders[charge.order];
      if !Active(order.status) {
        return HookRefused(Conflict);
      }
      var bill := CalculateBillTotals(Subtotal(order.items), charge.discount, charge.feeBps);
      if bill.Fail? {
        return HookRefused(bill.error);
      }
      var totals := bill.value;
      if totals.total != charge.amount {
        return HookRefused(Conflict);
      }
      orders := orders[id := order.(status := Closed, version := order.version + 1, table := None,
        bill := order.bill.(subtotal := totals.subtotal, discount := totals.discount, feeBps := totals.feeBps,
                            fee := totals.fee, total := totals.total, kind := charge.kind, value := charge.value,
                            settledAt := Some(now)))];
      var payment := Payment(Pix, totals.total, None, 0, Some(c));
      orders := orders[id := orders[id].(payments := orders[id].payments + [payment])];
      charges := charges[c := charge.(status := Paid)];
      var row := HistoryRow(Some(order.status), Closed, None);
      orders := orders[id := orders[id].(history := orders[id].history + [row])];
      assert orders == old(orders)[id := PaidOrder(order, charge, c, totals, now)];
      SellStock(Seller(tenant, id, None, false), order.items);
      reply := Acknowledged(false);
    }

    method HandleHook(read: Db, hook: Hook, c: Id, now: Time) returns (reply: HookReply)
      modifies this
      ensures (Snapshot(), reply) == ServeHook(read, old(Snapshot()), hook, c, now)
    {
      if !Matches(read, hook, c) {
        return HookRefused(NotFound);
      }
      var charge := read.charges[c];
      if hook.amount.Some? && hook.amount.value != charge.amount {
        return HookRefused(BadRequest);
      }
      if charge.status == Paid {
        return Acknowledged(true);
      }
      if hook.status != Paid {
        if c !in charges {
          return HookRefused(NotFound);
        }
        charges := charges[c := charges[c].(status := hook.status)];
        return Acknowledged(false);
      }
      reply := HandlePaid(c, charge.tenant, now);
    }

    // ----- any call -----

    /** The integrity invariant. */
    ghost predicate Valid()
      reads this
    {
      Inv(Snapshot())
    }

    /** The API: whatever the call, the tables stay valid, nothing recorded is lost or rewritten, and only
        rows of the caller's tenant change. `read` and `seen` are earlier states of these tables. */
    method Handle(read: Db, seen: Seen, ctx: Context, call: Call, env: Env, picked: Id) returns (reply: Reply)
      requires Valid() && ValidCall(call) && env.newId !in orders && env.newId !in charges
      requires Later(read, Snapshot()) && Later(seen.look, Snapshot()) && Later(seen.order, Snapshot())
      requires PricesOk(seen.look.products)
      modifies this
      ensures (Snapshot(), reply) == Serve(read, seen, old(Snapshot()), ctx, call, env, picked)
      ensures Valid() && Later(old(Snapshot()), Snapshot()) && WrittenBy(old(Snapshot()), Snapshot(), ctx.tenant)
    {
      ServeSound(read, seen, Snapshot(), ctx, call, env, picked);
      match call
      case CreateOrder(body) => reply := HandleCreate(read, seen.look, ctx, body, env);
      case AddItem(id, body) => reply := HandleAddItem(read, seen.look, ctx, id, body);
      case UpdateStatus(id, body) => reply := HandleStatus(read, ctx, id, body);
      case CloseOrder(id, body) => reply := HandleClose(read, seen, ctx, id, body, env);
      case SettleOrder(id, body) => reply := HandleSettle(read, seen, ctx, id, body, env);
      case TransferTable(id, target) => reply := HandleTransfer(ctx, id, target);
      case AdjustStock(product, body) => reply := HandleAdjust(read, ctx, product, body);
      case RegisterPurchase(lines) => reply := HandlePurchase(read, seen.look, ctx, lines, env);
      case CreateCharge(body) => reply := HandleCharge(read, ctx, body, env, picked);
    }

    /** A Pix notification keeps the same promises, on behalf of the charge's tenant. */
    method Notify(read: Db, hook: Hook, c: Id, now: Time) returns (reply: HookReply)
      requires Valid() && Later(read, Snapshot())
      modifies this
      ensures (Snapshot(), reply) == ServeHook(read, old(Snapshot()), hook, c, now)
      ensures Valid() && Later(old(Snapshot()), Snapshot())
      ensures if c in read.charges then WrittenBy(old(Snapshot()), Snapshot(), read.charges[c].tenant)
              else Snapshot() == old(Snapshot())
    {
      ServeHookSound(read, Snapshot(), hook, c, now);
      reply := HandleHook(read, hook, c, now);
    }
  }
}
