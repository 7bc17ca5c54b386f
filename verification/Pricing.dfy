/** The server prices what it sells: no request can choose the name, price or cost of a product of
    the catalogue. */
module Pricing {
  import opened Outcomes
  import opened Schema
  import opened Handlers
  import opened Integrity
  import opened Progress
  import opened Runs
  import Theorems

  /** The line carries its product's name, price and cost as they are in `db`, where the product is on
      sale and belongs to the tenant. */
  predicate PricedIn(db: Db, tenant: Id, line: Item) {
    line.product.Some? ==>
      && line.product.value in db.products
      && var p := db.products[line.product.value];
      && p.tenant == tenant && p.active && p.available
      && line.name == p.name && line.price == p.price && line.cost == p.cost
  }

  function ItemsOf(orders: Orders, id: Id): seq<Item> {
    if id in orders then orders[id].items else []
  }

  /** Every order keeps its items, or gains `line` as its last one. */
  predicate ItemsGrowBy(a: Orders, b: Orders, tenant: Id, line: Option<Item>) {
    forall id :: id in b ==>
      || b[id].items == ItemsOf(a, id)
      || (line.Some? && b[id].items == ItemsOf(a, id) + [line.value] && b[id].tenant == tenant)
  }

  /** The line a call may add. */
  function LineOf(look: Db, tenant: Id, call: Call): Option<Item> {
    if call.AddItem? then
      match ReadLine(look, tenant, call.item)
      case Ok(line) => Some(line)
      case Fail(_) => None
    else
      None
  }

  lemma LineIsPriced(look: Db, tenant: Id, call: Call)
    ensures LineOf(look, tenant, call).Some? ==> PricedIn(look, tenant, LineOf(look, tenant, call).value)
  {
  }

  lemma AddItemGrowsItems(read: Db, look: Db, db: Db, ctx: Context, id: Id, body: AddItemBody)
    ensures ItemsGrowBy(db.orders, ServeAddItem(read, look, db, ctx, id, body).0.orders, ctx.tenant,
            LineOf(look, ctx.tenant, AddItem(id, body)))
  {
  }

  lemma ExecutedKeepsItems(read: Db, db: Db, ctx: Context, hash: Fingerprint, tx: TxResult)
    requires tx.Commit? ==> ItemsGrowBy(db.orders, tx.db.orders, ctx.tenant, None)
    ensures ItemsGrowBy(db.orders, ExecuteIdempotent(read, db, ctx, hash, tx).0.orders, ctx.tenant, None)
  {
  }

  lemma SettleKeepsItems(read: Db, seen: Seen, db: Db, ctx: Context, id: Id, body: SettleBody, env: Env)
    ensures ItemsGrowBy(db.orders, ServeSettle(read, seen, db, ctx, id, body, env).0.orders, ctx.tenant, None)
  {
    var tx := SettleTx(seen, db, ctx, id, body, env.now);
    if tx.Commit? {
      var quote := SettleCommits(seen, db, ctx, id, body, env.now);
    }
    ExecutedKeepsItems(read, db, ctx, OfCall(ctx.tenant, ctx.user, SettleOrder(id, body)), tx);
  }

  lemma CreateKeepsItems(read: Db, look: Db, db: Db, ctx: Context, body: CreateBody, env: Env)
    requires env.newId !in db.orders
    ensures ItemsGrowBy(db.orders, ServeCreate(read, look, db, ctx, body, env).0.orders, ctx.tenant, None)
  {
    var seat := ReadSeat(look, ctx.tenant, body);
    if seat.Ok? {
      ExecutedKeepsItems(read, db, ctx, OfCall(ctx.tenant, ctx.user, CreateOrder(body)),
          CreateTx(db, ctx, seat.value, env.newId));
    }
  }

  lemma StatusKeepsItems(read: Db, db: Db, ctx: Context, id: Id, body: StatusBody)
    ensures ItemsGrowBy(db.orders, ServeStatus(read, db, ctx, id, body).0.orders, ctx.tenant, None)
  {
  }

  lemma TransferKeepsItems(db: Db, ctx: Context, id: Id, target: Id)
    ensures ItemsGrowBy(db.orders, ServeTransfer(db, ctx, id, target).0.orders, ctx.tenant, None)
  {
  }

  lemma CloseKeepsItems(read: Db, db: Db, ctx: Context, id: Id, body: SettleBody)
    ensures ItemsGrowBy(db.orders, CheckAndSave(read, db, ctx, OfClose(body),
            CloseTx(db, ctx, id, body.expected)).0.orders, ctx.tenant, None)
  {
  }

  lemma OtherCallKeepsItems(read: Db, seen: Seen, db: Db, ctx: Context, call: Call, env: Env, picked: Id)
    requires !call.AddItem? && !call.SettleOrder? && (call.CloseOrder? ==> call.close.payments == []) &&
             env.newId !in db.orders
    ensures ItemsGrowBy(db.orders, Serve(read, seen, db, ctx, call, env, picked).0.orders, ctx.tenant, None)
  {
    if call.CloseOrder? {
      CloseKeepsItems(read, db, ctx, call.id, call.close);
    } else if call.AdjustStock? || call.RegisterPurchase? || call.CreateCharge? {
      Theorems.OrdersUntouched(read, seen.look, db, ctx, call, env, picked);
    } else if call.CreateOrder? {
      CreateKeepsItems(read, seen.look, db, ctx, call.create, env);
    } else if call.UpdateStatus? {
      StatusKeepsItems(read, db, ctx, call.id, call.next);
    } else {
      TransferKeepsItems(db, ctx, call.id, call.target);
    }
  }

  lemma CallGrowsItems(read: Db, seen: Seen, db: Db, ctx: Context, call: Call, env: Env, picked: Id)
    requires env.newId !in db.orders
    ensures ItemsGrowBy(db.orders, Serve(read, seen, db, ctx, call, env, picked).0.orders, ctx.tenant,
            LineOf(seen.look, ctx.tenant, call))
  {
    if call.AddItem? {
      AddItemGrowsItems(read, seen.look, db, ctx, call.id, call.item);
    } else if call.SettleOrder? {
      SettleKeepsItems(read, seen, db, ctx, call.id, call.settle, env);
    } else if call.CloseOrder? && call.close.payments != [] {
      SettleKeepsItems(read, seen, db, ctx, call.id, call.close, env);
    } else {
      OtherCallKeepsItems(read, seen, db, ctx, call, env, picked);
    }
  }

  lemma PaidKeepsItems(db: Db, c: Id, tenant: Id, now: Time)
    ensures ItemsGrowBy(db.orders, PaidTx(db, c, tenant, now).0.orders, "", None)
  {
  }

  lemma WebhookKeepsItems(read: Db, db: Db, hook: Hook, c: Id, now: Time)
    ensures ItemsGrowBy(db.orders, ServeHook(read, db, hook, c, now).0.orders, "", None)
  {
    if c in read.charges {
      PaidKeepsItems(db, c, read.charges[c].tenant, now);
    }
  }

  /** Some state up to `i` prices the line. */
  predicate Priced(states: seq<Db>, i: nat, tenant: Id, line: Item) {
    exists j: nat :: j <= i && j < |states| && PricedIn(states[j], tenant, line)
  }

  /** An item that step `i` adds is priced by an earlier state. */
  lemma NewItemIsPriced(states: seq<Db>, step: Step, i: nat, id: Id, k: nat)
    requires i + 1 < |states| && StepsTo(states, step, i)
    requires id in states[i + 1].orders && |ItemsOf(states[i].orders, id)| <= k < |states[i + 1].orders[id].items|
    ensures Priced(states, i + 1, states[i + 1].orders[id].tenant, states[i + 1].orders[id].items[k])
  {
    var past := states[..i + 1];
    assert Last(past) == states[i];
    match step
    case Api(read, sight, ctx, call, env, picked) =>
      assert past[read] == states[read] && SeenAt(past, sight) == SeenAt(states, sight);
      CallGrowsItems(states[read], SeenAt(states, sight), states[i], ctx, call, env, picked);
      LineIsPriced(states[sight.look], ctx.tenant, call);
      assert PricedIn(states[sight.look], states[i + 1].orders[id].tenant, states[i + 1].orders[id].items[k]);
    case Webhook(read, hook, charge, now) =>
      assert past[read] == states[read];
      WebhookKeepsItems(states[read], states[i], hook, charge, now);
    case _ =>
  }

  lemma AddedItemIsPriced(states: seq<Db>, steps: seq<Step>, i: nat, id: Id, k: nat)
    requires Run(states, steps) && 0 < i < |states|
    requires id in states[i].orders && |ItemsOf(states[i - 1].orders, id)| <= k < |states[i].orders[id].items|
    ensures Priced(states, i, states[i].orders[id].tenant, states[i].orders[id].items[k])
  {
    assert StepsTo(states, steps[i - 1], i - 1);
    NewItemIsPriced(states, steps[i - 1], i - 1, id, k);
  }

  lemma OldItemStaysPriced(states: seq<Db>, steps: seq<Step>, i: nat, id: Id, k: nat)
    requires Run(states, steps) && 0 < i < |states| && id in states[i - 1].orders &&
             k < |states[i - 1].orders[id].items|
    requires Priced(states, i - 1, states[i - 1].orders[id].tenant, states[i - 1].orders[id].items[k])
    ensures id in states[i].orders && k < |states[i].orders[id].items|
    ensures Priced(states, i, states[i].orders[id].tenant, states[i].orders[id].items[k])
  {
    Theorems.LifecycleIsMonotone(states, steps, i - 1, i, id);
  }

  /** Every item of every reachable order that is linked to a product carries that product's name,
      price and cost as they stood in some state of the run, when it was on sale for the tenant. */
  lemma {:induction false} ItemsArePricedByTheServer(states: seq<Db>, steps: seq<Step>, i: nat, id: Id, k: nat)
    requires Run(states, steps) && i < |states| && id in states[i].orders && k < |states[i].orders[id].items|
    ensures Priced(states, i, states[i].orders[id].tenant, states[i].orders[id].items[k])
  {
    if i > 0 {
      if k < |ItemsOf(states[i - 1].orders, id)| {
        ItemsArePricedByTheServer(states, steps, i - 1, id, k);
        OldItemStaysPriced(states, steps, i, id, k);
      } else {
        AddedItemIsPriced(states, steps, i, id, k);
      }
    }
  }
}
