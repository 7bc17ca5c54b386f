/** Runs of the server: any interleaving of API calls, Pix notifications and catalogue edits, where
    the reads a handler makes before its transaction may see any earlier state of the run. */
module Runs {
  import opened Financial
  import opened Schema
  import opened Stock
  import opened Handlers
  import opened Integrity
  import opened Progress

  /** The indices of the states that a handler's separate reads saw, as Seen names them. */
  datatype Sight = Sight(look: nat, order: nat, charges: nat, limits: nat)

  /** `read` is the index for the lookup of the idempotency key, or of the charge. */
  datatype Step =
    | Api(read: nat, sight: Sight, ctx: Context, call: Call, env: Env, picked: Id)
    | Webhook(read: nat, hook: Hook, charge: Id, now: Time)
    | SaveProduct(id: Id, product: Product)
    | SaveTable(id: Id, table: DiningTable)
    | SaveLimit(tenant: Id, limit: int)

  /** The bounds the request DTOs impose. */
  predicate ValidCall(call: Call) {
    match call
    case AddItem(_, body) => body.quantity >= 1 && (body.price.Some? ==> body.price.value >= 0)
    case SettleOrder(_, body) => ValidSettle(body)
    case CloseOrder(_, body) => ValidSettle(body)
    case AdjustStock(_, body) => body.kind in {AdjustmentIn, AdjustmentOut, Return}
    case RegisterPurchase(lines) => forall i :: 0 <= i < |lines| ==> lines[i].quantity >= 1 && lines[i].unitCost >= 0
    case _ => true
  }

  predicate ValidSettle(body: SettleBody) {
    ValidDiscountBody(body.discount) && (body.feeBps.Some? ==> body.feeBps.value >= 0)
  }

  function Last(past: seq<Db>): Db
    requires past != []
  {
    past[|past| - 1]
  }

  predicate Within(sight: Sight, n: nat) {
    sight.look < n && sight.order < n && sight.charges < n && sight.limits < n
  }

  function SeenAt(past: seq<Db>, sight: Sight): Seen
    requires Within(sight, |past|)
  {
    Seen(past[sight.look], past[sight.order], past[sight.charges], past[sight.limits])
  }

  /** All reads of a handler at one moment. */
  function AllAt(n: nat): Sight {
    Sight(n, n, n, n)
  }

  /** The order in which a handler makes its reads. */
  predicate InOrder(call: Call, read: nat, sight: Sight) {
    match call
    case CreateOrder(_) => sight.look <= read
    case RegisterPurchase(_) => sight.look <= read
    case AddItem(_, _) => read <= sight.look
    case SettleOrder(_, _) => read <= sight.order <= sight.charges <= sight.limits
    case CloseOrder(_, _) => read <= sight.order <= sight.charges <= sight.limits
    case _ => true
  }

  predicate Enabled(past: seq<Db>, step: Step)
    requires past != []
  {
    var db := Last(past);
    match step
    case Api(read, sight, _, call, env, _) =>
      && read < |past| && Within(sight, |past|) && InOrder(call, read, sight)
      && ValidCall(call) && env.newId !in db.orders && env.newId !in db.charges
    case Webhook(read, hook, charge, _) =>
      && read < |past|
      && ((exists c :: c in past[read].charges && Matches(past[read], hook, c)) ==> Matches(past[read], hook, charge))
    case SaveProduct(id, p) =>
      && p.price >= 0
      && (if id in db.products
          then p.tenant == db.products[id].tenant && p.stock == db.products[id].stock
          else p.stock == 0)
    case SaveTable(id, t) => id in db.tables ==> t.tenant == db.tables[id].tenant
    case SaveLimit(_, limit) => 0 <= limit <= BPS
  }

  function Apply(past: seq<Db>, step: Step): Db
    requires past != [] && Enabled(past, step)
  {
    var db := Last(past);
    match step
    case Api(read, sight, ctx, call, env, picked) =>
      Serve(past[read], SeenAt(past, sight), db, ctx, call, env, picked).0
    case Webhook(read, hook, charge, now) => ServeHook(past[read], db, hook, charge, now).0
    case SaveProduct(id, p) => db.(products := db.products[id := p])
    case SaveTable(id, t) => db.(tables := db.tables[id := t])
    case SaveLimit(tenant, limit) => db.(limits := db.limits[tenant := limit])
  }

  /** The tenant on whose behalf a step writes. */
  function Actor(past: seq<Db>, step: Step): Id
    requires past != [] && Enabled(past, step)
  {
    match step
    case Api(_, _, ctx, _, _, _) => ctx.tenant
    case Webhook(read, _, charge, _) => if charge in past[read].charges then past[read].charges[charge].tenant else ""
    case SaveProduct(_, p) => p.tenant
    case SaveTable(_, t) => t.tenant
    case SaveLimit(tenant, _) => tenant
  }

  predicate Initial(db: Db) {
    && db.orders == map[] && db.charges == map[] && db.movements == [] && db.keys == map[]
    && (forall p :: p in db.products ==> db.products[p].stock == 0 && db.products[p].price >= 0)
  }

  predicate Run(states: seq<Db>, steps: seq<Step>) {
    && |states| == |steps| + 1
    && Initial(states[0])
    && (forall i {:trigger StepsTo(states, steps[i], i)} :: 0 <= i < |steps| ==> StepsTo(states, steps[i], i))
  }

  predicate StepsTo(states: seq<Db>, step: Step, i: nat)
    requires i + 1 < |states|
  {
    Enabled(states[..i + 1], step) && states[i + 1] == Apply(states[..i + 1], step)
  }

  // ----- every step is sound -----

  lemma SeatReadStillOwned(read: Db, db: Db, tenant: Id, body: CreateBody)
    requires Later(read, db)
    ensures var r := ReadSeat(read, tenant, body);
      r.Ok? && r.value.table.Some? ==>
        r.value.table.value in db.tables && db.tables[r.value.table.value].tenant == tenant
  {
  }

  lemma LineReadStillOwned(read: Db, db: Db, tenant: Id, body: AddItemBody)
    requires Later(read, db) && PricesOk(read.products) && body.quantity >= 1 &&
             (body.price.Some? ==> body.price.value >= 0)
    ensures var r := ReadLine(read, tenant, body);
      r.Ok? ==>
        && r.value.quantity >= 1 && r.value.price >= 0
        && (r.value.product.Some? ==>
              r.value.product.value in db.products && db.products[r.value.product.value].tenant == tenant)
  {
  }

  lemma NoWriteSound(db: Db, t: Id)
    requires Inv(db)
    ensures Sound(db, db, t)
  {
  }

  lemma ServeCreateSound(read: Db, look: Db, db: Db, ctx: Context, body: CreateBody, env: Env)
    requires Inv(db) && Later(look, db) && env.newId !in db.orders
    ensures Sound(db, ServeCreate(read, look, db, ctx, body, env).0, ctx.tenant)
  {
    NoWriteSound(db, ctx.tenant);
    SeatReadStillOwned(look, db, ctx.tenant, body);
    var r := ReadSeat(look, ctx.tenant, body);
    if r.Ok? {
      CreateSound(db, ctx, r.value, env.newId);
      ExecuteSound(read, db, ctx, OfCall(ctx.tenant, ctx.user, CreateOrder(body)),
          CreateTx(db, ctx, r.value, env.newId));
    }
  }

  lemma ServeAddItemSound(read: Db, look: Db, db: Db, ctx: Context, id: Id, body: AddItemBody)
    requires Inv(db) && Later(look, db) && PricesOk(look.products) && ValidCall(AddItem(id, body))
    ensures Sound(db, ServeAddItem(read, look, db, ctx, id, body).0, ctx.tenant)
  {
    NoWriteSound(db, ctx.tenant);
    LineReadStillOwned(look, db, ctx.tenant, body);
    var r := ReadLine(look, ctx.tenant, body);
    if r.Ok? {
      AddItemSound(db, ctx, id, body.expected, r.value);
      SaveSound(db, ctx, OfItem(body), AddItemTx(db, ctx, id, body.expected, r.value));
    }
  }

  lemma ServeStatusSound(read: Db, db: Db, ctx: Context, id: Id, body: StatusBody)
    requires Inv(db)
    ensures Sound(db, ServeStatus(read, db, ctx, id, body).0, ctx.tenant)
  {
    NoWriteSound(db, ctx.tenant);
    var from := Predecessor(body.status);
    if from.Some? {
      StatusSound(db, ctx, id, from.value, body);
      SaveSound(db, ctx, OfStatus(body), UpdateStatusTx(db, ctx, id, from.value, body));
    }
  }

  lemma ServeTransferSound(db: Db, ctx: Context, id: Id, target: Id)
    requires Inv(db)
    ensures Sound(db, ServeTransfer(db, ctx, id, target).0, ctx.tenant)
  {
    NoWriteSound(db, ctx.tenant);
    TransferSound(db, ctx, id, target);
  }

  lemma ServeSettleSound(read: Db, seen: Seen, db: Db, ctx: Context, id: Id, body: SettleBody, env: Env)
    requires Inv(db) && Later(seen.order, db)
    ensures Sound(db, ServeSettle(read, seen, db, ctx, id, body, env).0, ctx.tenant)
  {
    SettleSound(seen, db, ctx, id, body, env.now);
    ExecuteSound(read, db, ctx, OfCall(ctx.tenant, ctx.user, SettleOrder(id, body)),
        SettleTx(seen, db, ctx, id, body, env.now));
  }

  lemma PlainCloseSound(read: Db, db: Db, ctx: Context, id: Id, body: SettleBody)
    requires Inv(db)
    ensures Sound(db, CheckAndSave(read, db, ctx, OfClose(body), CloseTx(db, ctx, id, body.expected)).0, ctx.tenant)
  {
    NoWriteSound(db, ctx.tenant);
    CloseSound(db, ctx, id, body.expected);
    SaveSound(db, ctx, OfClose(body), CloseTx(db, ctx, id, body.expected));
  }

  lemma ServeCloseSound(read: Db, seen: Seen, db: Db, ctx: Context, id: Id, body: SettleBody, env: Env)
    requires Inv(db) && Later(seen.order, db)
    ensures Sound(db, ServeClose(read, seen, db, ctx, id, body, env).0, ctx.tenant)
  {
    if body.payments != [] {
      ServeSettleSound(read, seen, db, ctx, id, body, env);
    } else {
      PlainCloseSound(read, db, ctx, id, body);
    }
  }

  lemma ServeAdjustSound(read: Db, db: Db, ctx: Context, product: Id, body: AdjustBody)
    requires Inv(db) && body.kind != Sale
    ensures Sound(db, ServeAdjust(read, db, ctx, product, body).0, ctx.tenant)
  {
    NoWriteSound(db, ctx.tenant);
    AdjustSound(db, ctx, product, body);
    ExecuteSound(read, db, ctx, OfCall(ctx.tenant, ctx.user, AdjustStock(product, body)),
        AdjustTx(db, ctx, product, body));
  }

  lemma ServePurchaseSound(read: Db, look: Db, db: Db, ctx: Context, lines: seq<PurchaseLine>, env: Env)
    requires Inv(db) && Later(look, db)
    ensures Sound(db, ServePurchase(read, look, db, ctx, lines, env).0, ctx.tenant)
  {
    NoWriteSound(db, ctx.tenant);
    if AllOwned(look, ctx.tenant, lines) {
      PurchaseSound(look, db, ctx, lines, env.newId);
      ExecuteSound(read, db, ctx, OfCall(ctx.tenant, ctx.user, RegisterPurchase(lines)),
          PurchaseTx(look, db, ctx, lines, env.newId));
    }
  }

  lemma ServeChargeSound(read: Db, db: Db, ctx: Context, body: ChargeBody, env: Env, picked: Id)
    requires Inv(db) && Later(read, db) && env.newId !in db.charges
    ensures Sound(db, ServeCharge(read, db, ctx, body, env, picked).0, ctx.tenant)
  {
    NoWriteSound(db, ctx.tenant);
    var db' := ServeCharge(read, db, ctx, body, env, picked).0;
    if db' != db {
      assert OrderLater(read.orders[body.order], db.orders[body.order]);
      PutChargeSound(db, env.newId, db'.charges[env.newId]);
    }
  }

  lemma ChargeStatusSound(db: Db, c: Id, status: ChargeStatus)
    requires Inv(db) && c in db.charges
    ensures Sound(db, db.(charges := db.charges[c := db.charges[c].(status := status)]), db.charges[c].tenant)
  {
    assert db.charges[c].order in db.orders;
    PutChargeSound(db, c, db.charges[c].(status := status));
  }

  lemma ServeHookSound(read: Db, db: Db, hook: Hook, c: Id, now: Time)
    requires Inv(db) && ChargesLater(read.charges, db.charges)
    ensures Sound(db, ServeHook(read, db, hook, c, now).0, if c in read.charges then read.charges[c].tenant else "")
  {
    var t := if c in read.charges then read.charges[c].tenant else "";
    var db' := ServeHook(read, db, hook, c, now).0;
    if db' == db {
      NoWriteSound(db, t);
    } else if hook.status == Paid {
      assert db' == PaidTx(db, c, t, now).0;
      PaidSound(db, c, t, now);
    } else {
      assert db' == db.(charges := db.charges[c := db.charges[c].(status := hook.status)]);
      ChargeStatusSound(db, c, hook.status);
    }
  }

  lemma SaveProductSound(db: Db, id: Id, p: Product)
    requires Inv(db) && p.price >= 0
    requires if id in db.products
             then p.tenant == db.products[id].tenant && p.stock == db.products[id].stock
             else p.stock == 0
    ensures Sound(db, db.(products := db.products[id := p]), p.tenant)
  {
    var products := db.products[id := p];
    if id !in db.products {
      UnknownProductNeverMoved(db.movements, id);
    }
    LinksSurvive(db.orders, db.products, products, db.tables);
    assert Balanced(Ledger(products, db.movements));
  }

  lemma SaveTableSound(db: Db, id: Id, t: DiningTable)
    requires Inv(db) && (id in db.tables ==> t.tenant == db.tables[id].tenant)
    ensures Sound(db, db.(tables := db.tables[id := t]), t.tenant)
  {
    forall o | o in db.orders ensures TableLinked(db.orders[o], db.tables[id := t]) {
      assert TableLinked(db.orders[o], db.tables);
    }
  }

  lemma SaveLimitSound(db: Db, t: Id, limit: int)
    requires Inv(db)
    ensures Sound(db, db.(limits := db.limits[t := limit]), t)
  {
  }

  /** Every call keeps the invariant and what is recorded, and writes for its own tenant only. */
  lemma ServeSound(read: Db, seen: Seen, db: Db, ctx: Context, call: Call, env: Env, picked: Id)
    requires Inv(db) && Later(read, db)
    requires Later(seen.look, db) && PricesOk(seen.look.products) && Later(seen.order, db)
    requires ValidCall(call) && env.newId !in db.orders && env.newId !in db.charges
    ensures Sound(db, Serve(read, seen, db, ctx, call, env, picked).0, ctx.tenant)
  {
    match call
    case CreateOrder(body) => ServeCreateSound(read, seen.look, db, ctx, body, env);
    case AddItem(id, body) => ServeAddItemSound(read, seen.look, db, ctx, id, body);
    case UpdateStatus(id, body) => ServeStatusSound(read, db, ctx, id, body);
    case CloseOrder(id, body) => ServeCloseSound(read, seen, db, ctx, id, body, env);
    case SettleOrder(id, body) => ServeSettleSound(read, seen, db, ctx, id, body, env);
    case TransferTable(id, target) => ServeTransferSound(db, ctx, id, target);
    case AdjustStock(product, body) => ServeAdjustSound(read, db, ctx, product, body);
    case RegisterPurchase(lines) => ServePurchaseSound(read, seen.look, db, ctx, lines, env);
    case CreateCharge(body) => ServeChargeSound(read, db, ctx, body, env, picked);
  }

  lemma StepSound(past: seq<Db>, step: Step)
    requires past != [] && Enabled(past, step)
    requires forall i :: 0 <= i < |past| ==> Inv(past[i]) && Later(past[i], Last(past))
    ensures Sound(Last(past), Apply(past, step), Actor(past, step))
  {
    var db := Last(past);
    match step
    case Api(read, sight, ctx, call, env, picked) =>
      ServeSound(past[read], SeenAt(past, sight), db, ctx, call, env, picked);
    case Webhook(read, hook, charge, now) => ServeHookSound(past[read], db, hook, charge, now);
    case SaveProduct(id, p) => SaveProductSound(db, id, p);
    case SaveTable(id, t) => SaveTableSound(db, id, t);
    case SaveLimit(t, limit) => SaveLimitSound(db, t, limit);
  }

  lemma InitialInv(db: Db)
    requires Initial(db)
    ensures Inv(db)
  {
  }

  /** Every state up to `j` is sound and none of them is contradicted by state `j`. */
  ghost predicate SoundUpTo(states: seq<Db>, j: nat)
    requires j < |states|
  {
    forall i :: 0 <= i <= j ==> Inv(states[i]) && Later(states[i], states[j])
  }

  lemma SoundUpToExtends(states: seq<Db>, j: nat)
    requires 0 < j < |states| && SoundUpTo(states, j - 1) && Inv(states[j]) && Later(states[j - 1], states[j])
    ensures SoundUpTo(states, j)
  {
    forall i | 0 <= i <= j ensures Inv(states[i]) && Later(states[i], states[j]) {
      if i < j {
        LaterTransitive(states[i], states[j - 1], states[j]);
      }
    }
  }

  lemma StepSoundAt(states: seq<Db>, step: Step, j: nat)
    requires j + 1 < |states| && SoundUpTo(states, j) && StepsTo(states, step, j)
    ensures Sound(states[j], states[j + 1], Actor(states[..j + 1], step))
  {
    StepSound(states[..j + 1], step);
  }

  lemma StepKeepsInv(states: seq<Db>, step: Step, j: nat)
    requires j + 1 < |states| && SoundUpTo(states, j) && StepsTo(states, step, j)
    ensures Inv(states[j + 1]) && Later(states[j], states[j + 1])
  {
    StepSoundAt(states, step, j);
  }

  lemma SoundAtStart(states: seq<Db>)
    requires states != [] && Initial(states[0])
    ensures SoundUpTo(states, 0)
  {
    InitialInv(states[0]);
  }

  lemma RunLength(states: seq<Db>, steps: seq<Step>)
    requires Run(states, steps)
    ensures |states| == |steps| + 1
  {
  }

  lemma RunSteps(states: seq<Db>, steps: seq<Step>, i: nat)
    requires Run(states, steps) && i + 1 < |states|
    ensures i < |steps| && StepsTo(states, steps[i], i)
  {
  }

  lemma ReachNext(states: seq<Db>, steps: seq<Step>, j: nat)
    requires Run(states, steps) && 0 < j < |states| && SoundUpTo(states, j - 1)
    ensures SoundUpTo(states, j)
  {
    hide *;
    RunSteps(states, steps, j - 1);
    StepKeepsInv(states, steps[j - 1], j - 1);
    SoundUpToExtends(states, j);
  }

  /** Every state of every run satisfies the integrity invariant, and nothing recorded in a state is
      lost or rewritten in a later one. */
  lemma {:induction false} ReachableStatesAreSound(states: seq<Db>, steps: seq<Step>, j: nat)
    requires Run(states, steps) && j < |states|
    ensures SoundUpTo(states, j)
    decreases j
  {
    if j == 0 {
      SoundAtStart(states);
    } else {
      ReachableStatesAreSound(states, steps, j - 1);
      ReachNext(states, steps, j);
    }
  }
}
