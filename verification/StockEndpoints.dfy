/** What a stock adjustment and a purchase answer and do, case by case, in every step of every run. */
module StockEndpoints {
  import opened Outcomes
  import opened Schema
  import opened Stock
  import opened Handlers
  import opened Integrity
  import opened Progress
  import opened Runs
  import opened Idempotency
  import opened Endpoints
  import opened Settlements
  import Text

  // ----- adjustments -----

  /** The quantity moved: what is given, in or out by the kind of adjustment whatever its sign. */
  function Adjustment(body: AdjustBody): int {
    var size := if body.quantity > 0 then body.quantity else 0 - body.quantity;
    if body.kind == AdjustmentOut then 0 - size else size
  }

  predicate Adjusts(db: Db, db': Db, reply: Reply, ctx: Context, product: Id, body: AdjustBody) {
    var header, hash := Text.Trim(ctx.header.GetOr("")), OfCall(ctx.tenant, ctx.user, AdjustStock(product, body));
    var key := (ctx.tenant, header);
    if body.quantity == 0 || header == "" then
      Rejects(db, db', reply, BadRequest)
    else if key in db.keys then
      Replays(db, db', reply, db.keys[key], hash)
    else if product !in db.products || db.products[product].tenant != ctx.tenant ||
            !db.products[product].controlled then
      Rejects(db, db', reply, NotFound)
    else
      var p, quantity := db.products[product], Adjustment(body);
      var m := Movement(ctx.tenant, product, body.kind, quantity, body.unitCost, None, ctx.user);
      var p' := p.(stock := p.stock + quantity, cost := if body.unitCost.Some? then body.unitCost.value else p.cost);
      Commits(db.(products := db.products[product := p'], movements := db.movements + [m]), db', reply,
              StockView(product, m), Some(key), hash)
  }

  lemma ServeAdjusts(read: Db, db: Db, ctx: Context, product: Id, body: AdjustBody)
    requires KeysCompleted(db.keys) && KeysLater(read.keys, db.keys)
    ensures var (db', reply) := ServeAdjust(read, db, ctx, product, body);
      Adjusts(db, db', reply, ctx, product, body)
  {
    hide AdjustTx, Adjustment, KeysLater, KeysCompleted, Text.Trim;
    var header, hash := Text.Trim(ctx.header.GetOr("")), OfCall(ctx.tenant, ctx.user, AdjustStock(product, body));
    var tx := AdjustTx(db, ctx, product, body);
    if body.quantity != 0 && header != "" {
      hide ExecuteIdempotent;
      if (ctx.tenant, header) in db.keys {
        KnownKeyIsReplayed(read, db, ctx, hash, tx);
      } else {
        FreshKeyExecutes(read, db, ctx, hash, tx);
        AdjustTxIs(db, ctx, product, body);
      }
    }
  }

  lemma AdjustTxIs(db: Db, ctx: Context, product: Id, body: AdjustBody)
    ensures AdjustTx(db, ctx, product, body) ==
            if product !in db.products || db.products[product].tenant != ctx.tenant ||
               !db.products[product].controlled
            then
              Abort(NotFound)
            else
              var p, quantity := db.products[product], Adjustment(body);
              var m := Movement(ctx.tenant, product, body.kind, quantity, body.unitCost, None, ctx.user);
              var p' := p.(stock := p.stock + quantity,
                           cost := if body.unitCost.Some? then body.unitCost.value else p.cost);
              Commit(db.(products := db.products[product := p'], movements := db.movements + [m]),
                     StockView(product, m))
  {
  }

  /** The stock adjustment, exactly. */
  lemma AdjustmentIsExact(states: seq<Db>, steps: seq<Step>, i: nat)
    requires Run(states, steps) && i + 1 < |states| && i < |steps| && steps[i].Api? && steps[i].call.AdjustStock?
    ensures Adjusts(states[i], states[i + 1], ReplyAt(states, steps, i), steps[i].ctx, steps[i].call.product,
                    steps[i].call.adjust)
  {
    hide Run, ReplyAt, KeysCompleted, KeysLater, Adjusts, ServeAdjust;
    var s := steps[i];
    StepServes(states, steps, i);
    KeyFacts(states, steps, s.read, i);
    ServeAdjusts(states[s.read], states[i], s.ctx, s.call.product, s.call.adjust);
  }

  // ----- purchases -----

  /** One entry for each line whose product was controlled at the lookup, in order. */
  function Receipts(lines: seq<PurchaseLine>, look: map<Id, Product>, ctx: Context, purchase: Id): seq<Movement>
    requires forall i :: 0 <= i < |lines| ==> lines[i].product in look
  {
    if lines == [] then
      []
    else
      var l := lines[0];
      (if look[l.product].controlled then
         [Movement(ctx.tenant, l.product, PurchaseEntry, l.quantity, Some(l.unitCost), Some(purchase), ctx.user)]
       else
         []) + Receipts(lines[1..], look, ctx, purchase)
  }

  /** A product after a line for it: the new cost, and more of it if it was controlled at the lookup. */
  function Restocked(p: Product, line: PurchaseLine, controlled: bool): Product {
    p.(cost := line.unitCost, stock := if controlled then p.stock + line.quantity else p.stock)
  }

  predicate Receives(look: Db, db: Db, after: Db, ctx: Context, lines: seq<PurchaseLine>, purchase: Id)
    requires forall i :: 0 <= i < |lines| ==> lines[i].product in look.products && lines[i].product in db.products
  {
    && after.products.Keys == db.products.Keys
    && (forall i :: 0 <= i < |lines| ==>
          after.products[lines[i].product] ==
          Restocked(db.products[lines[i].product], lines[i], look.products[lines[i].product].controlled))
    && (forall p :: p in db.products && (forall i :: 0 <= i < |lines| ==> lines[i].product != p) ==>
          after.products[p] == db.products[p])
    && after.movements == db.movements + Receipts(lines, look.products, ctx, purchase)
    && after.orders == db.orders && after.tables == db.tables
    && after.limits == db.limits && after.charges == db.charges
  }

  predicate Purchases(look: Db, db: Db, db': Db, reply: Reply, ctx: Context, lines: seq<PurchaseLine>, newId: Id) {
    var header, hash := Text.Trim(ctx.header.GetOr("")), OfCall(ctx.tenant, ctx.user, RegisterPurchase(lines));
    var key := (ctx.tenant, header);
    if || lines == []
       || (exists i, j :: 0 <= i < j < |lines| && lines[i].product == lines[j].product)
       || (exists i :: 0 <= i < |lines| && (lines[i].product !in look.products ||
                                            look.products[lines[i].product].tenant != ctx.tenant))
    then
      Rejects(db, db', reply, BadRequest)
    else if header == "" then
      Rejects(db, db', reply, BadRequest)
    else if key in db.keys then
      Replays(db, db', reply, db.keys[key], hash)
    else if exists i :: 0 <= i < |lines| && lines[i].product !in db.products then
      Rejects(db, db', reply, NotFound)
    else
      && reply == Answered(PurchaseView(newId), false)
      && db'.keys == db.keys[key := KeyRow(Completed, hash, Some(PurchaseView(newId)))]
      && Receives(look, db, db', ctx, lines, newId)
  }

  lemma {:induction false} ReceiptsAppend(lines: seq<PurchaseLine>, last: PurchaseLine, look: map<Id, Product>,
      ctx: Context, purchase: Id)
    requires forall i :: 0 <= i < |lines| ==> lines[i].product in look
    requires last.product in look
    ensures Receipts(lines + [last], look, ctx, purchase) ==
            Receipts(lines, look, ctx, purchase) + Receipts([last], look, ctx, purchase)
  {
    if lines == [] {
      assert [] + [last] == [last];
    } else {
      assert (lines + [last])[1..] == lines[1..] + [last];
      ReceiptsAppend(lines[1..], last, look, ctx, purchase);
    }
  }

  lemma OneReceipt(line: PurchaseLine, look: map<Id, Product>, ctx: Context, purchase: Id)
    requires line.product in look
    ensures Receipts([line], look, ctx, purchase) ==
            if look[line.product].controlled then
              [Movement(ctx.tenant, line.product, PurchaseEntry, line.quantity, Some(line.unitCost), Some(purchase),
                        ctx.user)]
            else []
  {
    assert [line][1..] == [];
  }

  lemma {:induction false} EntriesReceived(l: Ledger, ctx: Context, purchase: Id, lines: seq<PurchaseLine>,
      look: map<Id, Product>)
    requires forall i :: 0 <= i < |lines| ==> lines[i].product in l.products && lines[i].product in look
    ensures ReceiveAll(l, ctx.tenant, purchase, ctx.user, lines, look).movements ==
            l.movements + Receipts(lines, look, ctx, purchase)
    decreases |lines|
  {
    hide ReceiveAll, Receipts;
    if lines == [] {
      NoEntries(l, ctx, purchase, look);
    } else {
      var init, last := lines[..|lines| - 1], lines[|lines| - 1];
      EntriesReceived(l, ctx, purchase, init, look);
      NextEntry(l, ctx, purchase, init, last, look);
      assert lines == init + [last];
    }
  }

  lemma NoEntries(l: Ledger, ctx: Context, purchase: Id, look: map<Id, Product>)
    ensures ReceiveAll(l, ctx.tenant, purchase, ctx.user, [], look).movements == l.movements
    ensures Receipts([], look, ctx, purchase) == []
  {
  }

  lemma ReceiveLast(l: Ledger, ctx: Context, purchase: Id, init: seq<PurchaseLine>, last: PurchaseLine,
      look: map<Id, Product>)
    requires forall i :: 0 <= i < |init| ==> init[i].product in l.products && init[i].product in look
    requires last.product in l.products && last.product in look
    ensures ReceiveAll(l, ctx.tenant, purchase, ctx.user, init + [last], look) ==
            ReceiveOne(ReceiveAll(l, ctx.tenant, purchase, ctx.user, init, look), ctx.tenant, purchase, ctx.user, last,
                       look[last.product].controlled)
  {
    hide ReceiveOne;
    assert (init + [last])[..|init|] == init;
  }

  lemma NextEntry(l: Ledger, ctx: Context, purchase: Id, init: seq<PurchaseLine>, last: PurchaseLine,
      look: map<Id, Product>)
    requires forall i :: 0 <= i < |init| ==> init[i].product in l.products && init[i].product in look
    requires last.product in l.products && last.product in look
    requires ReceiveAll(l, ctx.tenant, purchase, ctx.user, init, look).movements ==
             l.movements + Receipts(init, look, ctx, purchase)
    ensures ReceiveAll(l, ctx.tenant, purchase, ctx.user, init + [last], look).movements ==
            l.movements + Receipts(init + [last], look, ctx, purchase)
  {
    hide Receipts, ReceiveOne, ReceiveAll;
    var before := ReceiveAll(l, ctx.tenant, purchase, ctx.user, init, look);
    ReceiveLast(l, ctx, purchase, init, last, look);
    ReceiptsAppend(init, last, look, ctx, purchase);
    OneEntry(before, ctx, purchase, last, look);
  }

  lemma OneEntry(l: Ledger, ctx: Context, purchase: Id, line: PurchaseLine, look: map<Id, Product>)
    requires line.product in l.products && line.product in look
    ensures ReceiveOne(l, ctx.tenant, purchase, ctx.user, line, look[line.product].controlled).movements ==
            l.movements + Receipts([line], look, ctx, purchase)
  {
    OneReceipt(line, look, ctx, purchase);
  }

  lemma LineReceived(l: Ledger, ctx: Context, purchase: Id, line: PurchaseLine, controlled: bool, p: Id)
    requires line.product in l.products && p in l.products
    ensures var l' := ReceiveOne(l, ctx.tenant, purchase, ctx.user, line, controlled);
      p in l'.products &&
      l'.products[p] == if p == line.product then Restocked(l.products[p], line, controlled) else l.products[p]
  {
  }

  lemma {:induction false} ProductReceived(l: Ledger, ctx: Context, purchase: Id, lines: seq<PurchaseLine>,
      look: map<Id, Product>, i: nat)
    requires forall k :: 0 <= k < |lines| ==> lines[k].product in l.products && lines[k].product in look
    requires DistinctProducts(lines) && i < |lines|
    ensures ReceiveAll(l, ctx.tenant, purchase, ctx.user, lines, look).products[lines[i].product] ==
            Restocked(l.products[lines[i].product], lines[i], look[lines[i].product].controlled)
    decreases |lines|
  {
    hide ReceiveAll, ReceiveOne, Restocked;
    var init, last := lines[..|lines| - 1], lines[|lines| - 1];
    var p := lines[i].product;
    assert lines == init + [last];
    ReceiveLast(l, ctx, purchase, init, last, look);
    var before := ReceiveAll(l, ctx.tenant, purchase, ctx.user, init, look);
    LineReceived(before, ctx, purchase, last, look[last.product].controlled, p);
    if i < |init| {
      ProductReceived(l, ctx, purchase, init, look, i);
      assert p != last.product;
    } else {
      UnlistedProductStays(l, ctx.tenant, purchase, ctx.user, init, look, p);
    }
  }

  lemma PurchaseReceives(look: Db, db: Db, ctx: Context, lines: seq<PurchaseLine>, id: Id)
    requires AllOwned(look, ctx.tenant, lines) && DistinctProducts(lines)
    requires forall i :: 0 <= i < |lines| ==> lines[i].product in db.products
    ensures var tx := PurchaseTx(look, db, ctx, lines, id);
      tx.Commit? && tx.response == PurchaseView(id) && tx.db.keys == db.keys &&
      Receives(look, db, tx.db, ctx, lines, id)
  {
    hide Restocked, Receipts;
    var l := Ledger(db.products, db.movements);
    EntriesReceived(l, ctx, id, lines, look.products);
    forall i | 0 <= i < |lines|
      ensures ReceiveAll(l, ctx.tenant, id, ctx.user, lines, look.products).products[lines[i].product] ==
              Restocked(db.products[lines[i].product], lines[i], look.products[lines[i].product].controlled)
    {
      ProductReceived(l, ctx, id, lines, look.products, i);
    }
    forall p | p in db.products && forall i :: 0 <= i < |lines| ==> lines[i].product != p
      ensures ReceiveAll(l, ctx.tenant, id, ctx.user, lines, look.products).products[p] == db.products[p]
    {
      UnlistedProductStays(l, ctx.tenant, id, ctx.user, lines, look.products, p);
    }
  }

  lemma ServePurchases(read: Db, look: Db, db: Db, ctx: Context, lines: seq<PurchaseLine>, env: Env)
    requires KeysCompleted(db.keys) && KeysLater(read.keys, db.keys)
    ensures var (db', reply) := ServePurchase(read, look, db, ctx, lines, env);
      Purchases(look, db, db', reply, ctx, lines, env.newId)
  {
    hide PurchaseTx, Restocked, KeysLater, KeysCompleted, Text.Trim;
    var header, hash := Text.Trim(ctx.header.GetOr("")), OfCall(ctx.tenant, ctx.user, RegisterPurchase(lines));
    if lines != [] && DistinctProducts(lines) && AllOwned(look, ctx.tenant, lines) && header != "" {
      var tx := PurchaseTx(look, db, ctx, lines, env.newId);
      if (ctx.tenant, header) in db.keys {
        KnownKeyIsReplayed(read, db, ctx, hash, tx);
      } else {
        FreshKeyExecutes(read, db, ctx, hash, tx);
        if forall i :: 0 <= i < |lines| ==> lines[i].product in db.products {
          PurchaseReceives(look, db, ctx, lines, env.newId);
          assert ServePurchase(read, look, db, ctx, lines, env).0.products == tx.db.products;
        } else {
          UnknownProductAborts(look, db, ctx, lines, env.newId);
        }
      }
    }
  }

  lemma UnknownProductAborts(look: Db, db: Db, ctx: Context, lines: seq<PurchaseLine>, id: Id)
    requires AllOwned(look, ctx.tenant, lines) && exists i :: 0 <= i < |lines| && lines[i].product !in db.products
    ensures PurchaseTx(look, db, ctx, lines, id) == Abort(NotFound)
  {
  }

  /** The purchase, exactly: one entry and one restocking for each line. */
  lemma PurchaseIsExact(states: seq<Db>, steps: seq<Step>, i: nat)
    requires Run(states, steps) && i + 1 < |states| && i < |steps| && steps[i].Api? && steps[i].call.RegisterPurchase?
    requires steps[i].sight.look < |states|
    ensures Purchases(states[steps[i].sight.look], states[i], states[i + 1], ReplyAt(states, steps, i),
                      steps[i].ctx, steps[i].call.lines, steps[i].env.newId)
  {
    hide Run, ReplyAt, KeysCompleted, KeysLater, Purchases, ServePurchase;
    var s := steps[i];
    StepServes(states, steps, i);
    KeyFacts(states, steps, s.read, i);
    ServePurchases(states[s.read], states[s.sight.look], states[i], s.ctx, s.call.lines, s.env);
  }
}
