/** What createCharge and the Pix webhook answer and do, case by case, in every step of every run. */
module PixEndpoints {
  import opened Outcomes
  import opened Financial
  import opened Schema
  import opened Stock
  import opened Handlers
  import opened Integrity
  import opened Progress
  import opened Runs
  import opened Idempotency
  import opened Endpoints
  import opened Settlements
  import Theorems

  function NonNegative(n: int): int {
    if n < 0 then 0 else n
  }

  // ----- createCharge -----

  /** The discount a charge is created with. A percentage is checked from above only. */
  predicate GrantsForCharge(d: DiscountBody, due: int, cents: int) {
    if d.kind == Some(Percent) then
      d.value.Some? && d.value.value <= 10000 && IsHalfUp(cents, due * d.value.value)
    else if d.kind == Some(Fixed) || d.cents.Some? then
      cents == (if d.value.Some? then d.value.value else if d.cents.Some? then d.cents.value else 0)
    else
      cents == 0
  }

  /** A discount that is not above what is due, and the fee of what remains. */
  predicate FeesOf(due: int, discount: int, rate: int, fee: int) {
    && NonNegative(discount) <= due
    && IsHalfUp(fee, (due - NonNegative(discount)) * NonNegative(rate))
  }

  /** Discount and fee of a charge that is in order: something is left to pay. */
  predicate BillsCharge(items: seq<Item>, body: ChargeBody, cents: int, fee: int) {
    && GrantsForCharge(body.discount, Due(items), cents)
    && FeesOf(Due(items), cents, body.feeBps.GetOr(0), fee)
    && Due(items) - NonNegative(cents) + fee > 0
  }

  ghost predicate HasChargeBill(items: seq<Item>, body: ChargeBody) {
    exists cents, fee :: BillsCharge(items, body, cents, fee)
  }

  function ChargeOf(items: seq<Item>, ctx: Context, body: ChargeBody, env: Env, cents: int, fee: int): Charge {
    var d := body.discount;
    var isFixed := d.kind == Some(Fixed) || (d.kind.None? && d.cents.Some?);
    Charge(ctx.tenant, body.order, env.provider, env.txid, Due(items) - NonNegative(cents) + fee,
           if isFixed then Some(Fixed) else d.kind, if isFixed then Some(cents) else d.value, cents,
           NonNegative(body.feeBps.GetOr(0)), Pending)
  }

  ghost predicate Charges(read: Db, db: Db, db': Db, reply: Reply, ctx: Context, body: ChargeBody, env: Env,
      picked: Id) {
    if body.order !in read.orders || read.orders[body.order].tenant != ctx.tenant then
      Rejects(db, db', reply, NotFound)
    else
      var o := read.orders[body.order];
      if o.status == Closed || o.status == Canceled then
        Rejects(db, db', reply, BadRequest)
      else if body.expected.Some? && body.expected.value != o.version then
        Rejects(db, db', reply, Conflict)
      else if AwaitsPix(read, body.order) then
        db' == db && reply == Answered(ChargeView(picked), false)
      else if !HasChargeBill(o.items, body) then
        Rejects(db, db', reply, BadRequest)
      else if exists c :: c in db.charges && db.charges[c].tenant == ctx.tenant && db.charges[c].txid == env.txid then
        db' == db && reply == Answered(ChargeView(picked), false)
      else
        && reply == Answered(ChargeView(env.newId), false)
        && exists cents, fee :: BillsCharge(o.items, body, cents, fee) &&
             db' == db.(charges := db.charges[env.newId := ChargeOf(o.items, ctx, body, env, cents, fee)])
  }

  lemma TotalsAreFees(due: int, discount: int, rate: int, fee: int)
    requires due >= 0
    ensures var r := CalculateBillTotals(due, discount, rate);
      && (FeesOf(due, discount, rate, fee) <==> r.Ok? && r.value.fee == fee)
      && (r.Ok? <==> NonNegative(discount) <= due)
      && (r.Fail? ==> r.error == BadRequest)
      && (r.Ok? ==> r.value == Totals(due, NonNegative(discount), NonNegative(rate), r.value.fee,
                                      due - NonNegative(discount) + r.value.fee))
  {
    HalfUpIsRounded(fee, (due - NonNegative(discount)) * NonNegative(rate));
  }

  lemma ChargeDiscountIsGranted(due: int, d: DiscountBody, cents: int)
    ensures var r := ChargeDiscount(due, d);
      && (GrantsForCharge(d, due, cents) <==> r.Ok? && r.value.cents == cents)
      && (r.Fail? ==> r.error == BadRequest)
      && (r.Ok? ==>
            var isFixed := d.kind == Some(Fixed) || (d.kind.None? && d.cents.Some?);
            && r.value.kind == (if isFixed then Some(Fixed) else d.kind)
            && r.value.value == (if isFixed then Some(r.value.cents) else d.value))
  {
    if d.value.Some? {
      HalfUpIsRounded(cents, due * d.value.value);
    }
    match d.kind
    case Some(Percent) =>
    case Some(Fixed) =>
    case None =>
  }

  /** The bill of a charge, as computed. */
  function ComputedCharge(items: seq<Item>, body: ChargeBody): Result<(Discount, Totals)> {
    match ChargeDiscount(Subtotal(items), body.discount)
    case Fail(error) => Fail(error)
    case Ok(discount) =>
      match CalculateBillTotals(Subtotal(items), discount.cents, body.feeBps.GetOr(0))
      case Fail(error) => Fail(error)
      case Ok(totals) => if totals.total <= 0 then Fail(BadRequest) else Ok((discount, totals))
  }

  lemma ComputedIsBilled(items: seq<Item>, body: ChargeBody, cents: int, fee: int)
    requires Due(items) >= 0
    ensures var r := ComputedCharge(items, body);
      && (BillsCharge(items, body, cents, fee) <==> r.Ok? && r.value.0.cents == cents && r.value.1.fee == fee)
      && (r.Fail? ==> r.error == BadRequest)
  {
    hide ChargeDiscount, CalculateBillTotals, GrantsForCharge, FeesOf, Subtotal, Due;
    SubtotalIsDue(items);
    ChargeDiscountIsGranted(Due(items), body.discount, cents);
    TotalsAreFees(Due(items), cents, body.feeBps.GetOr(0), fee);
    var d := ChargeDiscount(Due(items), body.discount);
    if d.Ok? {
      TotalsAreFees(Due(items), d.value.cents, body.feeBps.GetOr(0), fee);
    }
  }

  lemma ComputedIsTheCharge(items: seq<Item>, ctx: Context, body: ChargeBody, env: Env)
    requires Due(items) >= 0 && ComputedCharge(items, body).Ok?
    ensures var (d, t) := ComputedCharge(items, body).value;
      Charge(ctx.tenant, body.order, env.provider, env.txid, t.total, d.kind, d.value, d.cents, t.feeBps, Pending) ==
      ChargeOf(items, ctx, body, env, d.cents, t.fee)
  {
    hide ChargeDiscount, CalculateBillTotals, Subtotal, Due;
    SubtotalIsDue(items);
    var d := ChargeDiscount(Due(items), body.discount).value;
    ChargeDiscountIsGranted(Due(items), body.discount, d.cents);
    TotalsAreFees(Due(items), d.cents, body.feeBps.GetOr(0), 0);
  }

  lemma ServeChargeIsComputed(read: Db, db: Db, ctx: Context, body: ChargeBody, env: Env, picked: Id)
    requires body.order in read.orders && read.orders[body.order].tenant == ctx.tenant
    requires read.orders[body.order].status !in {Closed, Canceled}
    requires body.expected.Some? ==> body.expected.value == read.orders[body.order].version
    requires !AwaitsPix(read, body.order)
    ensures var r := ComputedCharge(read.orders[body.order].items, body);
      ServeCharge(read, db, ctx, body, env, picked) ==
      if r.Fail? then
        (db, Refused(r.error))
      else if exists c :: c in db.charges && db.charges[c].tenant == ctx.tenant && db.charges[c].txid == env.txid then
        (db, Answered(ChargeView(picked), false))
      else
        var (d, t) := r.value;
        (db.(charges := db.charges[env.newId := Charge(ctx.tenant, body.order, env.provider, env.txid, t.total,
                                                       d.kind, d.value, d.cents, t.feeBps, Pending)]),
         Answered(ChargeView(env.newId), false))
  {
    hide ChargeDiscount, CalculateBillTotals, Subtotal;
  }

  lemma ServeCharges(read: Db, db: Db, ctx: Context, body: ChargeBody, env: Env, picked: Id)
    requires OrdersOk(read.orders)
    ensures var (db', reply) := ServeCharge(read, db, ctx, body, env, picked);
      Charges(read, db, db', reply, ctx, body, env, picked)
  {
    hide ComputedCharge, BillsCharge, ChargeOf, ChargeDiscount, CalculateBillTotals;
    if Owned(read, ctx.tenant, body.order) && read.orders[body.order].status !in {Closed, Canceled} &&
        Expects(body.expected, read.orders[body.order].version) && !AwaitsPix(read, body.order) {
      var o := read.orders[body.order];
      assert OrderOk(o);
      DueNotNegative(o.items);
      ServeChargeIsComputed(read, db, ctx, body, env, picked);
      var r := ComputedCharge(o.items, body);
      if r.Ok? {
        ComputedIsBilled(o.items, body, r.value.0.cents, r.value.1.fee);
        ComputedIsTheCharge(o.items, ctx, body, env);
      } else {
        forall cents, fee ensures !BillsCharge(o.items, body, cents, fee) {
          ComputedIsBilled(o.items, body, cents, fee);
        }
        ComputedIsBilled(o.items, body, 0, 0);
      }
    }
  }

  /** createCharge, exactly. */
  lemma ChargeIsExact(states: seq<Db>, steps: seq<Step>, i: nat)
    requires Run(states, steps) && i + 1 < |states| && i < |steps| && steps[i].Api? && steps[i].call.CreateCharge?
    requires steps[i].read < |states|
    ensures Charges(states[steps[i].read], states[i], states[i + 1], ReplyAt(states, steps, i), steps[i].ctx,
                    steps[i].call.charge, steps[i].env, steps[i].picked)
  {
    hide Run, ReplyAt, KeysLater, OrdersLater, OrdersOk, Inv, Charges, ServeCharge;
    var s := steps[i];
    StepServes(states, steps, i);
    EarlierReads(states, steps, s.read, i);
    ServeCharges(states[s.read], states[i], s.ctx, s.call.charge, s.env, s.picked);
  }

  // ----- the webhook -----

  predicate HookRejects(db: Db, db': Db, reply: HookReply, error: Error) {
    db' == db && reply == HookRefused(error)
  }

  /** The row of an order paid by a charge. */
  function PaidBy(o: Order, charge: Charge, c: Id, now: Time): Order {
    var due, discount := Due(o.items), NonNegative(charge.discount);
    o.(status := Closed, version := o.version + 1, table := None,
       payments := o.payments + [Payment(Pix, charge.amount, None, 0, Some(c))],
       history := o.history + [HistoryRow(Some(o.status), Closed, None)],
       bill := o.bill.(subtotal := due, discount := discount, feeBps := NonNegative(charge.feeBps),
                       fee := charge.amount - (due - discount), total := charge.amount,
                       kind := charge.kind, value := charge.value, settledAt := Some(now)))
  }

  /** The charge is paid and its order settled with it: their rows, and the stock; nothing else changes. */
  predicate PaysAs(db: Db, db': Db, c: Id, now: Time)
    requires c in db.charges && db.charges[c].order in db.orders
  {
    var charge := db.charges[c];
    && db'.orders == db.orders[charge.order := PaidBy(db.orders[charge.order], charge, c, now)]
    && db'.charges == db.charges[c := charge.(status := Paid)]
    && db'.keys == db.keys && db'.tables == db.tables && db'.limits == db.limits
    && Theorems.SoldExactly(db, db', charge.order, None)
  }

  /** The amount is what the order comes to now, with the charge's discount and rate. */
  predicate IsStillDue(o: Order, charge: Charge) {
    FeesOf(Due(o.items), charge.discount, charge.feeBps, charge.amount - (Due(o.items) - NonNegative(charge.discount)))
  }

  predicate Pays(db: Db, db': Db, reply: HookReply, c: Id, now: Time)
    requires c in db.charges && db.charges[c].order in db.orders
  {
    var charge := db.charges[c];
    var o := db.orders[charge.order];
    if charge.status == Paid then
      db' == db && reply == Acknowledged(true)
    else if o.status == Closed || o.status == Canceled then
      HookRejects(db, db', reply, Conflict)
    else if NonNegative(charge.discount) > Due(o.items) then
      HookRejects(db, db', reply, BadRequest)
    else if !IsStillDue(o, charge) then
      HookRejects(db, db', reply, Conflict)
    else
      reply == Acknowledged(false) && PaysAs(db, db', c, now)
  }

  /** `c` is the charge that the lookup returned, if there is one. */
  predicate Notifies(read: Db, db: Db, db': Db, reply: HookReply, hook: Hook, c: Id, now: Time)
    requires c in read.charges ==> c in db.charges && db.charges[c].order in db.orders
  {
    if !(c in read.charges && read.charges[c].provider == hook.provider && read.charges[c].txid == hook.txid) then
      HookRejects(db, db', reply, NotFound)
    else if hook.amount.Some? && hook.amount.value != read.charges[c].amount then
      HookRejects(db, db', reply, BadRequest)
    else if read.charges[c].status == Paid then
      db' == db && reply == Acknowledged(true)
    else if hook.status != Paid then
      db' == db.(charges := db.charges[c := db.charges[c].(status := hook.status)]) && reply == Acknowledged(false)
    else
      Pays(db, db', reply, c, now)
  }

  lemma PaidTxCommits(db: Db, c: Id, now: Time)
    requires Inv(db) && c in db.charges && db.charges[c].order in db.orders
    requires db.charges[c].status != Paid && db.orders[db.charges[c].order].status !in {Closed, Canceled}
    requires IsStillDue(db.orders[db.charges[c].order], db.charges[c])
    ensures var (db', reply) := PaidTx(db, c, db.charges[c].tenant, now);
      reply == Acknowledged(false) && PaysAs(db, db', c, now)
  {
    hide Theorems.SoldExactly, CalculateBillTotals, Subtotal, Due, FeesOf;
    var charge := db.charges[c];
    var o := db.orders[charge.order];
    assert OrderOk(o) && o.tenant == charge.tenant;
    DueNotNegative(o.items);
    SubtotalIsDue(o.items);
    TotalsAreFees(Due(o.items), charge.discount, charge.feeBps,
        charge.amount - (Due(o.items) - NonNegative(charge.discount)));
    var totals := CalculateBillTotals(Subtotal(o.items), charge.discount, charge.feeBps).value;
    assert PaidOrder(o, charge, c, totals, now) == PaidBy(o, charge, c, now);
    WithSaleAndCharge(db, c, PaidBy(o, charge, c, now));
  }

  lemma WithSaleAndCharge(db: Db, c: Id, order: Order)
    requires Inv(db) && c in db.charges && db.charges[c].order in db.orders
    requires var o := db.orders[db.charges[c].order];
             o.payments == [] && order.items == o.items && o.tenant == db.charges[c].tenant
    ensures var charge := db.charges[c];
      var sold := WithSale(db, charge.order, order, Seller(charge.tenant, charge.order, None, false), order.items);
      var db' := sold.(charges := db.charges[c := charge.(status := Paid)]);
      && db'.orders == db.orders[charge.order := order] && Theorems.SoldExactly(db, db', charge.order, None)
      && db'.keys == db.keys && db'.tables == db.tables && db'.limits == db.limits
  {
    var charge := db.charges[c];
    var seller := Seller(charge.tenant, charge.order, None, false);
    Theorems.SaleIsExact(db, charge.order, order, seller);
    var sold := WithSale(db, charge.order, order, seller, order.items);
    var db' := sold.(charges := db.charges[c := charge.(status := Paid)]);
    assert forall p :: p in db.products && Theorems.ProductSold(db, sold, charge.order, p) ==>
        Theorems.ProductSold(db, db', charge.order, p);
  }

  lemma PaidTxPays(db: Db, c: Id, now: Time)
    requires Inv(db) && c in db.charges && db.charges[c].order in db.orders
    ensures var (db', reply) := PaidTx(db, c, db.charges[c].tenant, now);
      Pays(db, db', reply, c, now)
  {
    hide Theorems.SoldExactly, CalculateBillTotals, Subtotal, Due, FeesOf, WithSale, PaidOrder, PaidBy, PaysAs,
         OrderLater, Seated, SalesOnce, Balanced, PixOk, KeysCompleted, PricesOk, OrdersLinked, ItemsOk, HistoryOk;
    var charge := db.charges[c];
    var o := db.orders[charge.order];
    assert OrderOk(o);
    DueNotNegative(o.items);
    SubtotalIsDue(o.items);
    TotalsAreFees(Due(o.items), charge.discount, charge.feeBps,
        charge.amount - (Due(o.items) - NonNegative(charge.discount)));
    if charge.status != Paid && o.status !in {Closed, Canceled} && IsStillDue(o, charge) {
      PaidTxCommits(db, c, now);
    }
  }

  lemma ServeNotifies(read: Db, db: Db, hook: Hook, c: Id, now: Time)
    requires Inv(db) && ChargesLater(read.charges, db.charges)
    requires c in read.charges ==> c in db.charges && db.charges[c].order in db.orders
    ensures var (db', reply) := ServeHook(read, db, hook, c, now);
      Notifies(read, db, db', reply, hook, c, now)
  {
    hide Pays, PaidTx, Inv;
    if c in read.charges {
      assert db.charges[c].tenant == read.charges[c].tenant;
      PaidTxPays(db, c, now);
    }
  }

  function HookReplyAt(states: seq<Db>, steps: seq<Step>, i: nat): HookReply
    requires i < |steps| && i < |states| && steps[i].Webhook? && steps[i].read < |states|
  {
    ServeHook(states[steps[i].read], states[i], steps[i].hook, steps[i].charge, steps[i].now).1
  }

  lemma NotificationServes(states: seq<Db>, steps: seq<Step>, i: nat)
    requires Run(states, steps) && i + 1 < |states| && i < |steps| && steps[i].Webhook?
    ensures var s := steps[i];
      && s.read <= i
      && states[i + 1] == ServeHook(states[s.read], states[i], s.hook, s.charge, s.now).0
      && ((exists c :: c in states[s.read].charges && Matches(states[s.read], s.hook, c)) ==>
            Matches(states[s.read], s.hook, s.charge))
  {
    assert StepsTo(states, steps[i], i);
  }

  lemma KnownCharges(states: seq<Db>, steps: seq<Step>, r: nat, i: nat, c: Id)
    requires Run(states, steps) && r <= i < |states|
    ensures Inv(states[i]) && ChargesLater(states[r].charges, states[i].charges)
    ensures c in states[r].charges ==> c in states[i].charges && states[i].charges[c].order in states[i].orders
  {
    Theorems.StateFacts(states, steps, r, i);
    Theorems.StateFacts(states, steps, i, i);
  }

  /** The webhook, exactly: an unknown charge, another amount, a charge already paid, another status, a
      finished order, a changed bill, and the payment. */
  lemma NotificationIsExact(states: seq<Db>, steps: seq<Step>, i: nat)
    requires Run(states, steps) && i + 1 < |states| && i < |steps| && steps[i].Webhook? && steps[i].read < |states|
    ensures var s := steps[i];
      && (s.charge in states[s.read].charges ==>
            s.charge in states[i].charges && states[i].charges[s.charge].order in states[i].orders)
      && Notifies(states[s.read], states[i], states[i + 1], HookReplyAt(states, steps, i), s.hook, s.charge, s.now)
  {
    hide Run, Inv, ChargesLater, Notifies, ServeHook, Matches;
    var s := steps[i];
    NotificationServes(states, steps, i);
    KnownCharges(states, steps, s.read, i, s.charge);
    ServeNotifies(states[s.read], states[i], s.hook, s.charge, s.now);
  }

  /** A call leaves every charge that exists as it is. */
  lemma ServeKeepsCharges(read: Db, seen: Seen, db: Db, ctx: Context, call: Call, env: Env, picked: Id, c: Id)
    requires env.newId !in db.charges && c in db.charges
    ensures var db' := Serve(read, seen, db, ctx, call, env, picked).0;
      c in db'.charges && db'.charges[c] == db.charges[c]
  {
    match call
    case SettleOrder(id, body) => SettleKeepsCharges(read, seen, db, ctx, id, body, env);
    case CloseOrder(id, body) =>
      if body.payments != [] {
        SettleKeepsCharges(read, seen, db, ctx, id, body, env);
      }
    case _ => OtherCallKeepsCharges(read, seen, db, ctx, call, env, picked, c);
  }

  lemma SettleKeepsCharges(read: Db, seen: Seen, db: Db, ctx: Context, id: Id, body: SettleBody, env: Env)
    ensures ServeSettle(read, seen, db, ctx, id, body, env).0.charges == db.charges
  {
    hide SettleGate, SellAll, Settled;
  }

  lemma OtherCallKeepsCharges(read: Db, seen: Seen, db: Db, ctx: Context, call: Call, env: Env, picked: Id, c: Id)
    requires env.newId !in db.charges && c in db.charges && !call.SettleOrder? && !call.CloseOrder?
    ensures var db' := Serve(read, seen, db, ctx, call, env, picked).0;
      c in db'.charges && db'.charges[c] == db.charges[c]
  {
    hide ReadSeat, ReadLine, ReceiveAll, ChargeDiscount, CalculateBillTotals, Subtotal;
  }

  lemma OnlyTheNotifiedChargeChanges(read: Db, db: Db, hook: Hook, c: Id, now: Time, other: Id)
    requires other in db.charges && other != c
    ensures var db' := ServeHook(read, db, hook, c, now).0;
      other in db'.charges && db'.charges[other] == db.charges[other]
  {
    hide SellAll, CalculateBillTotals, PaidOrder, Subtotal;
  }

  /** A charge becomes paid only through a notification of its payment that names no amount or exactly its
      own, and with it its order is settled. */
  lemma PaidOnlyForItsAmount(states: seq<Db>, steps: seq<Step>, i: nat, c: Id)
    requires Run(states, steps) && i < |steps| && i + 1 < |states| && c in states[i].charges
    requires c in states[i + 1].charges
    requires states[i].charges[c].status != Paid && states[i + 1].charges[c].status == Paid
    ensures steps[i].Webhook? && steps[i].charge == c && steps[i].hook.status == Paid
    ensures steps[i].hook.amount.Some? ==> steps[i].hook.amount.value == states[i].charges[c].amount
    ensures steps[i].hook.provider == states[i].charges[c].provider && steps[i].hook.txid == states[i].charges[c].txid
    ensures states[i].charges[c].order in states[i].orders && PaysAs(states[i], states[i + 1], c, steps[i].now)
    ensures states[i].orders[states[i].charges[c].order].status in {Open, SentToKitchen, Delivered}
  {
    hide Run, PaysAs, Serve, ServeHook, Inv;
    var s := steps[i];
    match s
    case Api(read, sight, ctx, call, env, picked) =>
      StepServes(states, steps, i);
      ServeKeepsCharges(states[read], SeenAt(states, sight), states[i], ctx, call, env, picked, c);
    case Webhook(read, hook, charge, now) =>
      NotificationServes(states, steps, i);
      KnownCharges(states, steps, read, i, c);
      if c != charge {
        OnlyTheNotifiedChargeChanges(states[read], states[i], hook, charge, now, c);
      } else {
        NotificationIsExact(states, steps, i);
      }
    case _ => CatalogueKeepsCharges(states, steps, i);
  }

  lemma CatalogueKeepsCharges(states: seq<Db>, steps: seq<Step>, i: nat)
    requires Run(states, steps) && i < |steps| && i + 1 < |states| && !steps[i].Api? && !steps[i].Webhook?
    ensures states[i + 1].charges == states[i].charges
  {
    assert StepsTo(states, steps[i], i);
  }

  /** A notification whose lookup finds no charge, or one of another amount, is refused and changes nothing. */
  lemma WrongNotificationIsRefused(states: seq<Db>, steps: seq<Step>, i: nat)
    requires Run(states, steps) && i + 1 < |states| && i < |steps| && steps[i].Webhook? && steps[i].read < |states|
    ensures var s, charges := steps[i], states[steps[i].read].charges;
      if !exists c :: c in charges && charges[c].provider == s.hook.provider && charges[c].txid == s.hook.txid then
        HookRejects(states[i], states[i + 1], HookReplyAt(states, steps, i), NotFound)
      else
        && s.charge in charges
        && (s.hook.amount.Some? && s.hook.amount.value != charges[s.charge].amount ==>
              HookRejects(states[i], states[i + 1], HookReplyAt(states, steps, i), BadRequest))
  {
    hide Run, Pays, ServeHook;
    var s, charges := steps[i], states[steps[i].read].charges;
    NotificationServes(states, steps, i);
    NotificationIsExact(states, steps, i);
    if c :| c in charges && charges[c].provider == s.hook.provider && charges[c].txid == s.hook.txid {
      assert Matches(states[s.read], s.hook, c);
    }
  }
}
