/** What settleOrder answers, bills, records and sells, case by case, in every step of every run. */
module Settlements {
  import opened Outcomes
  import opened Financial
  import opened Schema
  import opened Stock
  import opened Handlers
  import opened Integrity
  import opened Progress
  import opened Runs
  import opened Idempotency
  import opened Endpoints
  import Text
  import Theorems

  // ----- sums -----

  /** What the items cost together. */
  function Due(items: seq<Item>): int {
    if items == [] then 0 else items[0].quantity * items[0].price + Due(items[1..])
  }

  lemma {:induction false} DueAppends(items: seq<Item>, last: Item)
    ensures Due(items + [last]) == Due(items) + last.quantity * last.price
  {
    if items == [] {
      assert [last][1..] == [];
    } else {
      assert (items + [last])[1..] == items[1..] + [last];
      DueAppends(items[1..], last);
    }
  }

  lemma {:induction false} SubtotalIsDue(items: seq<Item>)
    ensures Subtotal(items) == Due(items)
  {
    if items != [] {
      var init, last := items[..|items| - 1], items[|items| - 1];
      SubtotalIsDue(init);
      DueAppends(init, last);
      assert items == init + [last];
    }
  }

  function Paid(inputs: seq<PaymentInput>): int {
    if inputs == [] then 0 else inputs[0].amount + Paid(inputs[1..])
  }

  lemma {:induction false} PaidAppends(inputs: seq<PaymentInput>, last: PaymentInput)
    ensures Paid(inputs + [last]) == Paid(inputs) + last.amount
  {
    if inputs == [] {
      assert [last][1..] == [];
    } else {
      assert (inputs + [last])[1..] == inputs[1..] + [last];
      PaidAppends(inputs[1..], last);
    }
  }

  lemma {:induction false} RecordedAmountIsPaid(inputs: seq<PaymentInput>)
    ensures AmountOf(AllRecorded(inputs)) == Paid(inputs)
  {
    if inputs != [] {
      var init, last := inputs[..|inputs| - 1], inputs[|inputs| - 1];
      RecordedAmountIsPaid(init);
      PaidAppends(init, last);
      assert inputs == init + [last] && AllRecorded(inputs)[..|init|] == AllRecorded(init);
    }
  }

  // ----- the bill -----

  /** `cents` is n / 10000 rounded half up. */
  predicate IsHalfUp(cents: int, n: int) {
    10000 * cents <= n + 5000 < 10000 * cents + 10000
  }

  /** The discount a body asks for on an amount due, if it asks for one in a valid way. */
  predicate Grants(d: DiscountBody, due: int, cents: int) {
    if d.kind == Some(Percent) then
      && d.value.Some? && 0 <= d.value.value <= 10000 && IsHalfUp(cents, due * d.value.value)
      && (d.cents.Some? ==> d.cents.value == cents)
    else if d.kind == Some(Fixed) || d.cents.Some? then
      && (d.value.Some? && d.cents.Some? ==> d.value == d.cents)
      && cents == (if d.value.Some? then d.value.value else if d.cents.Some? then d.cents.value else 0)
    else
      cents == 0
  }

  /** The payment is positive, of a known kind, and enough: cash may be more, anything else is exact. */
  predicate IsEnough(p: PaymentInput) {
    && p.amount > 0
    && p.via in {Cash, Pix, Credit, Debit, Voucher}
    && (p.tendered.Some? ==> p.tendered.value == p.amount || (p.via == Cash && p.tendered.value > p.amount))
  }

  /** Discount and fee of a settlement that is in order: the discount is granted, allowed to the role and
      not above what is due, the fee is that of the rate asked for or of 10%, and the payments add up. */
  predicate Bills(items: seq<Item>, role: Role, limit: int, body: SettleBody, cents: int, fee: int) {
    var due := Due(items);
    && Grants(body.discount, due, cents) && 0 <= cents <= due
    && (role == Cashier && due > 0 ==> cents * 10000 <= due * limit)
    && IsHalfUp(fee, (due - cents) * body.feeBps.GetOr(1000))
    && body.payments != [] && (forall i :: 0 <= i < |body.payments| ==> IsEnough(body.payments[i]))
    && Paid(body.payments) == due - cents + fee
  }

  /** What is recorded of a payment: cash without a tendered amount is exact, and only cash gives change. */
  function Taken(p: PaymentInput): Payment {
    if p.via == Cash && p.tendered.Some? then
      Payment(Cash, p.amount, p.tendered, p.tendered.value - p.amount, None)
    else if p.via == Cash then
      Payment(Cash, p.amount, Some(p.amount), 0, None)
    else
      Payment(p.via, p.amount, p.tendered, 0, None)
  }

  function AllTaken(inputs: seq<PaymentInput>): seq<Payment> {
    seq(|inputs|, i requires 0 <= i < |inputs| => Taken(inputs[i]))
  }

  /** The row of an order settled by `user` at `now`. */
  function SettledAs(o: Order, body: SettleBody, cents: int, fee: int, user: Option<Id>, now: Time): Order {
    var d, due := body.discount, Due(o.items);
    var isFixed := d.kind == Some(Fixed) || (d.kind.None? && d.cents.Some?);
    o.(status := Closed, version := o.version + 1, table := None,
       payments := o.payments + AllTaken(body.payments),
       history := o.history + [HistoryRow(Some(o.status), Closed, user)],
       bill := Bill(due, cents, body.feeBps.GetOr(1000), fee, due - cents + fee,
                    if isFixed then Some(Fixed) else d.kind, if isFixed then Some(cents) else d.value,
                    if cents > 0 then user else None, Some(now), user))
  }

  lemma HalfUpIsRounded(cents: int, n: int)
    ensures IsHalfUp(cents, n) <==> cents == RoundBps(n)
  {
  }

  lemma ResolvedIsGranted(due: int, d: DiscountBody, cents: int)
    requires ValidDiscountBody(d)
    ensures var r := ResolveDiscount(due, d);
      && (Grants(d, due, cents) <==> r.Ok? && r.value.cents == cents)
      && (r.Ok? ==>
            var isFixed := d.kind == Some(Fixed) || (d.kind.None? && d.cents.Some?);
            && r.value.kind == (if isFixed then Some(Fixed) else d.kind)
            && r.value.value == (if isFixed then Some(r.value.cents) else d.value))
  {
    if d.value.Some? {
      HalfUpIsRounded(cents, due * d.value.value);
    }
    match d.kind
    case Some(Percent) =>
    case Some(Fixed) =>
    case None =>
  }

  lemma TakenAsRecorded(p: PaymentInput)
    ensures AcceptablePayment(p) <==> IsEnough(p)
    ensures Recorded(p) == Taken(p)
  {
  }

  lemma LiquidatesWhenEnough(expected: int, inputs: seq<PaymentInput>)
    ensures Liquidates(expected, inputs) <==>
            inputs != [] && (forall i :: 0 <= i < |inputs| ==> IsEnough(inputs[i])) && Paid(inputs) == expected
    ensures AllRecorded(inputs) == AllTaken(inputs)
  {
    hide AcceptablePayment, IsEnough, Recorded, Taken, AmountOf, Paid;
    RecordedAmountIsPaid(inputs);
    forall i | 0 <= i < |inputs|
      ensures (AcceptablePayment(inputs[i]) <==> IsEnough(inputs[i])) && Recorded(inputs[i]) == Taken(inputs[i])
    {
      TakenAsRecorded(inputs[i]);
    }
  }

  /** The quote is the bill. */
  lemma QuoteIsBill(items: seq<Item>, role: Role, limit: Option<int>, body: SettleBody, cents: int, fee: int)
    requires ValidSettle(body) && Due(items) >= 0
    ensures var r := QuoteOf(items, EffectiveRole(role), limit, body);
      Bills(items, role, limit.GetOr(10000), body, cents, fee) <==>
      r.Ok? && r.value.discount.cents == cents && r.value.totals.fee == fee
  {
    hide ResolveDiscount, Grants, Liquidates, IsEnough, RoundBps, IsHalfUp, Due, Subtotal;
    var due, rate := Due(items), body.feeBps.GetOr(1000);
    SubtotalIsDue(items);
    ResolvedIsGranted(due, body.discount, cents);
    var d := ResolveDiscount(due, body.discount);
    HalfUpIsRounded(fee, (due - cents) * rate);
    LiquidatesWhenEnough(due - cents + fee, body.payments);
    if d.Ok? {
      ResolvedIsGranted(due, body.discount, d.value.cents);
      AcceptedDiscountRange(due, body.discount);
    }
  }

  lemma QuotedOrder(o: Order, from: Status, role: Role, limit: Option<int>, body: SettleBody, user: Option<Id>,
      now: Time)
    requires ValidSettle(body) && Due(o.items) >= 0 && QuoteOf(o.items, EffectiveRole(role), limit, body).Ok?
    requires from == o.status
    ensures var q := QuoteOf(o.items, EffectiveRole(role), limit, body).value;
      Settled(o, from, q, user, now) == SettledAs(o, body, q.discount.cents, q.totals.fee, user, now)
  {
    var due := Due(o.items);
    SubtotalIsDue(o.items);
    var d := ResolveDiscount(due, body.discount);
    ResolvedIsGranted(due, body.discount, d.value.cents);
    AcceptedDiscountRange(due, body.discount);
    LiquidatesWhenEnough(due, body.payments);
  }

  // ----- settleOrder -----

  /** The order is settled: its row, its key, and the stock it sells; nothing else changes. */
  predicate SettlesAs(db: Db, db': Db, reply: Reply, ctx: Context, id: Id, body: SettleBody, key: Key, cents: int,
      fee: int, now: Time)
    requires id in db.orders
  {
    var order := SettledAs(db.orders[id], body, cents, fee, ctx.user, now);
    && reply == Answered(OrderView(id, order), false)
    && db'.orders == db.orders[id := order]
    && db'.keys == db.keys[key := KeyRow(Completed, OfCall(ctx.tenant, ctx.user, SettleOrder(id, body)),
                                         Some(OrderView(id, order)))]
    && db'.tables == db.tables && db'.limits == db.limits && db'.charges == db.charges
    && Theorems.SoldExactly(db, db', id, ctx.user)
  }

  ghost predicate HasBill(items: seq<Item>, role: Role, limit: int, body: SettleBody) {
    exists cents, fee :: Bills(items, role, limit, body, cents, fee)
  }

  /** What a tenant lets its cashiers give, in basis points; all of it when nothing is set. */
  function CashierLimit(db: Db, tenant: Id): int {
    if tenant in db.limits then db.limits[tenant] else 10000
  }

  /** How a settlement ends that has read an order which can be settled. */
  ghost predicate SettlesRead(o: Order, limit: int, db: Db, db': Db, reply: Reply, ctx: Context, id: Id,
      body: SettleBody, key: Key, now: Time) {
    if !HasBill(o.items, ctx.role, limit, body) then
      Rejects(db, db', reply, BadRequest)
    else if id !in db.orders || db.orders[id] != o then
      Rejects(db, db', reply, Conflict)
    else
      exists cents, fee :: Bills(o.items, ctx.role, limit, body, cents, fee) &&
                           SettlesAs(db, db', reply, ctx, id, body, key, cents, fee, now)
  }

  ghost predicate Settles(seen: Seen, db: Db, db': Db, reply: Reply, ctx: Context, id: Id, body: SettleBody,
      now: Time) {
    var header, hash := Text.Trim(ctx.header.GetOr("")), OfCall(ctx.tenant, ctx.user, SettleOrder(id, body));
    var key := (ctx.tenant, header);
    if header == "" then
      Rejects(db, db', reply, BadRequest)
    else if key in db.keys then
      Replays(db, db', reply, db.keys[key], hash)
    else if id !in seen.order.orders || seen.order.orders[id].tenant != ctx.tenant then
      Rejects(db, db', reply, NotFound)
    else
      var o := seen.order.orders[id];
      if o.status == Closed && o.payments == [] then
        Rejects(db, db', reply, Conflict)
      else if o.status == Closed then
        Commits(db, db', reply, OrderView(id, o), Some(key), hash)
      else if o.status == Canceled then
        Rejects(db, db', reply, BadRequest)
      else if (body.expected.Some? && body.expected.value != o.version) || AwaitsPix(seen.charges, id) then
        Rejects(db, db', reply, Conflict)
      else
        SettlesRead(o, CashierLimit(seen.limits, ctx.tenant), db, db', reply, ctx, id, body, key, now)
  }

  /** The order read can be settled, as far as its status, its version and its charges go. */
  predicate CanSettle(seen: Seen, ctx: Context, id: Id, body: SettleBody) {
    && id in seen.order.orders && seen.order.orders[id].tenant == ctx.tenant
    && seen.order.orders[id].status in {Open, SentToKitchen, Delivered}
    && (body.expected.Some? ==> body.expected.value == seen.order.orders[id].version)
    && !AwaitsPix(seen.charges, id)
  }

  lemma DueNotNegative(items: seq<Item>)
    requires ItemsOk(items)
    ensures Due(items) >= 0
  {
    SubtotalNotNegative(items);
    SubtotalIsDue(items);
  }

  /** The gate lets through exactly the orders that can be settled, with their bill. */
  lemma GateOfSettleable(seen: Seen, ctx: Context, id: Id, body: SettleBody)
    requires CanSettle(seen, ctx, id, body)
    ensures var o := seen.order.orders[id];
      var r := QuoteOf(o.items, EffectiveRole(ctx.role), LimitOf(seen.limits, ctx.tenant), body);
      SettleGate(seen, ctx, id, body) == if r.Ok? then Go(o, r.value) else Stop(r.error)
    ensures LimitOf(seen.limits, ctx.tenant).GetOr(10000) == CashierLimit(seen.limits, ctx.tenant)
  {
    hide QuoteOf;
  }

  lemma UnbilledIsRejected(seen: Seen, db: Db, ctx: Context, id: Id, body: SettleBody, now: Time)
    requires CanSettle(seen, ctx, id, body) && ValidSettle(body) && Due(seen.order.orders[id].items) >= 0
    requires !HasBill(seen.order.orders[id].items, ctx.role, CashierLimit(seen.limits, ctx.tenant), body)
    ensures SettleTx(seen, db, ctx, id, body, now) == Abort(BadRequest)
  {
    hide QuoteOf, Bills;
    var o, limit := seen.order.orders[id], LimitOf(seen.limits, ctx.tenant);
    GateOfSettleable(seen, ctx, id, body);
    var r := QuoteOf(o.items, EffectiveRole(ctx.role), limit, body);
    if r.Ok? {
      QuoteIsBill(o.items, ctx.role, limit, body, r.value.discount.cents, r.value.totals.fee);
    }
    QuoteIsPlain(o.items, EffectiveRole(ctx.role), limit, body);
  }

  lemma StaleIsRejected(seen: Seen, db: Db, ctx: Context, id: Id, body: SettleBody, now: Time)
    requires CanSettle(seen, ctx, id, body) && ValidSettle(body) && Due(seen.order.orders[id].items) >= 0
    requires HasBill(seen.order.orders[id].items, ctx.role, CashierLimit(seen.limits, ctx.tenant), body)
    requires OrdersLater(seen.order.orders, db.orders) && db.orders[id] != seen.order.orders[id]
    ensures SettleTx(seen, db, ctx, id, body, now) == Abort(Conflict)
  {
    hide QuoteOf, Bills;
    var o, limit := seen.order.orders[id], LimitOf(seen.limits, ctx.tenant);
    GateOfSettleable(seen, ctx, id, body);
    var cents, fee :| Bills(o.items, ctx.role, limit.GetOr(10000), body, cents, fee);
    QuoteIsBill(o.items, ctx.role, limit, body, cents, fee);
    assert OrderLater(o, db.orders[id]);
  }

  /** The transaction of a settlement that commits. */
  lemma BilledCommits(seen: Seen, db: Db, ctx: Context, id: Id, body: SettleBody, now: Time)
    returns (cents: int, fee: int)
    requires CanSettle(seen, ctx, id, body) && ValidSettle(body) && Due(seen.order.orders[id].items) >= 0
    requires HasBill(seen.order.orders[id].items, ctx.role, CashierLimit(seen.limits, ctx.tenant), body)
    requires id in db.orders && db.orders[id] == seen.order.orders[id]
    ensures Bills(db.orders[id].items, ctx.role, CashierLimit(seen.limits, ctx.tenant), body, cents, fee)
    ensures var o' := SettledAs(db.orders[id], body, cents, fee, ctx.user, now);
      SettleTx(seen, db, ctx, id, body, now) ==
      Commit(WithSale(db, id, o', Seller(ctx.tenant, id, ctx.user, true), db.orders[id].items), OrderView(id, o'))
  {
    hide QuoteOf, Bills, Settled, SettledAs, WithSale;
    var o, limit := seen.order.orders[id], LimitOf(seen.limits, ctx.tenant);
    GateOfSettleable(seen, ctx, id, body);
    cents, fee :| Bills(o.items, ctx.role, limit.GetOr(10000), body, cents, fee);
    QuoteIsBill(o.items, ctx.role, limit, body, cents, fee);
    QuotedOrder(o, o.status, ctx.role, limit, body, ctx.user, now);
  }

  /** A settlement under a fresh key is its transaction, with the key. */
  lemma FreshKeyExecutes(read: Db, db: Db, ctx: Context, hash: Fingerprint, tx: TxResult)
    requires KeysLater(read.keys, db.keys) && Text.Trim(ctx.header.GetOr("")) != ""
    requires (ctx.tenant, Text.Trim(ctx.header.GetOr(""))) !in db.keys
    ensures ExecuteIdempotent(read, db, ctx, hash, tx) ==
            match tx
            case Commit(db', response) =>
              (Remember(db', (ctx.tenant, Text.Trim(ctx.header.GetOr(""))), hash, response), Answered(response, false))
            case Unchanged(response) =>
              (Remember(db, (ctx.tenant, Text.Trim(ctx.header.GetOr(""))), hash, response), Answered(response, false))
            case Abort(error) => (db, Refused(error))
  {
  }

  lemma KnownKeyIsReplayed(read: Db, db: Db, ctx: Context, hash: Fingerprint, tx: TxResult)
    requires KeysLater(read.keys, db.keys) && KeysCompleted(db.keys) && Text.Trim(ctx.header.GetOr("")) != ""
    requires (ctx.tenant, Text.Trim(ctx.header.GetOr(""))) in db.keys
    ensures var (db', reply) := ExecuteIdempotent(read, db, ctx, hash, tx);
      Replays(db, db', reply, db.keys[(ctx.tenant, Text.Trim(ctx.header.GetOr("")))], hash)
  {
  }

  lemma SaleIsTheOnlyOtherChange(db: Db, id: Id, order: Order, seller: Seller, key: Key, row: KeyRow)
    requires Inv(db) && id in db.orders && db.orders[id].payments == [] && order.items == db.orders[id].items
    requires seller.tenant == db.orders[id].tenant && seller.order == id
    ensures var sold := WithSale(db, id, order, seller, order.items); var db' := sold.(keys := sold.keys[key := row]);
      && db'.orders == db.orders[id := order] && db'.keys == db.keys[key := row]
      && db'.tables == db.tables && db'.limits == db.limits && db'.charges == db.charges
      && Theorems.SoldExactly(db, db', id, seller.author)
  {
    Theorems.SaleIsExact(db, id, order, seller);
    var sold := WithSale(db, id, order, seller, order.items);
    var db' := sold.(keys := sold.keys[key := row]);
    assert forall p :: p in db.products && Theorems.ProductSold(db, sold, id, p) ==>
        Theorems.ProductSold(db, db', id, p);
  }

  lemma ServeSettlesRead(read: Db, seen: Seen, db: Db, ctx: Context, id: Id, body: SettleBody, env: Env)
    requires Inv(db) && KeysLater(read.keys, db.keys) && OrdersLater(seen.order.orders, db.orders)
    requires CanSettle(seen, ctx, id, body) && ValidSettle(body) && ItemsOk(seen.order.orders[id].items)
    requires Text.Trim(ctx.header.GetOr("")) != "" && (ctx.tenant, Text.Trim(ctx.header.GetOr(""))) !in db.keys
    ensures var (db', reply) := ServeSettle(read, seen, db, ctx, id, body, env);
      SettlesRead(seen.order.orders[id], CashierLimit(seen.limits, ctx.tenant), db, db', reply, ctx, id, body,
                  (ctx.tenant, Text.Trim(ctx.header.GetOr(""))), env.now)
  {
    hide SettleTx, ExecuteIdempotent, Bills, SettledAs, WithSale, KeysLater, Theorems.SoldExactly, Text.Trim, Inv;
    var o, limit := seen.order.orders[id], CashierLimit(seen.limits, ctx.tenant);
    var hash, key := OfCall(ctx.tenant, ctx.user, SettleOrder(id, body)), (ctx.tenant, Text.Trim(ctx.header.GetOr("")));
    DueNotNegative(o.items);
    FreshKeyExecutes(read, db, ctx, hash, SettleTx(seen, db, ctx, id, body, env.now));
    assert OrderLater(o, db.orders[id]);
    if !HasBill(o.items, ctx.role, limit, body) {
      UnbilledIsRejected(seen, db, ctx, id, body, env.now);
    } else if db.orders[id] != o {
      StaleIsRejected(seen, db, ctx, id, body, env.now);
    } else {
      var cents, fee := BilledCommits(seen, db, ctx, id, body, env.now);
      BilledSettles(db, ctx, id, body, key, cents, fee, env.now);
    }
  }

  lemma BilledSettles(db: Db, ctx: Context, id: Id, body: SettleBody, key: Key, cents: int, fee: int, now: Time)
    requires Inv(db) && id in db.orders && db.orders[id].tenant == ctx.tenant && db.orders[id].status != Closed
    ensures var o' := SettledAs(db.orders[id], body, cents, fee, ctx.user, now);
      var sold := WithSale(db, id, o', Seller(ctx.tenant, id, ctx.user, true), db.orders[id].items);
      SettlesAs(db, Remember(sold, key, OfCall(ctx.tenant, ctx.user, SettleOrder(id, body)), OrderView(id, o')),
                Answered(OrderView(id, o'), false), ctx, id, body, key, cents, fee, now)
  {
    hide Theorems.SoldExactly, WithSale;
    var o' := SettledAs(db.orders[id], body, cents, fee, ctx.user, now);
    assert OrderOk(db.orders[id]);
    SaleIsTheOnlyOtherChange(db, id, o', Seller(ctx.tenant, id, ctx.user, true), key,
        KeyRow(Completed, OfCall(ctx.tenant, ctx.user, SettleOrder(id, body)), Some(OrderView(id, o'))));
  }

  lemma GateOfOthers(seen: Seen, db: Db, ctx: Context, id: Id, body: SettleBody, now: Time)
    requires !CanSettle(seen, ctx, id, body)
    ensures var tx := SettleTx(seen, db, ctx, id, body, now);
      if id !in seen.order.orders || seen.order.orders[id].tenant != ctx.tenant then
        tx == Abort(NotFound)
      else
        var o := seen.order.orders[id];
        tx == if o.status == Closed && o.payments == [] then Abort(Conflict)
              else if o.status == Closed then Unchanged(OrderView(id, o))
              else if o.status == Canceled then Abort(BadRequest)
              else Abort(Conflict)
  {
    hide QuoteOf;
  }

  lemma ServeSettles(read: Db, seen: Seen, db: Db, ctx: Context, id: Id, body: SettleBody, env: Env)
    requires Inv(db) && KeysLater(read.keys, db.keys) && OrdersLater(seen.order.orders, db.orders)
    requires ValidSettle(body) && OrdersOk(seen.order.orders)
    ensures var (db', reply) := ServeSettle(read, seen, db, ctx, id, body, env);
      Settles(seen, db, db', reply, ctx, id, body, env.now)
  {
    hide SettleTx, KeysLater, Text.Trim, SettlesRead, Inv, OrdersLater, KeysCompleted, AwaitsPix, CashierLimit;
    var header, hash := Text.Trim(ctx.header.GetOr("")), OfCall(ctx.tenant, ctx.user, SettleOrder(id, body));
    var tx := SettleTx(seen, db, ctx, id, body, env.now);
    InvCompletesKeys(db);
    if header != "" {
      hide ExecuteIdempotent;
      if (ctx.tenant, header) in db.keys {
        KnownKeyIsReplayed(read, db, ctx, hash, tx);
      } else if CanSettle(seen, ctx, id, body) {
        assert OrderOk(seen.order.orders[id]);
        ServeSettlesRead(read, seen, db, ctx, id, body, env);
      } else {
        FreshKeyExecutes(read, db, ctx, hash, tx);
        GateOfOthers(seen, db, ctx, id, body, env.now);
      }
    }
  }

  lemma InvCompletesKeys(db: Db)
    requires Inv(db)
    ensures KeysCompleted(db.keys)
  {
  }

  /** The call settles an order, by settle or by a close with payments. */
  predicate IsSettlement(call: Call) {
    call.SettleOrder? || (call.CloseOrder? && call.close.payments != [])
  }

  function BodyOf(call: Call): SettleBody
    requires IsSettlement(call)
  {
    if call.SettleOrder? then call.settle else call.close
  }

  lemma EarlierReads(states: seq<Db>, steps: seq<Step>, r: nat, i: nat)
    requires Run(states, steps) && r <= i < |states|
    ensures Inv(states[i]) && OrdersOk(states[r].orders) && OrdersLater(states[r].orders, states[i].orders)
    ensures KeysLater(states[r].keys, states[i].keys)
  {
    Theorems.StateFacts(states, steps, r, i);
    Theorems.StateFacts(states, steps, i, i);
  }

  lemma ServeIsSettlement(read: Db, seen: Seen, db: Db, ctx: Context, call: Call, env: Env, picked: Id)
    requires IsSettlement(call)
    ensures Serve(read, seen, db, ctx, call, env, picked) ==
            ServeSettle(read, seen, db, ctx, call.id, BodyOf(call), env)
    ensures ValidCall(call) ==> ValidSettle(BodyOf(call))
  {
    hide ServeSettle, ValidSettle;
  }

  /** settleOrder and the close with payments, exactly: what is answered, the bill and the payments
      recorded, and the stock sold. */
  lemma SettlementIsExact(states: seq<Db>, steps: seq<Step>, i: nat)
    requires Run(states, steps) && i + 1 < |states| && i < |steps| && steps[i].Api? && IsSettlement(steps[i].call)
    requires Within(steps[i].sight, |states|)
    ensures Settles(SeenAt(states, steps[i].sight), states[i], states[i + 1], ReplyAt(states, steps, i),
                    steps[i].ctx, steps[i].call.id, BodyOf(steps[i].call), steps[i].env.now)
  {
    hide Run, ReplyAt, KeysLater, OrdersLater, OrdersOk, Inv, Settles, ServeSettle, Serve, ValidSettle;
    var s := steps[i];
    StepServes(states, steps, i);
    EarlierReads(states, steps, s.read, i);
    EarlierReads(states, steps, s.sight.order, i);
    ServeIsSettlement(states[s.read], SeenAt(states, s.sight), states[i], s.ctx, s.call, s.env, s.picked);
    ServeSettles(states[s.read], SeenAt(states, s.sight), states[i], s.ctx, s.call.id, BodyOf(s.call), s.env);
  }

  /** A settlement that changes an order, in full. */
  lemma CommittedSettlement(states: seq<Db>, steps: seq<Step>, i: nat) returns (cents: int, fee: int)
    requires Run(states, steps) && i + 1 < |states| && i < |steps| && steps[i].Api? && IsSettlement(steps[i].call)
    requires states[i + 1].orders != states[i].orders && Within(steps[i].sight, |states|)
    ensures var s := steps[i]; var id, body := s.call.id, BodyOf(s.call);
      && id in states[i].orders && states[i].orders[id].tenant == s.ctx.tenant
      && states[i].orders[id].status in {Open, SentToKitchen, Delivered}
      && Bills(states[i].orders[id].items, s.ctx.role, CashierLimit(states[s.sight.limits], s.ctx.tenant),
               body, cents, fee)
      && SettlesAs(states[i], states[i + 1], ReplyAt(states, steps, i), s.ctx, id, body,
                   (s.ctx.tenant, Text.Trim(s.ctx.header.GetOr(""))), cents, fee, s.env.now)
  {
    hide Run, ReplyAt, Bills, SettlesAs, CashierLimit, AwaitsPix, Text.Trim;
    var s := steps[i];
    SettlementIsExact(states, steps, i);
    var seen, id, body := SeenAt(states, s.sight), s.call.id, BodyOf(s.call);
    var limit := CashierLimit(seen.limits, s.ctx.tenant);
    cents, fee :| Bills(seen.order.orders[id].items, s.ctx.role, limit, body, cents, fee) &&
      SettlesAs(states[i], states[i + 1], ReplyAt(states, steps, i), s.ctx, id, body,
          (s.ctx.tenant, Text.Trim(s.ctx.header.GetOr(""))), cents, fee, s.env.now);
  }

  /** The bill of every settlement is the one asked for: the discount in full, by percentage rounded half up
      or in cents, the rate of the fee or 10%, and both on the items as they are at commit. */
  lemma SettledBillIsAsked(states: seq<Db>, steps: seq<Step>, i: nat)
    requires Run(states, steps) && i + 1 < |states| && i < |steps| && steps[i].Api? && IsSettlement(steps[i].call)
    requires states[i + 1].orders != states[i].orders && Within(steps[i].sight, |states|)
    ensures steps[i].call.id in states[i].orders && steps[i].call.id in states[i + 1].orders
    ensures var d, body := BodyOf(steps[i].call).discount, BodyOf(steps[i].call);
      var b, due := states[i + 1].orders[steps[i].call.id].bill, Due(states[i].orders[steps[i].call.id].items);
      && b.subtotal == due && 0 <= b.discount <= due
      && (d.kind == Some(Percent) ==>
            d.value.Some? && 0 <= d.value.value <= 10000 &&
            10000 * b.discount <= due * d.value.value + 5000 < 10000 * b.discount + 10000)
      && (d.kind == Some(Fixed) && d.value.Some? ==> b.discount == d.value.value)
      && (d.kind != Some(Percent) && d.cents.Some? ==> b.discount == d.cents.value)
      && (d.kind.None? && d.cents.None? ==> b.discount == 0)
      && (steps[i].ctx.role == Cashier && due > 0 ==>
            b.discount * 10000 <= due * CashierLimit(states[steps[i].sight.limits], steps[i].ctx.tenant))
      && b.feeBps == (if body.feeBps.Some? then body.feeBps.value else 1000)
      && 10000 * b.fee <= (due - b.discount) * b.feeBps + 5000 < 10000 * b.fee + 10000
      && b.total == due - b.discount + b.fee && b.total == Paid(body.payments)
  {
    hide Run, ReplyAt, Theorems.SoldExactly, CashierLimit, Due, Paid, IsEnough;
    var cents, fee := CommittedSettlement(states, steps, i);
  }
}
