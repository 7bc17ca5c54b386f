/** Runs that show what can go wrong between a lookup and its transaction: each is built on any run in
    which the calls make sense, and such runs exist. */
module Races {
  import opened Outcomes
  import opened Financial
  import opened Schema
  import opened Handlers
  import opened Runs
  import opened Idempotency
  import opened Delivery
  import opened Retries
  import EndToEnd
  import Text

  /** A run in the making. */
  datatype Log = Log(states: seq<Db>, steps: seq<Step>) {
    predicate Valid() {
      Run(states, steps)
    }

    function Now(): Db
      requires Valid()
    {
      states[|states| - 1]
    }

    /** The call that reads the state as it is now. */
    function CallNow(ctx: Context, call: Call, env: Env): Step {
      Api(|steps|, AllAt(|steps|), ctx, call, env, "")
    }

    function ReplyOf(i: nat): Reply
      requires Valid() && i < |steps| && steps[i].Api?
    {
      ReplyAt(states, steps, i)
    }
  }

  predicate FreshEnv(db: Db, env: Env) {
    env.newId !in db.orders && env.newId !in db.charges
  }

  lemma Append(log: Log, s: Step) returns (next: Log)
    requires log.Valid() && Runs.Enabled(log.states, s)
    ensures next == Log(log.states + [Apply(log.states, s)], log.steps + [s]) && next.Valid()
    ensures s.Api? ==> next.ReplyOf(|log.steps|) == EndToEnd.ReplyTo(log.states, s)
    ensures forall i: nat :: i < |log.steps| && log.steps[i].Api? ==> next.ReplyOf(i) == log.ReplyOf(i)
  {
    next := Log(log.states + [Apply(log.states, s)], log.steps + [s]);
    RunExtends(log.states, log.steps, s);
    forall i: nat | i < |log.steps| && log.steps[i].Api? ensures next.ReplyOf(i) == log.ReplyOf(i) {
      assert StepsTo(log.states, log.steps[i], i);
    }
  }

  // ----- an added item answered 500 -----

  lemma ItemIsAdded(db: Db, ctx: Context, id: Id, body: AddItemBody)
    requires CanAddItem(db, db, ctx.tenant, id, body) && body.expected.None?
    requires ctx.header.Some? && ctx.header.value != "" && (ctx.tenant, ctx.header.value) !in db.keys
    ensures var (db', reply) := ServeAddItem(db, db, db, ctx, id, body);
      && reply.Answered?
      && (ctx.tenant, ctx.header.value) in db'.keys
      && (forall k :: k in db'.keys && k != (ctx.tenant, ctx.header.value) ==> k in db.keys)
      && db'.charges == db.charges && db'.products == db.products
      && db'.orders.Keys == db.orders.Keys && id in db.orders
      && db'.orders[id] == db.orders[id].(version := db.orders[id].version + 1, items := db'.orders[id].items)
      && db'.orders[id].items == db.orders[id].items + [ReadLine(db, ctx.tenant, body).value]
  {
  }

  /** Of two copies of one addition that both look their key up before either commits, the second one
      is answered with the duplicate. It takes no more than an item that can be added. */
  lemma EveryItemCanBeAnswered500(log: Log, ctx: Context, id: Id, body: AddItemBody, env: Env) returns (raced: Log)
    requires log.Valid() && FreshEnv(log.Now(), env) && ValidCall(AddItem(id, body))
    requires ctx.header.Some? && ctx.header.value != "" && (ctx.tenant, ctx.header.value) !in log.Now().keys
    requires CanAddItem(log.Now(), log.Now(), ctx.tenant, id, body) && body.expected.None?
    ensures raced.Valid() && raced.steps == log.steps +
            [log.CallNow(ctx, AddItem(id, body), env), log.CallNow(ctx, AddItem(id, body), env)]
    ensures raced.ReplyOf(|log.steps|).Answered? && raced.ReplyOf(|log.steps| + 1) == Refused(Duplicate)
  {
    var n, s, db := |log.steps|, log.CallNow(ctx, AddItem(id, body), env), log.Now();
    var first := Append(log, s);
    ItemIsAdded(db, ctx, id, body);
    raced := Append(first, s);
    assert first.states[n] == db && CanAddItem(db, first.Now(), ctx.tenant, id, body);
    KeyFacts(log.states, log.steps, n, n);
    AddItemDuplicate(db, db, first.Now(), ctx, id, body);
    assert raced.steps[n] == s;
  }

  // ----- an item answered with another order -----

  /** The fingerprint of an item does not name its order: sent again under the same key for any other
      order, existing or not, it is answered with the first order, and nothing is added. */
  lemma EveryItemCanAnswerAnotherOrder(log: Log, ctx: Context, id: Id, other: Id, body: AddItemBody, env: Env)
    returns (mixed: Log)
    requires log.Valid() && FreshEnv(log.Now(), env) && ValidCall(AddItem(id, body)) && other != id
    requires ctx.header.Some? && ctx.header.value != "" && (ctx.tenant, ctx.header.value) !in log.Now().keys
    requires CanAddItem(log.Now(), log.Now(), ctx.tenant, id, body) && body.expected.None?
    ensures mixed.Valid() && |mixed.steps| == |log.steps| + 2 && mixed.steps[|log.steps| + 1].Api?
    ensures var n := |log.steps|;
      && mixed.steps[n + 1].call == AddItem(other, body)
      && mixed.ReplyOf(n + 1).Answered? && mixed.ReplyOf(n + 1).response.OrderView?
      && mixed.ReplyOf(n + 1).response.id == id
      && mixed.states[n + 2] == mixed.states[n + 1]
  {
    var n, db := |log.steps|, log.Now();
    var first := Append(log, log.CallNow(ctx, AddItem(id, body), env));
    ItemIsAdded(db, ctx, id, body);
    KeyFacts(first.states, first.steps, n + 1, n + 1);
    ItemIsRemembered(db, ctx, id, body);
    SeenItemIsRecalled(first.Now(), first.Now(), first.Now(), ctx, other, body);
    mixed := Append(first, first.CallNow(ctx, AddItem(other, body), env));
    assert mixed.states[n + 1] == first.Now();
  }

  lemma ItemIsRemembered(db: Db, ctx: Context, id: Id, body: AddItemBody)
    requires CanAddItem(db, db, ctx.tenant, id, body) && body.expected.None?
    requires ctx.header.Some? && ctx.header.value != "" && (ctx.tenant, ctx.header.value) !in db.keys
    ensures var (db', reply) := ServeAddItem(db, db, db, ctx, id, body);
      && reply.Answered? && reply.response.OrderView? && reply.response.id == id
      && (ctx.tenant, ctx.header.value) in db'.keys
      && db'.keys[(ctx.tenant, ctx.header.value)] == KeyRow(Completed, OfItem(body), Some(reply.response))
  {
  }

  // ----- two answers to one status change -----

  /** A status change that finds its status reached answers the order as it stands, and stores nothing:
      sent again after an item was added, it answers another version under the same key. */
  lemma RetryCanShowAnotherVersion(log: Log, ctx: Context, id: Id, next: Status, env: Env,
                                   other: Context, body: AddItemBody) returns (retried: Log)
    requires log.Valid() && FreshEnv(log.Now(), env) && ValidCall(AddItem(id, body))
    requires Predecessor(next).Some? && Owned(log.Now(), ctx.tenant, id) && log.Now().orders[id].status == next
    requires ctx.header.Some? && ctx.header.value != "" && (ctx.tenant, ctx.header.value) !in log.Now().keys
    requires other.tenant == ctx.tenant && other.header.Some? && other.header.value != "" && other.header != ctx.header
    requires (ctx.tenant, other.header.value) !in log.Now().keys
    requires CanAddItem(log.Now(), log.Now(), ctx.tenant, id, body) && body.expected.None?
    ensures retried.Valid() && |retried.steps| == |log.steps| + 3
    ensures retried.steps[|log.steps|].Api? && retried.steps[|log.steps| + 2].Api?
    ensures var n := |log.steps|;
      && retried.steps[n].ctx == retried.steps[n + 2].ctx == ctx
      && retried.steps[n].call == retried.steps[n + 2].call == UpdateStatus(id, StatusBody(next, None))
      && retried.ReplyOf(n).Answered? && retried.ReplyOf(n + 2).Answered?
      && retried.ReplyOf(n).response != retried.ReplyOf(n + 2).response
  {
    hide ServeAddItem, ServeStatus;
    var n, db, call := |log.steps|, log.Now(), UpdateStatus(id, StatusBody(next, None));
    IdleChange(db, ctx, id, next);
    var first := Append(log, log.CallNow(ctx, call, env));
    assert first.Now() == db;
    var grown := Append(first, first.CallNow(other, AddItem(id, body), env));
    ItemKeepsIdle(db, ctx, id, next, other, body);
    var db' := grown.Now();
    retried := Append(grown, grown.CallNow(ctx, call, env));
    assert retried.ReplyOf(n) == grown.ReplyOf(n) == first.ReplyOf(n);
  }

  /** An item under another key leaves the change idle, and its order in another version. */
  lemma ItemKeepsIdle(db: Db, ctx: Context, id: Id, next: Status, other: Context, body: AddItemBody)
    requires Predecessor(next).Some? && Owned(db, ctx.tenant, id) && db.orders[id].status == next
    requires ctx.header.Some? && (ctx.tenant, ctx.header.value) !in db.keys
    requires other.tenant == ctx.tenant && other.header.Some? && other.header.value != "" && other.header != ctx.header
    requires (ctx.tenant, other.header.value) !in db.keys
    requires CanAddItem(db, db, ctx.tenant, id, body) && body.expected.None?
    ensures var db' := ServeAddItem(db, db, db, other, id, body).0;
      && db'.orders.Keys == db.orders.Keys && db'.charges == db.charges
      && id in db'.orders && db'.orders[id].version == db.orders[id].version + 1
      && ServeStatus(db', db', ctx, id, StatusBody(next, None)) ==
           (db', Answered(OrderView(id, db'.orders[id]), false))
  {
    ItemIsAdded(db, other, id, body);
    IdleChange(ServeAddItem(db, db, db, other, id, body).0, ctx, id, next);
  }

  lemma IdleChange(db: Db, ctx: Context, id: Id, next: Status)
    requires Predecessor(next).Some? && Owned(db, ctx.tenant, id) && db.orders[id].status == next &&
             !PendingCharge(db, id)
    requires ctx.header.Some? && (ctx.tenant, ctx.header.value) !in db.keys
    ensures ServeStatus(db, db, ctx, id, StatusBody(next, None)) == (db, Answered(OrderView(id, db.orders[id]), false))
  {
  }

  // ----- a paid charge that shows another status -----

  /** A pending charge whose amount is still the bill of its open order. */
  predicate IsPayable(db: Db, c: Id) {
    && c in db.charges && db.charges[c].status == Pending
    && var charge := db.charges[c];
    && charge.order in db.orders && Active(db.orders[charge.order].status)
    && var totals := CalculateBillTotals(Subtotal(db.orders[charge.order].items), charge.discount, charge.feeBps);
    && totals.Ok? && totals.value.total == charge.amount
  }

  lemma PaymentCloses(db: Db, c: Id, now: Time)
    requires IsPayable(db, c)
    ensures var db' := ServeHook(db, db, Hook(db.charges[c].provider, db.charges[c].txid, Paid, None), c, now).0;
      && c in db'.charges && db'.charges[c] == db.charges[c].(status := Paid)
      && db.charges[c].order in db'.orders && db'.orders[db.charges[c].order].status == Closed
  {
  }

  /** Any payable charge can be paid and then shown as expired, by a notification that had looked it up
      before it was paid. */
  lemma PaidChargeCanShowExpired(log: Log, c: Id, now: Time) returns (late: Log)
    requires log.Valid() && IsPayable(log.Now(), c)
    ensures late.Valid() && |late.steps| == |log.steps| + 2
    ensures var n := |log.steps|;
      && c in late.states[n + 1].charges && late.states[n + 1].charges[c].status == Paid
      && c in late.Now().charges && late.Now().charges[c].status == Expired
      && log.Now().charges[c].order in late.Now().orders &&
          late.Now().orders[log.Now().charges[c].order].status == Closed
  {
    var n, db := |log.steps|, log.Now();
    var charge := db.charges[c];
    var paid := Append(log, Webhook(n, Hook(charge.provider, charge.txid, Paid, None), c, now));
    PaymentCloses(db, c, now);
    assert paid.states[n] == db;
    late := Append(paid, Webhook(n, Hook(charge.provider, charge.txid, Expired, None), c, now));
  }

  // ----- such runs exist -----

  const TENANT: Id := "t"
  const ITEM: AddItemBody := AddItemBody(None, Some("x"), 1, Some(100), None)

  function As(key: string): Context {
    Context(TENANT, None, Manager, Some(key))
  }

  const ORDER_ENV: Env := Env("o", 0, "", "")
  const CHARGE_ENV: Env := Env("c", 0, "p", "tx")

  lemma ItemCanBeAdded(db: Db)
    requires Owned(db, TENANT, "o") && db.orders["o"].status != Closed && !PendingCharge(db, "o")
    ensures CanAddItem(db, db, TENANT, "o", ITEM)
    ensures ReadLine(db, TENANT, ITEM) == Ok(Item(None, "x", 1, 100, 0))
  {
    assert Text.TrimLeft("x") == "x" && Text.TrimRight("x") == "x";
  }

  lemma OpenOrderExists() returns (log: Log)
    ensures log.Valid() && Owned(log.Now(), TENANT, "o") && log.Now().orders["o"].status == Open
    ensures log.Now().orders["o"].items == [] && log.Now().charges == map[] && log.Now().orders.Keys == {"o"}
    ensures forall k :: k in log.Now().keys ==> k == (TENANT, "create")
  {
    var db := Db(map[], map[], map[], map[], map[], [], map[]);
    var start, body := Log([db], []), CreateBody(None, Some(QuickSale), None);
    assert Text.TrimLeft("create") == "create" && Text.TrimRight("create") == "create";
    log := Append(start, start.CallNow(As("create"), CreateOrder(body), ORDER_ENV));
  }

  lemma SomeItemIsAnswered500()
    ensures exists log: Log, i: nat ::
      log.Valid() && i < |log.steps| && log.steps[i].Api? && log.steps[i].call.AddItem? &&
          log.ReplyOf(i) == Refused(Duplicate)
  {
    var log := OpenOrderExists();
    ItemCanBeAdded(log.Now());
    var raced := EveryItemCanBeAnswered500(log, As("item"), "o", ITEM, CHARGE_ENV);
    assert raced.steps[|log.steps| + 1].call.AddItem?;
  }

  lemma SomeAnswerShowsAnotherOrder()
    ensures exists log: Log, i: nat ::
      && log.Valid() && i < |log.steps| && log.steps[i].Api? && log.steps[i].call.AddItem?
      && log.ReplyOf(i).Answered? && log.ReplyOf(i).response.OrderView?
      && log.ReplyOf(i).response.id != log.steps[i].call.id
  {
    var log := OpenOrderExists();
    ItemCanBeAdded(log.Now());
    var mixed := EveryItemCanAnswerAnotherOrder(log, As("item"), "o", "p", ITEM, CHARGE_ENV);
    assert mixed.steps[|log.steps| + 1].call.AddItem?;
  }

  lemma SentOrderExists() returns (log: Log)
    ensures log.Valid() && Owned(log.Now(), TENANT, "o") && log.Now().orders["o"].status == SentToKitchen
    ensures log.Now().charges == map[] && log.Now().orders.Keys == {"o"}
    ensures forall k :: k in log.Now().keys ==> k.1 == "create" || k.1 == "send"
  {
    var open := OpenOrderExists();
    var call := UpdateStatus("o", StatusBody(SentToKitchen, None));
    log := Append(open, open.CallNow(As("send"), call, CHARGE_ENV));
  }

  lemma SomeRetryShowsAnotherVersion()
    ensures exists log: Log, i: nat, j: nat ::
      && log.Valid() && i < j < |log.steps| && log.steps[i].Api? && log.steps[j].Api?
      && log.steps[i].ctx == log.steps[j].ctx && log.steps[i].call == log.steps[j].call
      && log.ReplyOf(i).Answered? && log.ReplyOf(j).Answered? && log.ReplyOf(i).response != log.ReplyOf(j).response
  {
    var log := SentOrderExists();
    ItemCanBeAdded(log.Now());
    var retried := RetryCanShowAnotherVersion(log, As("again"), "o", SentToKitchen, CHARGE_ENV, As("item"), ITEM);
    assert retried.steps[|log.steps|].ctx == retried.steps[|log.steps| + 2].ctx;
  }

  lemma FilledOrderExists() returns (log: Log)
    ensures log.Valid() && Owned(log.Now(), TENANT, "o") && log.Now().orders["o"].status == Open
    ensures log.Now().charges == map[] && log.Now().orders.Keys == {"o"}
    ensures log.Now().orders["o"].items == [Item(None, "x", 1, 100, 0)]
  {
    var open := OpenOrderExists();
    ItemCanBeAdded(open.Now());
    ItemIsAdded(open.Now(), As("item"), "o", ITEM);
    log := Append(open, open.CallNow(As("item"), AddItem("o", ITEM), CHARGE_ENV));
  }

  lemma ChargeIsMade(db: Db)
    requires Owned(db, TENANT, "o") && db.orders["o"].status == Open && db.charges == map[]
    requires db.orders["o"].items == [Item(None, "x", 1, 100, 0)]
    ensures var db' := ServeCharge(db, db, As("charge"), ChargeBody("o", DiscountBody(None, None, None), None, None),
            CHARGE_ENV, "").0;
      db'.orders == db.orders && IsPayable(db', "c")
  {
    var items := db.orders["o"].items;
    assert items[..0] == [] && Subtotal(items) == 100;
  }

  lemma PayableChargeExists() returns (log: Log)
    ensures log.Valid() && IsPayable(log.Now(), "c")
  {
    var filled := FilledOrderExists();
    ChargeIsMade(filled.Now());
    var body := ChargeBody("o", DiscountBody(None, None, None), None, None);
    log := Append(filled, filled.CallNow(As("charge"), CreateCharge(body), CHARGE_ENV));
  }

  lemma SomePaidChargeShowsExpired()
    ensures exists log: Log, i: nat, c ::
      && log.Valid() && i < |log.states| && c in log.states[i].charges && log.states[i].charges[c].status == Paid
      && c in log.Now().charges && log.Now().charges[c].status == Expired
  {
    var log := PayableChargeExists();
    var late := PaidChargeCanShowExpired(log, "c", 0);
    assert "c" in late.states[|log.steps| + 1].charges;
  }
}
