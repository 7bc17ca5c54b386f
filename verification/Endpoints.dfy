/** What the endpoints that write an order answer and do, case by case, in every step of every run:
    the conditions and values of the API, written out. */
module Endpoints {
  import opened Outcomes
  import opened Schema
  import opened Handlers
  import opened Integrity
  import opened Progress
  import opened Runs
  import opened Idempotency
  import Text

  // ----- the three ways a request ends -----

  predicate Rejects(db: Db, db': Db, reply: Reply, error: Error) {
    db' == db && reply == Refused(error)
  }

  /** A known key answers its row, and to another request the key conflict. */
  predicate Replays(db: Db, db': Db, reply: Reply, row: KeyRow, hash: Fingerprint) {
    && db' == db
    && row.response.Some?
    && reply == (if row.hash == hash then Answered(row.response.value, true) else Refused(KeyReused))
  }

  /** The response is answered and, if the request has a key, stored under it. */
  predicate Commits(after: Db, db': Db, reply: Reply, response: Response, key: Option<Key>, hash: Fingerprint) {
    && reply == Answered(response, false)
    && db' == (if key.Some? then
                 after.(keys := after.keys[key.value := KeyRow(Completed, hash, Some(response))])
               else
                 after)
  }

  /** The key of an endpoint that uses the header as sent. */
  function RawKey(ctx: Context): Option<Key> {
    if ctx.header.None? || ctx.header.value == "" then None else Some((ctx.tenant, ctx.header.value))
  }

  /** A step in terms of the states that its reads saw. */
  lemma StepServes(states: seq<Db>, steps: seq<Step>, i: nat)
    requires Run(states, steps) && i + 1 < |states| && i < |steps| && steps[i].Api?
    ensures var s := steps[i];
      && s.read <= i && Within(s.sight, i + 1) && ValidCall(s.call) && s.env.newId !in states[i].orders
      && s.env.newId !in states[i].charges
      && (states[i + 1], ReplyAt(states, steps, i)) ==
           Serve(states[s.read], SeenAt(states, s.sight), states[i], s.ctx, s.call, s.env, s.picked)
  {
    assert StepsTo(states, steps[i], i);
  }

  /** A charge of the order awaits its payment. */
  predicate AwaitsPix(db: Db, order: Id) {
    exists c :: c in db.charges && db.charges[c].order == order && db.charges[c].status == Pending
  }

  // ----- createOrder -----

  /** The order opened: its table is the one asked for at table service and none otherwise; its label is
      the one given, or else that of the table or of the kind of order. */
  function Opened(look: Db, ctx: Context, body: CreateBody, seated: bool): Order
    requires seated ==> body.table.Some? && body.table.value in look.tables
  {
    var orderType, caption := body.orderType.GetOr(TableService), Text.Trim(body.tableLabel.GetOr(""));
    Order(ctx.tenant, if seated then body.table else None,
          if caption != "" then caption
          else if seated then look.tables[body.table.value].tableLabel
          else match orderType
               case TableService => ""
               case QuickSale => "Venda rápida"
               case Takeaway => "Retirada"
               case Delivery => "Delivery",
          orderType, Open, 1, [], [], [HistoryRow(None, Open, ctx.user)],
          Bill(0, 0, 1000, 0, 0, None, None, None, None, None))
  }

  /** An active order of the tenant is at the table. */
  predicate IsTaken(db: Db, tenant: Id, table: Id) {
    exists id :: id in db.orders && db.orders[id].tenant == tenant && db.orders[id].table == Some(table) &&
                 db.orders[id].status in {Open, SentToKitchen, Delivered}
  }

  predicate Creates(look: Db, db: Db, db': Db, reply: Reply, ctx: Context, body: CreateBody, newId: Id) {
    var served := body.orderType.GetOr(TableService) == TableService;
    var seated := served && body.table.Some? && body.table.value != "";
    var header, hash := Text.Trim(ctx.header.GetOr("")), OfCall(ctx.tenant, ctx.user, CreateOrder(body));
    var key := (ctx.tenant, header);
    if served && !seated && Text.Trim(body.tableLabel.GetOr("")) == "" then
      Rejects(db, db', reply, BadRequest)
    else if seated && !(body.table.value in look.tables && look.tables[body.table.value].tenant == ctx.tenant &&
                        look.tables[body.table.value].active) then
      Rejects(db, db', reply, NotFound)
    else if header == "" then
      Rejects(db, db', reply, BadRequest)
    else if key in db.keys then
      Replays(db, db', reply, db.keys[key], hash)
    else if seated && IsTaken(db, ctx.tenant, body.table.value) then
      Rejects(db, db', reply, Conflict)
    else
      var order := Opened(look, ctx, body, seated);
      Commits(db.(orders := db.orders[newId := order]), db', reply, OrderView(newId, order), Some(key), hash)
  }

  lemma OccupiedIsTaken(db: Db, tenant: Id, table: Id)
    ensures Occupied(db, tenant, table, None) <==> IsTaken(db, tenant, table)
  {
    forall id | id in db.orders
      ensures Holds(db.orders[id], tenant, table) <==>
              db.orders[id].tenant == tenant && db.orders[id].table == Some(table) &&
              db.orders[id].status in {Open, SentToKitchen, Delivered}
    {
    }
  }

  lemma ServeCreates(read: Db, look: Db, db: Db, ctx: Context, body: CreateBody, env: Env)
    requires KeysCompleted(db.keys) && KeysLater(read.keys, db.keys)
    ensures var (db', reply) := ServeCreate(read, look, db, ctx, body, env);
      Creates(look, db, db', reply, ctx, body, env.newId)
  {
    hide ReadSeat, CreateTx, Opened, IsTaken, Text.Trim, KeysLater;
    var seat := ReadSeat(look, ctx.tenant, body);
    SeatIsRead(look, ctx.tenant, body);
    if seat.Ok? {
      OrderIsOpened(look, db, ctx, body, env.newId);
      if Text.Trim(ctx.header.GetOr("")) != "" {
        KeyIsLooked(read, db, ctx, body, CreateTx(db, ctx, seat.value, env.newId));
      }
    }
  }

  /** The seat read, if the request is in order. */
  lemma SeatIsRead(look: Db, tenant: Id, body: CreateBody)
    ensures var served := body.orderType.GetOr(TableService) == TableService;
      var seated := served && body.table.Some? && body.table.value != "";
      var r := ReadSeat(look, tenant, body);
      if served && !seated && Text.Trim(body.tableLabel.GetOr("")) == "" then
        r == Fail(BadRequest)
      else if seated && !(body.table.value in look.tables && look.tables[body.table.value].tenant == tenant &&
                          look.tables[body.table.value].active) then
        r == Fail(NotFound)
      else
        r.Ok?
  {
    hide Text.Trim;
  }

  lemma OrderIsOpened(look: Db, db: Db, ctx: Context, body: CreateBody, newId: Id)
    requires ReadSeat(look, ctx.tenant, body).Ok?
    ensures var served := body.orderType.GetOr(TableService) == TableService;
      var seated := served && body.table.Some? && body.table.value != "";
      && (seated ==> body.table.value in look.tables)
      && CreateTx(db, ctx, ReadSeat(look, ctx.tenant, body).value, newId) ==
           if seated && IsTaken(db, ctx.tenant, body.table.value) then Abort(Conflict)
           else Commit(db.(orders := db.orders[newId := Opened(look, ctx, body, seated)]),
                       OrderView(newId, Opened(look, ctx, body, seated)))
  {
    hide Text.Trim, Occupied, IsTaken;
    if body.table.Some? {
      OccupiedIsTaken(db, ctx.tenant, body.table.value);
    }
  }

  lemma KeyIsLooked(read: Db, db: Db, ctx: Context, body: CreateBody, tx: TxResult)
    requires KeysCompleted(db.keys) && KeysLater(read.keys, db.keys) && Text.Trim(ctx.header.GetOr("")) != ""
    ensures var key := (ctx.tenant, Text.Trim(ctx.header.GetOr("")));
      var hash := OfCall(ctx.tenant, ctx.user, CreateOrder(body));
      var (db', reply) := ExecuteIdempotent(read, db, ctx, hash, tx);
      if key in db.keys then
        Replays(db, db', reply, db.keys[key], hash)
      else
        match tx
        case Commit(after, response) => Commits(after, db', reply, response, Some(key), hash)
        case Unchanged(response) => Commits(db, db', reply, response, Some(key), hash)
        case Abort(error) => Rejects(db, db', reply, error)
  {
    hide Text.Trim;
  }

  /** createOrder, exactly. */
  lemma CreationIsExact(states: seq<Db>, steps: seq<Step>, i: nat)
    requires Run(states, steps) && i + 1 < |states| && i < |steps| && steps[i].Api? && steps[i].call.CreateOrder?
    requires steps[i].sight.look < |states|
    ensures Creates(states[steps[i].sight.look], states[i], states[i + 1], ReplyAt(states, steps, i),
                    steps[i].ctx, steps[i].call.create, steps[i].env.newId)
  {
    hide Run, ReplyAt, KeysCompleted, KeysLater, Creates, ServeCreate;
    var s := steps[i];
    StepServes(states, steps, i);
    KeyFacts(states, steps, s.read, i);
    ServeCreates(states[s.read], states[s.sight.look], states[i], s.ctx, s.call.create, s.env);
  }

  // ----- addItem -----

  /** The line added: name, price and cost are the product's, or the request's own without a product. */
  function Line(look: Db, body: AddItemBody, linked: bool): Item
    requires if linked then body.product.Some? && body.product.value in look.products else body.price.Some?
  {
    if linked then
      var p := look.products[body.product.value];
      Item(body.product, p.name, body.quantity, p.price, p.cost)
    else
      Item(None, Text.Trim(body.name.GetOr("")), body.quantity, body.price.value, 0)
  }

  predicate AddsItem(read: Db, look: Db, db: Db, db': Db, reply: Reply, ctx: Context, id: Id, body: AddItemBody) {
    var key, linked := RawKey(ctx), body.product.Some? && Text.Trim(body.product.value) != "";
    if key.Some? && key.value in read.keys then
      Replays(db, db', reply, read.keys[key.value], OfItem(body))
    else if linked && !(body.product.value in look.products &&
                        look.products[body.product.value].tenant == ctx.tenant) then
      Rejects(db, db', reply, NotFound)
    else if linked && !(look.products[body.product.value].active && look.products[body.product.value].available &&
                        look.products[body.product.value].name != "") then
      Rejects(db, db', reply, BadRequest)
    else if !linked && (Text.Trim(body.name.GetOr("")) == "" || body.price.None?) then
      Rejects(db, db', reply, BadRequest)
    else if AwaitsPix(db, id) then
      Rejects(db, db', reply, Conflict)
    else if id !in db.orders || db.orders[id].tenant != ctx.tenant then
      Rejects(db, db', reply, NotFound)
    else if db.orders[id].status == Closed then
      Rejects(db, db', reply, BadRequest)
    else if body.expected.Some? && body.expected.value != db.orders[id].version then
      Rejects(db, db', reply, Conflict)
    else if key.Some? && key.value in db.keys then
      Rejects(db, db', reply, Duplicate)
    else
      var order := db.orders[id].(version := db.orders[id].version + 1,
                                  items := db.orders[id].items + [Line(look, body, linked)]);
      Commits(db.(orders := db.orders[id := order]), db', reply, OrderView(id, order), key, OfItem(body))
  }

  lemma LineIsRead(look: Db, tenant: Id, body: AddItemBody)
    ensures var linked := body.product.Some? && Text.Trim(body.product.value) != "";
      ReadLine(look, tenant, body) ==
      if linked && !(body.product.value in look.products && look.products[body.product.value].tenant == tenant) then
        Fail(NotFound)
      else if linked && !(look.products[body.product.value].active && look.products[body.product.value].available &&
                          look.products[body.product.value].name != "") then
        Fail(BadRequest)
      else if !linked && (Text.Trim(body.name.GetOr("")) == "" || body.price.None?) then
        Fail(BadRequest)
      else
        Ok(Line(look, body, linked))
  {
    hide Text.Trim;
  }

  lemma ItemTxIs(db: Db, ctx: Context, id: Id, expected: Option<int>, line: Item)
    ensures AddItemTx(db, ctx, id, expected, line) ==
      if AwaitsPix(db, id) then Abort(Conflict)
      else if id !in db.orders || db.orders[id].tenant != ctx.tenant then Abort(NotFound)
      else if db.orders[id].status == Closed then Abort(BadRequest)
      else if expected.Some? && expected.value != db.orders[id].version then Abort(Conflict)
      else
        var order := db.orders[id].(version := db.orders[id].version + 1, items := db.orders[id].items + [line]);
        Commit(db.(orders := db.orders[id := order]), OrderView(id, order))
  {
  }

  lemma ServeAddsItem(read: Db, look: Db, db: Db, ctx: Context, id: Id, body: AddItemBody)
    requires KeysCompleted(read.keys)
    ensures var (db', reply) := ServeAddItem(read, look, db, ctx, id, body);
      AddsItem(read, look, db, db', reply, ctx, id, body)
  {
    hide ReadLine, AddItemTx, Line, AwaitsPix, Text.Trim;
    LineIsRead(look, ctx.tenant, body);
    var line := ReadLine(look, ctx.tenant, body);
    if line.Ok? {
      ItemTxIs(db, ctx, id, body.expected, line.value);
    }
  }

  /** addItem, exactly. */
  lemma AdditionIsExact(states: seq<Db>, steps: seq<Step>, i: nat)
    requires Run(states, steps) && i + 1 < |states| && i < |steps| && steps[i].Api? && steps[i].call.AddItem?
    requires steps[i].read < |states| && steps[i].sight.look < |states|
    ensures AddsItem(states[steps[i].read], states[steps[i].sight.look], states[i], states[i + 1],
                     ReplyAt(states, steps, i), steps[i].ctx, steps[i].call.id, steps[i].call.item)
  {
    hide Run, ReplyAt, KeysCompleted, KeysLater, AddsItem, ServeAddItem;
    var s := steps[i];
    StepServes(states, steps, i);
    KeyFacts(states, steps, s.read, s.read);
    ServeAddsItem(states[s.read], states[s.sight.look], states[i], s.ctx, s.call.id, s.call.item);
  }

  // ----- updateOrderStatus -----

  /** The two steps of the kitchen: sending an open order, delivering a sent one. */
  predicate IsNextStep(from: Status, to: Status) {
    (from == Open && to == SentToKitchen) || (from == SentToKitchen && to == Delivered)
  }

  predicate ChangesStatus(read: Db, db: Db, db': Db, reply: Reply, ctx: Context, id: Id, body: StatusBody) {
    var key := RawKey(ctx);
    if key.Some? && key.value in read.keys then
      Replays(db, db', reply, read.keys[key.value], OfStatus(body))
    else if body.status != SentToKitchen && body.status != Delivered then
      Rejects(db, db', reply, BadRequest)
    else if AwaitsPix(db, id) then
      Rejects(db, db', reply, Conflict)
    else if id !in db.orders || db.orders[id].tenant != ctx.tenant then
      Rejects(db, db', reply, NotFound)
    else
      var order := db.orders[id];
      if IsNextStep(order.status, body.status) && (body.expected.Some? ==> body.expected.value == order.version) then
        if key.Some? && key.value in db.keys then
          Rejects(db, db', reply, Duplicate)
        else
          var order' := order.(status := body.status, version := order.version + 1,
                               history := order.history + [HistoryRow(Some(order.status), body.status, ctx.user)]);
          Commits(db.(orders := db.orders[id := order']), db', reply, OrderView(id, order'), key, OfStatus(body))
      else if order.status == body.status then
        db' == db && reply == Answered(OrderView(id, order), false)
      else
        Rejects(db, db', reply, Conflict)
  }

  lemma ServeChangesStatus(read: Db, db: Db, ctx: Context, id: Id, body: StatusBody)
    requires KeysCompleted(read.keys)
    ensures var (db', reply) := ServeStatus(read, db, ctx, id, body);
      ChangesStatus(read, db, db', reply, ctx, id, body)
  {
    hide UpdateStatusTx, AwaitsPix;
    var from := Predecessor(body.status);
    if from.Some? {
      StatusTxIs(db, ctx, id, from.value, body);
    }
  }

  lemma StatusTxIs(db: Db, ctx: Context, id: Id, from: Status, body: StatusBody)
    ensures UpdateStatusTx(db, ctx, id, from, body) ==
      if AwaitsPix(db, id) then Abort(Conflict)
      else if id !in db.orders || db.orders[id].tenant != ctx.tenant then Abort(NotFound)
      else
        var order := db.orders[id];
        if order.status == from && (body.expected.Some? ==> body.expected.value == order.version) then
          var order' := order.(status := body.status, version := order.version + 1,
                               history := order.history + [HistoryRow(Some(from), body.status, ctx.user)]);
          Commit(db.(orders := db.orders[id := order']), OrderView(id, order'))
        else if order.status == body.status then Unchanged(OrderView(id, order))
        else Abort(Conflict)
  {
  }

  /** updateOrderStatus, exactly. */
  lemma StatusChangeIsExact(states: seq<Db>, steps: seq<Step>, i: nat)
    requires Run(states, steps) && i + 1 < |states| && i < |steps| && steps[i].Api? && steps[i].call.UpdateStatus?
    requires steps[i].read < |states|
    ensures ChangesStatus(states[steps[i].read], states[i], states[i + 1], ReplyAt(states, steps, i),
                          steps[i].ctx, steps[i].call.id, steps[i].call.next)
  {
    hide Run, ReplyAt, KeysCompleted, KeysLater, ChangesStatus, ServeStatus;
    var s := steps[i];
    StepServes(states, steps, i);
    KeyFacts(states, steps, s.read, s.read);
    ServeChangesStatus(states[s.read], states[i], s.ctx, s.call.id, s.call.next);
  }

  // ----- closeOrder without payments, transferTable -----

  predicate Closes(read: Db, db: Db, db': Db, reply: Reply, ctx: Context, id: Id, body: SettleBody) {
    var key := RawKey(ctx);
    if key.Some? && key.value in read.keys then
      Replays(db, db', reply, read.keys[key.value], OfClose(body))
    else if id !in db.orders || db.orders[id].tenant != ctx.tenant then
      Rejects(db, db', reply, NotFound)
    else
      var order := db.orders[id];
      if order.status == Closed then
        db' == db && reply == Answered(OrderView(id, order), false)
      else if order.status == Canceled then
        Rejects(db, db', reply, BadRequest)
      else if body.expected.Some? && body.expected.value != order.version then
        Rejects(db, db', reply, Conflict)
      else if key.Some? && key.value in db.keys then
        Rejects(db, db', reply, Duplicate)
      else
        var order' := order.(status := Closed, version := order.version + 1, table := None,
                             history := order.history + [HistoryRow(None, Closed, ctx.user)]);
        Commits(db.(orders := db.orders[id := order']), db', reply, OrderView(id, order'), key, OfClose(body))
  }

  lemma ServeCloses(read: Db, db: Db, ctx: Context, id: Id, body: SettleBody)
    requires KeysCompleted(read.keys)
    ensures var (db', reply) := CheckAndSave(read, db, ctx, OfClose(body), CloseTx(db, ctx, id, body.expected));
      Closes(read, db, db', reply, ctx, id, body)
  {
  }

  /** closeOrder without payments, exactly: no bill, no stock, no check of a pending Pix charge. */
  lemma PlainCloseIsExact(states: seq<Db>, steps: seq<Step>, i: nat)
    requires Run(states, steps) && i + 1 < |states| && i < |steps| && steps[i].Api? && steps[i].call.CloseOrder?
    requires steps[i].call.close.payments == [] && steps[i].read < |states|
    ensures Closes(states[steps[i].read], states[i], states[i + 1], ReplyAt(states, steps, i),
                   steps[i].ctx, steps[i].call.id, steps[i].call.close)
  {
    hide Run, ReplyAt, KeysCompleted, KeysLater, Closes, CheckAndSave, CloseTx;
    var s := steps[i];
    StepServes(states, steps, i);
    KeyFacts(states, steps, s.read, s.read);
    ServeCloses(states[s.read], states[i], s.ctx, s.call.id, s.call.close);
  }

  /** Another active order of the tenant is at the table. */
  predicate IsTakenByAnother(db: Db, tenant: Id, table: Id, id: Id) {
    exists o :: o in db.orders && o != id && db.orders[o].tenant == tenant && db.orders[o].table == Some(table) &&
                db.orders[o].status in {Open, SentToKitchen, Delivered}
  }

  predicate Moves(db: Db, db': Db, reply: Reply, ctx: Context, id: Id, target: Id) {
    if target == "" then
      Rejects(db, db', reply, BadRequest)
    else if id !in db.orders || db.orders[id].tenant != ctx.tenant then
      Rejects(db, db', reply, NotFound)
    else if db.orders[id].status == Closed || db.orders[id].status == Canceled then
      Rejects(db, db', reply, BadRequest)
    else if target !in db.tables || db.tables[target].tenant != ctx.tenant || !db.tables[target].active then
      Rejects(db, db', reply, NotFound)
    else if IsTakenByAnother(db, ctx.tenant, target, id) then
      Rejects(db, db', reply, Conflict)
    else
      var order := db.orders[id].(table := Some(target), tableLabel := db.tables[target].tableLabel,
                                  version := db.orders[id].version + 1);
      db' == db.(orders := db.orders[id := order]) && reply == Answered(OrderView(id, order), false)
  }

  lemma OccupiedByAnother(db: Db, tenant: Id, table: Id, id: Id)
    ensures Occupied(db, tenant, table, Some(id)) <==> IsTakenByAnother(db, tenant, table, id)
  {
    forall o | o in db.orders
      ensures Holds(db.orders[o], tenant, table) <==>
              db.orders[o].tenant == tenant && db.orders[o].table == Some(table) &&
              db.orders[o].status in {Open, SentToKitchen, Delivered}
    {
    }
  }

  lemma ServeMoves(db: Db, ctx: Context, id: Id, target: Id)
    ensures var (db', reply) := ServeTransfer(db, ctx, id, target);
      Moves(db, db', reply, ctx, id, target)
  {
    OccupiedByAnother(db, ctx.tenant, target, id);
  }

  /** transferTable, exactly: whatever key it carries, the order is at the target afterwards. */
  lemma TransferIsExact(states: seq<Db>, steps: seq<Step>, i: nat)
    requires Run(states, steps) && i + 1 < |states| && i < |steps| && steps[i].Api? && steps[i].call.TransferTable?
    ensures Moves(states[i], states[i + 1], ReplyAt(states, steps, i), steps[i].ctx, steps[i].call.id,
                  steps[i].call.target)
  {
    hide Run, ReplyAt, Moves, ServeTransfer;
    var s := steps[i];
    StepServes(states, steps, i);
    ServeMoves(states[i], s.ctx, s.call.id, s.call.target);
  }

  /** No order but `id` has come to the table. */
  predicate NobodyCame(db: Db, db': Db, tenant: Id, table: Id, id: Id) {
    forall o :: o in db'.orders && o != id && db'.orders[o].tenant == tenant && db'.orders[o].table == Some(table) ==>
      o in db.orders && db.orders[o].table == Some(table)
  }

  /** While an active order of the tenant is at a table, no creation and no transfer puts another one there. */
  lemma TakenTableStaysTaken(states: seq<Db>, steps: seq<Step>, i: nat, table: Id, id: Id)
    requires Run(states, steps) && i + 1 < |states| && i < |steps| && steps[i].Api?
    requires steps[i].call.CreateOrder? || steps[i].call.TransferTable?
    requires steps[i].sight.look < |states|
    requires id in states[i].orders && states[i].orders[id].tenant == steps[i].ctx.tenant
    requires states[i].orders[id].table == Some(table)
    requires states[i].orders[id].status in {Open, SentToKitchen, Delivered}
    ensures NobodyCame(states[i], states[i + 1], steps[i].ctx.tenant, table, id)
  {
    hide Run, ReplyAt, Creates, Moves;
    var s := steps[i];
    if s.call.CreateOrder? {
      CreationIsExact(states, steps, i);
      CreationTakesNoTakenTable(states[s.sight.look], states[i], states[i + 1], ReplyAt(states, steps, i), s.ctx,
          s.call.create, s.env.newId, table, id);
    } else {
      TransferIsExact(states, steps, i);
      TransferTakesNoTakenTable(states[i], states[i + 1], ReplyAt(states, steps, i), s.ctx, s.call.id, s.call.target,
          table, id);
    }
  }

  lemma OpenedAtTheTableAsked(look: Db, ctx: Context, body: CreateBody)
    ensures Opened(look, ctx, body, false).table.None?
    ensures body.table.Some? && body.table.value in look.tables ==> Opened(look, ctx, body, true).table == body.table
  {
  }

  lemma CreationOpensAtFreeTable(look: Db, db: Db, db': Db, reply: Reply, ctx: Context, body: CreateBody, newId: Id)
    requires Creates(look, db, db', reply, ctx, body, newId) && db'.orders != db.orders
    ensures newId in db'.orders && db'.orders == db.orders[newId := db'.orders[newId]]
    ensures db'.orders[newId].table.Some? ==> !IsTaken(db, ctx.tenant, db'.orders[newId].table.value)
  {
    hide IsTaken, Text.Trim, Opened;
    OpenedAtTheTableAsked(look, ctx, body);
  }

  lemma CreationTakesNoTakenTable(look: Db, db: Db, db': Db, reply: Reply, ctx: Context, body: CreateBody, newId: Id,
      table: Id, id: Id)
    requires Creates(look, db, db', reply, ctx, body, newId) && id in db.orders && db.orders[id].tenant == ctx.tenant
    requires db.orders[id].table == Some(table) && db.orders[id].status in {Open, SentToKitchen, Delivered}
    ensures NobodyCame(db, db', ctx.tenant, table, id)
  {
    hide Creates;
    assert IsTaken(db, ctx.tenant, table);
    if db'.orders != db.orders {
      CreationOpensAtFreeTable(look, db, db', reply, ctx, body, newId);
    }
  }

  lemma TransferTakesNoTakenTable(db: Db, db': Db, reply: Reply, ctx: Context, moved: Id, target: Id, table: Id, id: Id)
    requires Moves(db, db', reply, ctx, moved, target) && id in db.orders && db.orders[id].tenant == ctx.tenant
    requires db.orders[id].table == Some(table) && db.orders[id].status in {Open, SentToKitchen, Delivered}
    ensures NobodyCame(db, db', ctx.tenant, table, id)
  {
    assert moved != id && target == table ==> IsTakenByAnother(db, ctx.tenant, target, moved);
  }
}
