/** Every writing endpoint as a function of database states. The transaction of a handler runs on
    `db`. Each of its separate earlier reads has a state of its own: the lookup of the idempotency
    key sees `read`, the others what `Seen` names. */
module Handlers {
  import opened Outcomes
  import opened Financial
  import opened Schema
  import opened Stock
  import Text

  /** The states that a handler's reads saw, apart from the key: `look` at the lookup of a table or of
      products before the transaction; `order`, `charges` and `limits` at the three reads of
      settleOrder. The first two of these are reads of its transaction: they see `db` when it is
      serializable, and may see an earlier state under read committed. The third is made outside. */
  datatype Seen = Seen(look: Db, order: Db, charges: Db, limits: Db)

  datatype TxResult = Commit(db: Db, response: Response) | Unchanged(response: Response) | Abort(error: Error)

  predicate Owned(db: Db, tenant: Id, id: Id) {
    id in db.orders && db.orders[id].tenant == tenant
  }

  predicate PendingCharge(db: Db, order: Id) {
    exists c :: c in db.charges && db.charges[c].order == order && db.charges[c].status == Pending
  }

  predicate Expects(expected: Option<int>, version: int) {
    expected.Some? ==> expected.value == version
  }

  // ----- idempotency -----

  /** What an existing key row answers to a request with fingerprint `hash`. */
  function Recall(row: KeyRow, hash: Fingerprint): Reply {
    if row.hash != hash then
      Refused(KeyReused)
    else if row.status == Completed && row.response.Some? then
      Answered(row.response.value, true)
    else
      Refused(KeyBusy)
  }

  /** executeIdempotent: look the key up, else insert it, mutate and complete it in one transaction.
      When the insert meets a row written since the lookup, the recovery lookup answers. */
  function ExecuteIdempotent(read: Db, db: Db, ctx: Context, hash: Fingerprint, mutation: TxResult): (Db, Reply) {
    var header := Text.Trim(ctx.header.GetOr(""));
    var key := (ctx.tenant, header);
    if header == "" then
      (db, Refused(BadRequest))
    else if key in read.keys then
      (db, Recall(read.keys[key], hash))
    else if key in db.keys then
      (db, Recall(db.keys[key], hash))
    else
      match mutation
      case Commit(db', response) => (Remember(db', key, hash, response), Answered(response, false))
      case Unchanged(response) => (Remember(db, key, hash, response), Answered(response, false))
      case Abort(error) => (db, Refused(error))
  }

  function Remember(db: Db, key: Key, hash: Fingerprint, response: Response): Db {
    db.(keys := db.keys[key := KeyRow(Completed, hash, Some(response))])
  }

  datatype Check = Proceed | Cached(response: Response) | Rejected(error: Error)

  /** checkIdempotency: no header, or an empty one, means no check. */
  function CheckIdempotency(read: Db, ctx: Context, hash: Fingerprint): Check {
    var key := (ctx.tenant, ctx.header.GetOr(""));
    if key.1 == "" || key !in read.keys then
      Proceed
    else
      var row := read.keys[key];
      if row.hash != hash then Rejected(KeyReused)
      else if row.status == Processing then Rejected(KeyBusy)
      else if row.response.Some? then Cached(row.response.value)
      else Proceed
  }

  /** The transaction that ends with saveIdempotency: a key written meanwhile aborts all of it. A
      transaction that found nothing to do returns without saving the key. */
  function SaveIdempotency(db: Db, ctx: Context, hash: Fingerprint, tx: TxResult): (Db, Reply) {
    var key := (ctx.tenant, ctx.header.GetOr(""));
    match tx
    case Abort(error) => (db, Refused(error))
    case Unchanged(response) => (db, Answered(response, false))
    case Commit(db', response) =>
      if key.1 == "" then (db', Answered(response, false))
      else if key in db.keys then (db, Refused(Duplicate))
      else (Remember(db', key, hash, response), Answered(response, false))
  }

  function CheckAndSave(read: Db, db: Db, ctx: Context, hash: Fingerprint, tx: TxResult): (Db, Reply) {
    match CheckIdempotency(read, ctx, hash)
    case Rejected(error) => (db, Refused(error))
    case Cached(response) => (db, Answered(response, true))
    case Proceed => SaveIdempotency(db, ctx, hash, tx)
  }

  // ----- createOrder -----

  datatype Seat = Seat(table: Option<Id>, caption: string, orderType: OrderType)

  function DefaultLabel(t: OrderType): string {
    match t
    case TableService => ""
    case QuickSale => "Venda rápida"
    case Takeaway => "Retirada"
    case Delivery => "Delivery"
  }

  /** The validation of createOrder, with its lookup of an active table. */
  function ReadSeat(read: Db, tenant: Id, body: CreateBody): Result<Seat> {
    var orderType := body.orderType.GetOr(TableService);
    var caption := Text.Trim(body.tableLabel.GetOr(""));
    var table := if body.table == Some("") then None else body.table;
    if orderType != TableService then
      Ok(Seat(None, if caption == "" then DefaultLabel(orderType) else caption, orderType))
    else if table.None? then
      if caption == "" then Fail(BadRequest) else Ok(Seat(None, caption, orderType))
    else if table.value in read.tables && read.tables[table.value].tenant == tenant && read.tables[table.value].active
    then
      Ok(Seat(table, if caption == "" then read.tables[table.value].tableLabel else caption, orderType))
    else
      Fail(NotFound)
  }

  /** An active order of the tenant holds the table; `except` leaves one order out of the search. */
  predicate Occupied(db: Db, tenant: Id, table: Id, except: Option<Id>) {
    exists id :: id in db.orders && Some(id) != except && Holds(db.orders[id], tenant, table)
  }

  predicate Holds(o: Order, tenant: Id, table: Id) {
    o.tenant == tenant && o.table == Some(table) && Active(o.status)
  }

  function CreateTx(db: Db, ctx: Context, seat: Seat, id: Id): TxResult {
    if seat.table.Some? && Occupied(db, ctx.tenant, seat.table.value, None) then
      Abort(Conflict)
    else
      var order := Order(ctx.tenant, seat.table, seat.caption, seat.orderType, Open, 1, [], [],
                         [HistoryRow(None, Open, ctx.user)], UNBILLED);
      Commit(db.(orders := db.orders[id := order]), OrderView(id, order))
  }

  function ServeCreate(read: Db, look: Db, db: Db, ctx: Context, body: CreateBody, env: Env): (Db, Reply) {
    match ReadSeat(look, ctx.tenant, body)
    case Fail(error) => (db, Refused(error))
    case Ok(seat) =>
      ExecuteIdempotent(read, db, ctx, OfCall(ctx.tenant, ctx.user, CreateOrder(body)),
          CreateTx(db, ctx, seat, env.newId))
  }

  // ----- addItem -----

  /** The line to add: a linked product lends its name, price and cost. */
  function ReadLine(read: Db, tenant: Id, body: AddItemBody): Result<Item> {
    var name := Text.Trim(body.name.GetOr(""));
    if body.product.Some? && Text.Trim(body.product.value) != "" then
      var p := body.product.value;
      if p !in read.products || read.products[p].tenant != tenant then
        Fail(NotFound)
      else
        var product := read.products[p];
        if !product.active || !product.available || product.name == "" then
          Fail(BadRequest)
        else
          Ok(Item(Some(p), product.name, body.quantity, product.price, product.cost))
    else if name == "" || body.price.None? then
      Fail(BadRequest)
    else
      Ok(Item(None, name, body.quantity, body.price.value, 0))
  }

  function AddItemTx(db: Db, ctx: Context, id: Id, expected: Option<int>, line: Item): TxResult {
    if PendingCharge(db, id) then
      Abort(Conflict)
    else if !Owned(db, ctx.tenant, id) then
      Abort(NotFound)
    else
      var order := db.orders[id];
      if order.status == Closed then
        Abort(BadRequest)
      else if !Expects(expected, order.version) then
        Abort(Conflict)
      else
        var order' := order.(version := order.version + 1, items := order.items + [line]);
        Commit(db.(orders := db.orders[id := order']), OrderView(id, order'))
  }

  function ServeAddItem(read: Db, look: Db, db: Db, ctx: Context, id: Id, body: AddItemBody): (Db, Reply) {
    match CheckIdempotency(read, ctx, OfItem(body))
    case Rejected(error) => (db, Refused(error))
    case Cached(response) => (db, Answered(response, true))
    case Proceed =>
      match ReadLine(look, ctx.tenant, body)
      case Fail(error) => (db, Refused(error))
      case Ok(line) => SaveIdempotency(db, ctx, OfItem(body), AddItemTx(db, ctx, id, body.expected, line))
  }

  // ----- updateOrderStatus -----

  /** VALID_TRANSITIONS, read backwards. */
  function Predecessor(next: Status): Option<Status> {
    match next
    case SentToKitchen => Some(Open)
    case Delivered => Some(SentToKitchen)
    case Open => None
    case Closed => None
    case Canceled => None
  }

  function UpdateStatusTx(db: Db, ctx: Context, id: Id, from: Status, body: StatusBody): TxResult {
    if PendingCharge(db, id) then
      Abort(Conflict)
    else if !Owned(db, ctx.tenant, id) then
      Abort(NotFound)
    else
      var order := db.orders[id];
      if order.status == from && Expects(body.expected, order.version) then
        var order' := order.(status := body.status, version := order.version + 1,
                             history := order.history + [HistoryRow(Some(from), body.status, ctx.user)]);
        Commit(db.(orders := db.orders[id := order']), OrderView(id, order'))
      else if order.status == body.status then
        Unchanged(OrderView(id, order))
      else
        Abort(Conflict)
  }

  function ServeStatus(read: Db, db: Db, ctx: Context, id: Id, body: StatusBody): (Db, Reply) {
    match CheckIdempotency(read, ctx, OfStatus(body))
    case Rejected(error) => (db, Refused(error))
    case Cached(response) => (db, Answered(response, true))
    case Proceed =>
      match Predecessor(body.status)
      case None => (db, Refused(BadRequest))
      case Some(from) => SaveIdempotency(db, ctx, OfStatus(body), UpdateStatusTx(db, ctx, id, from, body))
  }

  // ----- settleOrder -----

  function Subtotal(items: seq<Item>): int {
    if items == [] then
      0
    else
      var last := items[|items| - 1];
      Subtotal(items[..|items| - 1]) + last.quantity * last.price
  }

  datatype Quote = Quote(totals: Totals, discount: Discount, payments: seq<Payment>)

  /** The bill of the items, the discount permission and the payments, in the order checked. */
  function QuoteOf(items: seq<Item>, role: Role, limit: Option<int>, body: SettleBody): Result<Quote> {
    var subtotal := Subtotal(items);
    match ResolveDiscount(subtotal, body.discount)
    case Fail(error) => Fail(error)
    case Ok(discount) =>
      if !DiscountPermitted(role, limit, subtotal, discount.cents) then
        Fail(BadRequest)
      else
        match CalculateBillTotals(subtotal, discount.cents, body.feeBps.GetOr(DEFAULT_FEE_BPS))
        case Fail(error) => Fail(error)
        case Ok(totals) =>
          match CheckPayments(totals.total, body.payments)
          case Fail(error) => Fail(error)
          case Ok(check) => Ok(Quote(totals, discount, check.payments))
  }

  function Settled(order: Order, from: Status, quote: Quote, user: Option<Id>, now: Time): Order {
    var t := quote.totals;
    order.(status := Closed, version := order.version + 1, table := None,
           payments := order.payments + quote.payments,
           history := order.history + [HistoryRow(Some(from), Closed, user)],
           bill := Bill(t.subtotal, t.discount, t.feeBps, t.fee, t.total, quote.discount.kind, quote.discount.value,
                        if t.discount > 0 then user else None, Some(now), user))
  }

  /** Close order `id` as `order` and move the stock of `items`. */
  function WithSale(db: Db, id: Id, order: Order, seller: Seller, items: seq<Item>): Db {
    var ledger := SellAll(Ledger(db.products, db.movements), seller, items, Products(items));
    db.(orders := db.orders[id := order], products := ledger.products, movements := ledger.movements)
  }

  /** What the checks of settleOrder decide from the order as read. */
  datatype Gate = Stop(error: Error) | Already(order: Order) | Go(order: Order, quote: Quote)

  function SettleGate(seen: Seen, ctx: Context, id: Id, body: SettleBody): Gate {
    if !Owned(seen.order, ctx.tenant, id) then
      Stop(NotFound)
    else
      var order := seen.order.orders[id];
      if order.status == Closed then
        if order.payments == [] then Stop(Conflict) else Already(order)
      else if order.status == Canceled then
        Stop(BadRequest)
      else if !Expects(body.expected, order.version) || PendingCharge(seen.charges, id) then
        Stop(Conflict)
      else
        match QuoteOf(order.items, EffectiveRole(ctx.role), LimitOf(seen.limits, ctx.tenant), body)
        case Fail(error) => Stop(error)
        case Ok(quote) => Go(order, quote)
  }

  /** Owners and administrators act as managers. */
  function EffectiveRole(role: Role): Role {
    if role == Owner || role == Admin then Manager else role
  }

  function LimitOf(db: Db, tenant: Id): Option<int> {
    if tenant in db.limits then Some(db.limits[tenant]) else None
  }

  /** The checks, then the close guarded by the version read, then payments, history and stock. */
  function SettleTx(seen: Seen, db: Db, ctx: Context, id: Id, body: SettleBody, now: Time): TxResult {
    match SettleGate(seen, ctx, id, body)
    case Stop(error) => Abort(error)
    case Already(order) => Unchanged(OrderView(id, order))
    case Go(order, quote) =>
      if !Owned(db, ctx.tenant, id) || !Active(db.orders[id].status) || db.orders[id].version != order.version then
        Abort(Conflict)
      else
        var order' := Settled(db.orders[id], order.status, quote, ctx.user, now);
        Commit(WithSale(db, id, order', Seller(ctx.tenant, id, ctx.user, true), order.items), OrderView(id, order'))
  }

  function ServeSettle(read: Db, seen: Seen, db: Db, ctx: Context, id: Id, body: SettleBody, env: Env): (Db, Reply) {
    ExecuteIdempotent(read, db, ctx, OfCall(ctx.tenant, ctx.user, SettleOrder(id, body)),
                      SettleTx(seen, db, ctx, id, body, env.now))
  }

  // ----- closeOrder and transferTable -----

  /** The close without payments: no bill, no stock, and a history row that names no origin. */
  function CloseTx(db: Db, ctx: Context, id: Id, expected: Option<int>): TxResult {
    if !Owned(db, ctx.tenant, id) then
      Abort(NotFound)
    else
      var order := db.orders[id];
      if Active(order.status) && Expects(expected, order.version) then
        var order' := order.(status := Closed, version := order.version + 1, table := None,
                             history := order.history + [HistoryRow(None, Closed, ctx.user)]);
        Commit(db.(orders := db.orders[id := order']), OrderView(id, order'))
      else if order.status == Closed then
        Unchanged(OrderView(id, order))
      else if order.status == Canceled then
        Abort(BadRequest)
      else
        Abort(Conflict)
  }

  function ServeClose(read: Db, seen: Seen, db: Db, ctx: Context, id: Id, body: SettleBody, env: Env): (Db, Reply) {
    if body.payments != [] then
      ServeSettle(read, seen, db, ctx, id, body, env)
    else
      CheckAndSave(read, db, ctx, OfClose(body), CloseTx(db, ctx, id, body.expected))
  }

  function TransferTx(db: Db, ctx: Context, id: Id, target: Id): TxResult {
    if !Owned(db, ctx.tenant, id) then
      Abort(NotFound)
    else
      var order := db.orders[id];
      if !Active(order.status) then
        Abort(BadRequest)
      else if target !in db.tables || db.tables[target].tenant != ctx.tenant || !db.tables[target].active then
        Abort(NotFound)
      else if Occupied(db, ctx.tenant, target, Some(id)) then
        Abort(Conflict)
      else
        var order' := order.(table := Some(target), tableLabel := db.tables[target].tableLabel,
            version := order.version + 1);
        Commit(db.(orders := db.orders[id := order']), OrderView(id, order'))
  }

  function ServeTransfer(db: Db, ctx: Context, id: Id, target: Id): (Db, Reply) {
    if target == "" then
      (db, Refused(BadRequest))
    else
      match TransferTx(db, ctx, id, target)
      case Commit(db', response) => (db', Answered(response, false))
      case Unchanged(response) => (db, Answered(response, false))
      case Abort(error) => (db, Refused(error))
  }

  // ----- inventory and purchases -----

  function SignedQuantity(body: AdjustBody): int {
    var absolute := if body.quantity < 0 then -body.quantity else body.quantity;
    if body.kind == AdjustmentOut then -absolute else absolute
  }

  function AdjustTx(db: Db, ctx: Context, product: Id, body: AdjustBody): TxResult {
    if product !in db.products || db.products[product].tenant != ctx.tenant || !db.products[product].controlled then
      Abort(NotFound)
    else
      var p := db.products[product];
      var costed := db.products[product := p.(cost := body.unitCost.GetOr(p.cost))];
      var m := Movement(ctx.tenant, product, body.kind, SignedQuantity(body), body.unitCost, None, ctx.user);
      var ledger := Record(Ledger(costed, db.movements), m);
      Commit(db.(products := ledger.products, movements := ledger.movements), StockView(product, m))
  }

  function ServeAdjust(read: Db, db: Db, ctx: Context, product: Id, body: AdjustBody): (Db, Reply) {
    if body.quantity == 0 then
      (db, Refused(BadRequest))
    else
      ExecuteIdempotent(read, db, ctx, OfCall(ctx.tenant, ctx.user, AdjustStock(product, body)),
          AdjustTx(db, ctx, product, body))
  }

  predicate DistinctProducts(lines: seq<PurchaseLine>) {
    forall i, j :: 0 <= i < j < |lines| ==> lines[i].product != lines[j].product
  }

  predicate AllOwned(db: Db, tenant: Id, lines: seq<PurchaseLine>) {
    forall i :: 0 <= i < |lines| ==>
      lines[i].product in db.products && db.products[lines[i].product].tenant == tenant
  }

  function PurchaseTx(look: Db, db: Db, ctx: Context, lines: seq<PurchaseLine>, id: Id): TxResult
    requires AllOwned(look, ctx.tenant, lines)
  {
    if exists i :: 0 <= i < |lines| && lines[i].product !in db.products then
      Abort(NotFound)
    else
      var ledger := ReceiveAll(Ledger(db.products, db.movements), ctx.tenant, id, ctx.user, lines, look.products);
      Commit(db.(products := ledger.products, movements := ledger.movements), PurchaseView(id))
  }

  function ServePurchase(read: Db, look: Db, db: Db, ctx: Context, lines: seq<PurchaseLine>, env: Env): (Db, Reply) {
    if lines == [] || !DistinctProducts(lines) || !AllOwned(look, ctx.tenant, lines) then
      (db, Refused(BadRequest))
    else
      ExecuteIdempotent(read, db, ctx, OfCall(ctx.tenant, ctx.user, RegisterPurchase(lines)),
                        PurchaseTx(look, db, ctx, lines, env.newId))
  }

  // ----- Pix -----

  /** The discount rules of createCharge, which checks a percentage only from above. */
  function ChargeDiscount(subtotal: int, body: DiscountBody): Result<Discount> {
    var kind: Option<DiscountKind> := if body.kind.None? && body.cents.Some? then Some(Fixed) else body.kind;
    if kind == Some(Percent) then
      if body.value.None? || body.value.value > BPS then
        Fail(BadRequest)
      else
        Ok(Discount(kind, body.value, RoundBps(subtotal * body.value.value)))
    else if kind == Some(Fixed) then
      var cents := body.value.GetOr(body.cents.GetOr(0));
      Ok(Discount(kind, Some(cents), cents))
    else
      Ok(Discount(None, body.value, body.cents.GetOr(0)))
  }

  /** createCharge reads the order, asks the Pix adapter, and only then inserts the charge. When a
      pending charge exists it answers `picked`, the row the query returned. */
  function ServeCharge(read: Db, db: Db, ctx: Context, body: ChargeBody, env: Env, picked: Id): (Db, Reply) {
    if !Owned(read, ctx.tenant, body.order) then
      (db, Refused(NotFound))
    else
      var order := read.orders[body.order];
      if !Active(order.status) then
        (db, Refused(BadRequest))
      else if !Expects(body.expected, order.version) then
        (db, Refused(Conflict))
      else if PendingCharge(read, body.order) then
        (db, Answered(ChargeView(picked), false))
      else
        var subtotal := Subtotal(order.items);
        match ChargeDiscount(subtotal, body.discount)
        case Fail(error) => (db, Refused(error))
        case Ok(discount) =>
          match CalculateBillTotals(subtotal, discount.cents, body.feeBps.GetOr(0))
          case Fail(error) => (db, Refused(error))
          case Ok(totals) =>
            if totals.total <= 0 then
              (db, Refused(BadRequest))
            else if exists c :: c in db.charges && db.charges[c].tenant == ctx.tenant && db.charges[c].txid == env.txid
            then
              (db, Answered(ChargeView(picked), false))
            else
              var charge := Charge(ctx.tenant, body.order, env.provider, env.txid, totals.total,
                                   discount.kind, discount.value, discount.cents, totals.feeBps, Pending);
              (db.(charges := db.charges[env.newId := charge]), Answered(ChargeView(env.newId), false))
  }

  /** A webhook notification, its signature already verified. */
  datatype Hook = Hook(provider: string, txid: string, status: ChargeStatus, amount: Option<int>)

  datatype HookReply = Acknowledged(replayed: bool) | HookRefused(error: Error)

  predicate Matches(db: Db, hook: Hook, c: Id) {
    c in db.charges && db.charges[c].provider == hook.provider && db.charges[c].txid == hook.txid
  }

  function PaidOrder(order: Order, charge: Charge, c: Id, totals: Totals, now: Time): Order {
    order.(status := Closed, version := order.version + 1, table := None,
           payments := order.payments + [Payment(Pix, totals.total, None, 0, Some(c))],
           history := order.history + [HistoryRow(Some(order.status), Closed, None)],
           bill := order.bill.(subtotal := totals.subtotal, discount := totals.discount, feeBps := totals.feeBps,
                               fee := totals.fee, total := totals.total,
                               kind := charge.kind, value := charge.value, settledAt := Some(now)))
  }

  function PaidTx(db: Db, c: Id, tenant: Id, now: Time): (Db, HookReply) {
    if c !in db.charges then
      (db, HookRefused(NotFound))
    else
      var charge := db.charges[c];
      if charge.status == Paid then
        (db, Acknowledged(true))
      else if charge.order !in db.orders then
        (db, HookRefused(NotFound))
      else
        var order := db.orders[charge.order];
        if !Active(order.status) then
          (db, HookRefused(Conflict))
        else
          match CalculateBillTotals(Subtotal(order.items), charge.discount, charge.feeBps)
          case Fail(error) => (db, HookRefused(error))
          case Ok(totals) =>
            if totals.total != charge.amount then
              (db, HookRefused(Conflict))
            else
              var sold := WithSale(db, charge.order, PaidOrder(order, charge, c, totals, now),
                                   Seller(tenant, charge.order, None, false), order.items);
              (sold.(charges := db.charges[c := charge.(status := Paid)]), Acknowledged(false))
  }

  /** PixWebhookController.receive, for the charge `c` that the lookup returned. */
  function ServeHook(read: Db, db: Db, hook: Hook, c: Id, now: Time): (Db, HookReply) {
    if !Matches(read, hook, c) then
      (db, HookRefused(NotFound))
    else if hook.amount.Some? && hook.amount.value != read.charges[c].amount then
      (db, HookRefused(BadRequest))
    else if read.charges[c].status == Paid then
      (db, Acknowledged(true))
    else if hook.status != Paid then
      if c in db.charges then
        (db.(charges := db.charges[c := db.charges[c].(status := hook.status)]), Acknowledged(false))
      else
        (db, HookRefused(NotFound))
    else
      PaidTx(db, c, read.charges[c].tenant, now)
  }

  /** The API: one writing call, from its earlier reads to its reply. */
  function Serve(read: Db, seen: Seen, db: Db, ctx: Context, call: Call, env: Env, picked: Id): (Db, Reply) {
    match call
    case CreateOrder(body) => ServeCreate(read, seen.look, db, ctx, body, env)
    case AddItem(id, body) => ServeAddItem(read, seen.look, db, ctx, id, body)
    case UpdateStatus(id, body) => ServeStatus(read, db, ctx, id, body)
    case CloseOrder(id, body) => ServeClose(read, seen, db, ctx, id, body, env)
    case SettleOrder(id, body) => ServeSettle(read, seen, db, ctx, id, body, env)
    case TransferTable(id, target) => ServeTransfer(db, ctx, id, target)
    case AdjustStock(product, body) => ServeAdjust(read, db, ctx, product, body)
    case RegisterPurchase(lines) => ServePurchase(read, seen.look, db, ctx, lines, env)
    case CreateCharge(body) => ServeCharge(read, db, ctx, body, env, picked)
  }
}
