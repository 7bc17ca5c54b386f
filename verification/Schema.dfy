/** The rows of the database that the modelled handlers read and write (backend/prisma/schema.prisma).
    Items, payments and status history are kept inside their order, in insertion order. Stock
    quantities are decimals with at most three places and are kept in thousandths. */
module Schema {
  import opened Outcomes
  import opened Financial

  type Id = string
  type Time = int

  datatype Status = Open | SentToKitchen | Delivered | Closed | Canceled

  predicate Active(s: Status) {
    s != Closed && s != Canceled
  }

  datatype OrderType = TableService | QuickSale | Takeaway | Delivery

  datatype Item = Item(product: Option<Id>, name: string, quantity: int, price: int, cost: int)

  datatype HistoryRow = HistoryRow(from: Option<Status>, to: Status, author: Option<Id>)

  /** The settlement columns of an order. */
  datatype Bill = Bill(
    subtotal: int, discount: int, feeBps: int, fee: int, total: int,
    kind: Option<DiscountKind>, value: Option<int>,
    authorizedBy: Option<Id>, settledAt: Option<Time>, settledBy: Option<Id>)

  const UNBILLED: Bill := Bill(0, 0, DEFAULT_FEE_BPS, 0, 0, None, None, None, None, None)

  datatype Order = Order(
    tenant: Id, table: Option<Id>, tableLabel: string, orderType: OrderType, status: Status, version: int,
    items: seq<Item>, payments: seq<Payment>, history: seq<HistoryRow>, bill: Bill)

  datatype Product = Product(
    tenant: Id, name: string, price: int, cost: int, active: bool, available: bool, controlled: bool, stock: int)

  datatype MovementKind = PurchaseEntry | Sale | AdjustmentIn | AdjustmentOut | Return

  datatype Movement = Movement(
    tenant: Id, product: Id, kind: MovementKind, quantity: int, unitCost: Option<int>,
    reference: Option<Id>, author: Option<Id>)

  datatype DiningTable = DiningTable(tenant: Id, tableLabel: string, active: bool)

  datatype ChargeStatus = Pending | Paid | Expired | Revoked | Failed

  datatype Charge = Charge(
    tenant: Id, order: Id, provider: string, txid: string, amount: int,
    kind: Option<DiscountKind>, value: Option<int>, discount: int, feeBps: int, status: ChargeStatus)

  // ----- request bodies -----

  datatype CreateBody = CreateBody(tableLabel: Option<string>, orderType: Option<OrderType>, table: Option<Id>)
  datatype AddItemBody = AddItemBody(
    product: Option<Id>, name: Option<string>, quantity: int, price: Option<int>, expected: Option<int>)
  datatype StatusBody = StatusBody(status: Status, expected: Option<int>)
  datatype SettleBody = SettleBody(
    discount: DiscountBody, feeBps: Option<int>, payments: seq<PaymentInput>, expected: Option<int>)
  datatype AdjustBody = AdjustBody(quantity: int, kind: MovementKind, unitCost: Option<int>)
  datatype PurchaseLine = PurchaseLine(product: Id, quantity: int, unitCost: int)
  datatype ChargeBody = ChargeBody(order: Id, discount: DiscountBody, feeBps: Option<int>, expected: Option<int>)

  /** The endpoints that write, with their path parameters. A close body has the fields of a
      settlement body, with a possibly empty list of payments. */
  datatype Call =
    | CreateOrder(create: CreateBody)
    | AddItem(id: Id, item: AddItemBody)
    | UpdateStatus(id: Id, next: StatusBody)
    | CloseOrder(id: Id, close: SettleBody)
    | SettleOrder(id: Id, settle: SettleBody)
    | TransferTable(id: Id, target: Id)
    | AdjustStock(product: Id, adjust: AdjustBody)
    | RegisterPurchase(lines: seq<PurchaseLine>)
    | CreateCharge(charge: ChargeBody)

  /** What the SHA-256 of a request covers, the hash being taken as injective. The full form covers
      the operation, tenant, user and payload; the short form covers the body alone. */
  datatype Fingerprint =
    | OfCall(tenant: Id, user: Option<Id>, call: Call)
    | OfItem(item: AddItemBody)
    | OfStatus(next: StatusBody)
    | OfClose(close: SettleBody)

  datatype Response =
    | OrderView(id: Id, order: Order)
    | StockView(product: Id, movement: Movement)
    | PurchaseView(purchase: Id)
    | ChargeView(charge: Id)

  datatype KeyStatus = Processing | Completed
  datatype KeyRow = KeyRow(status: KeyStatus, hash: Fingerprint, response: Option<Response>)

  type Key = (Id, string)

  datatype Db = Db(
    orders: map<Id, Order>,
    products: map<Id, Product>,
    tables: map<Id, DiningTable>,
    limits: map<Id, int>,
    charges: map<Id, Charge>,
    movements: seq<Movement>,
    keys: map<Key, KeyRow>)

  /** The authenticated request: tenant, user, role, and the X-Idempotency-Key header. */
  datatype Context = Context(tenant: Id, user: Option<Id>, role: Role, header: Option<string>)

  /** Values drawn outside the model: a fresh identifier, the clock, the Pix adapter's answer. */
  datatype Env = Env(newId: Id, now: Time, provider: string, txid: string)

  datatype Reply = Answered(response: Response, replayed: bool) | Refused(error: Error)
}
