/** The client and the server together: first attempts, the durable queue, overlapping sync passes,
    lost and duplicated messages, crashes, and any other traffic the server sees. */
module EndToEnd {
  import opened Outcomes
  import opened Financial
  import opened Schema
  import opened Handlers
  import opened Integrity
  import opened Runs
  import opened Idempotency
  import opened Queue
  import opened Paths
  import opened Interceptor
  import Sync
  import Text

  /** 'temp_' and sixteen digits of microseconds. */
  const TEMP_LENGTH := 21

  /** What the user asks for: one of the mutations of orders_repository.dart. A creation names the
      temporary identifier that stands for the order until the server answers. */
  datatype Request = Request(target: Endpoint, body: Payload, tenant: Id, user: Id, temp: Option<Id>)

  /** A mutation on an order that exists only on this device waits for the order's creation. */
  function DependsOn(target: Endpoint): Option<Id> {
    if target.Sub? && "temp_" <= target.order then Some(target.order) else None
  }

  /** A message to the server; `replay` marks those a sync pass sends. */
  datatype Wire = Wire(key: string, verb: string, path: string, body: Payload, tenant: Id, user: Id, replay: bool)

  function FirstWire(key: string, r: Request): Wire {
    Wire(key, VerbOf(r.target), Render(r.target), r.body, r.tenant, r.user, false)
  }

  function ReplayWire(m: Mutation, path: string): Wire {
    Wire(m.key, m.verb, path, m.body, m.tenant, m.user, true)
  }

  /** The first attempt of a request, failing with a connection error or a timeout. */
  function LostRequest(key: string, r: Request): FailedRequest {
    FailedRequest(VerbOf(r.target), Render(r.target), r.body, Some(key), Some(r.tenant), Some(r.user),
                  false, r.temp, DependsOn(r.target), true)
  }

  /** An answer comes from a handler, or from a guard or proxy in front of it. */
  datatype Verdict = FromApi(reply: Reply) | FromGate(code: int)

  predicate Succeeded(v: Verdict) {
    v.FromApi? && v.reply.Answered?
  }

  function IdIn(response: Response): Option<string> {
    if response.OrderView? then Some(response.id) else None
  }

  /** A 2xx outcome as sync sees it. */
  function SuccessOf(response: Response): Sync.Outcome {
    Sync.Response(201, IdIn(response))
  }

  datatype Stage = Ready | InFlight(wire: Wire) | Confirmed(wire: Wire)
  datatype Pass = Pass(pending: Entries, pos: nat, now: Time, temps: Sync.Temps, stage: Stage)

  /** `issued` and `awaiting` record first attempts by key; `wires` and `replies` every message ever
      sent; `accepted` every entry ever queued, and `dropped` the keys removed from the queue. */
  datatype Device = Device(
    issued: map<string, Request>, awaiting: set<string>,
    wires: set<Wire>, replies: set<(Wire, Verdict)>,
    queue: Entries, passes: map<nat, Pass>,
    accepted: seq<Ident>, dropped: set<string>)

  /** The history of the server, and the device with the messages between them. */
  datatype System = System(states: seq<Db>, steps: seq<Step>, dev: Device)

  datatype Local =
    | Issue(key: string, request: Request)
    | FirstAnswered(key: string)
    | FirstLost(key: string, clock: Clock)
    | TurnAway(wire: Wire, code: int)
    | Begin(pass: nat, tenant: Id, user: Id, pending: Entries, now: Time)
    | PassOver(pass: nat)
    | Dispatch(pass: nat)
    | Failing(pass: nat, outcome: Sync.Outcome, at: Time)
    | Confirm(pass: nat, response: Response, replayed: bool)
    | Drop(pass: nat)
    | Finish(pass: nat)
    | Restart

  datatype Event =
    | Here(event: Local)
    | Deliver(wire: Wire, read: nat, sight: Sight, role: Role, env: Env, picked: Id)
    | Elsewhere(step: Step)

  /** The server's step for a delivered message. */
  function StepFor(w: Wire, call: Call, read: nat, sight: Sight, role: Role, env: Env, picked: Id): Step {
    Api(read, sight, Context(w.tenant, Some(w.user), role, Some(w.key)), call, env, picked)
  }

  predicate IsIssuedTemp(issued: map<string, Request>, t: Id) {
    exists k :: k in issued && issued[k].temp == Some(t)
  }

  /** Some accepted entry creates the order that the temporary identifier stands for. */
  predicate OffersTemp(accepted: seq<Ident>, t: Id) {
    exists i :: 0 <= i < |accepted| && accepted[i].temp == Some(t)
  }

  /** What the app guarantees of a request: a creation names a temporary identifier, a label and a
      type but no table, any other mutation names a known order, and a close carries no payments. */
  predicate RequestOk(issued: map<string, Request>, key: string, r: Request) {
    && key != "" && Text.Trim(key) == key
    && BodyFits(r.target, r.body)
    && (r.body.CreatePayload? ==>
          r.body.create.tableLabel.Some? && r.body.create.orderType.Some? && r.body.create.table.None?)
    && (r.body.ClosePayload? ==> r.body.close.payments == [])
    && (r.target.Orders? <==> r.temp.Some?)
    && (r.temp.Some? ==> IsTempId(r.temp.value) && |r.temp.value| == TEMP_LENGTH)
    && (r.target.Sub? ==> IsRealId(r.target.order) || IsIssuedTemp(issued, r.target.order))
  }

  predicate Underway(dev: Device, p: nat) {
    p in dev.passes && dev.passes[p].pos < |dev.passes[p].pending|
  }

  function Current(dev: Device, p: nat): Mutation
    requires Underway(dev, p)
  {
    dev.passes[p].pending[dev.passes[p].pos]
  }

  function VerdictFor(dev: Device, p: nat): Sync.Verdict
    requires Underway(dev, p)
  {
    Sync.Judge(Current(dev, p), dev.passes[p].now, dev.passes[p].temps, dev.queue)
  }

  /** What may happen on the device, or to a message, when the server's key table is `keys`. */
  ghost predicate Possible(keys: map<Key, KeyRow>, dev: Device, e: Local) {
    match e
    case Issue(key, r) =>
      // Keys and temporary identifiers are fresh. The app learns a temporary identifier only from the
      // 202 that says the creation was queued.
      && key !in dev.issued && (r.tenant, key) !in keys
      && RequestOk(dev.issued, key, r)
      && (r.temp.Some? ==> !IsIssuedTemp(dev.issued, r.temp.value))
      && (DependsOn(r.target).Some? ==> OffersTemp(dev.accepted, r.target.order))
    case FirstAnswered(key) => key in dev.awaiting
    case FirstLost(key, _) => key in dev.awaiting && key in dev.issued
    case TurnAway(w, _) => w in dev.wires
    case Begin(p, tenant, user, pending, _) => p !in dev.passes && IsPendingList(dev.queue, tenant, user, pending)
    case PassOver(p) => Underway(dev, p) && dev.passes[p].stage.Ready? && !VerdictFor(dev, p).Send?
    case Dispatch(p) => Underway(dev, p) && dev.passes[p].stage.Ready? && VerdictFor(dev, p).Send?
    case Failing(p, outcome, _) => Underway(dev, p) && dev.passes[p].stage.InFlight? && !Sync.IsSuccess(outcome)
    case Confirm(p, response, replayed) =>
      && Underway(dev, p) && dev.passes[p].stage.InFlight?
      && (dev.passes[p].stage.wire, FromApi(Answered(response, replayed))) in dev.replies
    case Drop(p) => Underway(dev, p) && dev.passes[p].stage.Confirmed?
    case Finish(p) => p in dev.passes && !Underway(dev, p)
    case Restart => true
  }

  function Moved(pass: Pass): Pass {
    pass.(pos := pass.pos + 1, stage := Ready)
  }

  function After(keys: map<Key, KeyRow>, dev: Device, e: Local): Device
    requires Possible(keys, dev, e)
  {
    match e
    case Issue(key, r) =>
      dev.(issued := dev.issued[key := r], awaiting := dev.awaiting + {key}, wires := dev.wires + {FirstWire(key, r)})
    case FirstAnswered(key) => dev.(awaiting := dev.awaiting - {key})
    case FirstLost(key, clock) =>
      var lost, waiting := LostRequest(key, dev.issued[key]), dev.awaiting - {key};
      if IsQueued(lost) then
        var m := EntryOf(lost, clock);
        dev.(awaiting := waiting, queue := Enqueued(dev.queue, m), accepted := dev.accepted + [IdentOf(m)])
      else
        dev.(awaiting := waiting)
    case TurnAway(w, code) => dev.(replies := dev.replies + {(w, FromGate(code))})
    case Begin(p, _, _, pending, now) => dev.(passes := dev.passes[p := Pass(pending, 0, now, map[], Ready)])
    case PassOver(p) =>
      dev.(queue := if VerdictFor(dev, p).GiveUp?
                    then Updated(dev.queue, Current(dev, p).id, MutationStatus.Failed, None, None)
                    else dev.queue,
           passes := dev.passes[p := Moved(dev.passes[p])])
    case Dispatch(p) =>
      var m := Current(dev, p);
      var w := ReplayWire(m, VerdictFor(dev, p).path);
      dev.(queue := Updated(dev.queue, m.id, MutationStatus.Syncing, None, None),
           wires := dev.wires + {w}, passes := dev.passes[p := dev.passes[p].(stage := InFlight(w))])
    case Failing(p, outcome, at) =>
      var m := Current(dev, p);
      dev.(queue := Sync.Settle(dev.queue, m, outcome, at),
           passes := if Sync.EndsPass(m, outcome) then dev.passes - {p} else dev.passes[p := Moved(dev.passes[p])])
    case Confirm(p, response, _) =>
      var m, pass := Current(dev, p), dev.passes[p];
      dev.(queue := if m.temp.Some? && IdIn(response).Some? then Remapped(dev.queue, m.temp.value, IdIn(response).value)
                    else dev.queue,
           passes := dev.passes[p := pass.(temps := Sync.Learned(pass.temps, m, SuccessOf(response)),
                                           stage := Confirmed(pass.stage.wire))])
    case Drop(p) =>
      var m := Current(dev, p);
      dev.(queue := Removed(dev.queue, m.id), dropped := dev.dropped + {m.key},
           passes := dev.passes[p := Moved(dev.passes[p])])
    case Finish(p) => dev.(passes := dev.passes - {p})
    case Restart => dev.(queue := Recovered(dev.queue), passes := map[], awaiting := {})
  }

  // ----- the whole system -----

  predicate RealIdsOnly(step: Step) {
    step.Api? ==> IsRealId(step.env.newId)
  }

  function ReplyTo(states: seq<Db>, step: Step): Reply
    requires states != [] && Runs.Enabled(states, step) && step.Api?
  {
    Serve(states[step.read], SeenAt(states, step.sight), Last(states), step.ctx, step.call, step.env, step.picked).1
  }

  /** The message is routed, its body valid, and the handler may run. */
  predicate Deliverable(states: seq<Db>, dev: Device, e: Event)
    requires states != [] && e.Deliver?
  {
    var w := e.wire;
    && w in dev.wires
    && Route(w.verb, w.path, w.body).Some?
    && IsRealId(e.env.newId)
    && Runs.Enabled(states, StepFor(w, Route(w.verb, w.path, w.body).value, e.read, e.sight, e.role, e.env, e.picked))
  }

  ghost predicate Enabled(sys: System, e: Event)
    requires sys.states != []
  {
    match e
    case Here(event) => Possible(Last(sys.states).keys, sys.dev, event)
    case Deliver(_, _, _, _, _, _) => Deliverable(sys.states, sys.dev, e)
    case Elsewhere(step) =>
      // Other traffic never uses a key of this device.
      && Runs.Enabled(sys.states, step) && RealIdsOnly(step)
      && forall k :: k in sys.dev.issued ==> !Carries(step, (sys.dev.issued[k].tenant, k))
  }

  function Next(sys: System, e: Event): System
    requires sys.states != [] && Enabled(sys, e)
  {
    match e
    case Here(event) => sys.(dev := After(Last(sys.states).keys, sys.dev, event))
    case Deliver(w, read, sight, role, env, picked) =>
      var step := StepFor(w, Route(w.verb, w.path, w.body).value, read, sight, role, env, picked);
      System(sys.states + [Apply(sys.states, step)], sys.steps + [step],
             sys.dev.(replies := sys.dev.replies + {(w, FromApi(ReplyTo(sys.states, step)))}))
    case Elsewhere(step) =>
      sys.(states := sys.states + [Apply(sys.states, step)], steps := sys.steps + [step])
  }

  predicate Starts(sys: System) {
    && |sys.states| == 1 && Initial(sys.states[0]) && sys.steps == []
    && sys.dev == Device(map[], {}, {}, {}, [], map[], [], {})
  }

  ghost predicate Happens(trace: seq<System>, e: Event, i: nat)
    requires i + 1 < |trace|
  {
    trace[i].states != [] && Enabled(trace[i], e) && trace[i + 1] == Next(trace[i], e)
  }

  /** A stretch of the history of the whole system. */
  ghost predicate History(trace: seq<System>, events: seq<Event>) {
    && |trace| == |events| + 1
    && (forall i {:trigger Happens(trace, events[i], i)} :: 0 <= i < |events| ==> Happens(trace, events[i], i))
  }

  /** A history from the very start. */
  ghost predicate Trace(trace: seq<System>, events: seq<Event>) {
    History(trace, events) && Starts(trace[0])
  }

  // ----- what a reachable system looks like -----

  /** The order that the creation sent under `key` committed. */
  predicate CreatedAs(issued: map<string, Request>, keys: map<Key, KeyRow>, key: string, id: Id) {
    && key in issued && (issued[key].tenant, key) in keys
    && var row := keys[(issued[key].tenant, key)];
    && row.response.Some? && row.response.value.OrderView? && row.response.value.id == id && IsRealId(id)
  }

  /** The temporary identifier stands for order `id`. */
  predicate Resolves(issued: map<string, Request>, keys: map<Key, KeyRow>, t: Id, id: Id) {
    exists k :: k in issued && issued[k].temp == Some(t) && CreatedAs(issued, keys, k, id)
  }

  /** Order `id` is the one the target means. */
  predicate Names(issued: map<string, Request>, keys: map<Key, KeyRow>, target: Endpoint, id: Id) {
    if DependsOn(target).Some? then Resolves(issued, keys, target.order, id) else target.Sub? ==> id == target.order
  }

  function Retarget(target: Endpoint, id: Id): Endpoint {
    if target.Sub? then Sub(id, target.action) else target
  }

  /** A path that names a real order: the one meant. */
  ghost predicate Final(issued: map<string, Request>, keys: map<Key, KeyRow>, target: Endpoint, path: string) {
    exists id :: Names(issued, keys, target, id) && path == Render(Retarget(target, id))
  }

  ghost predicate PathFits(issued: map<string, Request>, keys: map<Key, KeyRow>, target: Endpoint, path: string) {
    path == Render(target) || Final(issued, keys, target, path)
  }

  predicate IssuedOk(issued: map<string, Request>) {
    && (forall k :: k in issued ==> RequestOk(issued, k, issued[k]))
    && (forall k, l ::
          k in issued && l in issued && issued[k].temp.Some? && issued[k].temp == issued[l].temp ==> k == l)
  }

  /** The fingerprint of a request, whatever path it travels under. */
  function HashFor(r: Request): Fingerprint {
    match r.body
    case CreatePayload(create) => OfCall(r.tenant, Some(r.user), CreateOrder(create))
    case ItemPayload(item) => OfItem(item)
    case StatusPayload(next) => OfStatus(next)
    case ClosePayload(close) => OfClose(close)
  }

  /** Step `i` carries the key and changes data. */
  predicate CommitsAt(states: seq<Db>, steps: seq<Step>, i: nat, key: Key) {
    && i < |steps| && i + 1 < |states|
    && Carries(steps[i], key)
    && Business(states[i + 1]) != Business(states[i])
  }

  /** The line an item request asks for: its product and quantity, or its own name and price. */
  predicate Asked(line: Item, body: AddItemBody) {
    && line.quantity == body.quantity
    && (if body.product.Some? && Text.Trim(body.product.value) != "" then
          line.product == body.product
        else
          && line.product.None? && body.name.Some? && body.price.Some?
          && line.name == Text.Trim(body.name.value) && line.price == body.price.value)
  }

  /** A fresh order of the label and type that a creation without a table asks for. */
  predicate OpensAsAsked(order: Order, body: CreateBody) {
    var orderType, caption := body.orderType.GetOr(TableService), Text.Trim(body.tableLabel.GetOr(""));
    && order.orderType == orderType && order.table.None?
    && order.tableLabel == (if caption == "" then DefaultLabel(orderType) else caption)
    && order.status == Open && order.version == 1 && order.items == [] && order.payments == []
  }

  /** The step committed the order in the response; a created order is new and opens as asked, and an
      added item is one new last line, as asked. */
  predicate CommitShows(was: Orders, orders: Orders, r: Request, response: Response) {
    && response.OrderView?
    && response.id in orders && orders[response.id] == response.order
    && (r.body.CreatePayload? ==> response.id !in was && OpensAsAsked(response.order, r.body.create))
    && (r.body.ItemPayload? ==>
          && response.id in was
          && |response.order.items| == |was[response.id].items| + 1
          && response.order.items[..|was[response.id].items|] == was[response.id].items
          && Asked(response.order.items[|was[response.id].items|], r.body.item))
  }

  /** A key row of this device was written by a commit of its request, on the order it means. */
  ghost predicate RowOk(states: seq<Db>, steps: seq<Step>, issued: map<string, Request>, k: string)
    requires states != [] && k in issued
  {
    var keys, key := states[|states| - 1].keys, (issued[k].tenant, k);
    key in keys ==>
      && keys[key].hash == HashFor(issued[k])
      && keys[key].response.Some? && keys[key].response.value.OrderView?
      && IsRealId(keys[key].response.value.id)
      && (issued[k].target.Sub? ==> Names(issued, keys, issued[k].target, keys[key].response.value.id))
      && (exists i: nat :: CommitsAt(states, steps, i, key)
            && CommitShows(states[i].orders, states[i + 1].orders, issued[k], keys[key].response.value))
  }

  ghost predicate RowsOk(states: seq<Db>, steps: seq<Step>, issued: map<string, Request>)
    requires states != []
  {
    forall k :: k in issued ==> RowOk(states, steps, issued, k)
  }

  ghost predicate WireOk(issued: map<string, Request>, keys: map<Key, KeyRow>, w: Wire) {
    && w.key in issued
    && var r := issued[w.key];
    && w.verb == VerbOf(r.target) && w.body == r.body && w.tenant == r.tenant && w.user == r.user
    && PathFits(issued, keys, r.target, w.path)
    && (w.replay ==> Final(issued, keys, r.target, w.path))
  }

  ghost predicate WiresOk(issued: map<string, Request>, keys: map<Key, KeyRow>, wires: set<Wire>) {
    forall w :: w in wires ==> WireOk(issued, keys, w)
  }

  /** In some state the order was already as a status change or a close asks. */
  predicate AlreadySo(states: seq<Db>, w: Wire, response: Response, i: nat) {
    && i < |states|
    && Route(w.verb, w.path, w.body).Some?
    && NothingToDo(states[i], states[i], Route(w.verb, w.path, w.body).value, response)
  }

  ghost predicate ReplyOk(states: seq<Db>, w: Wire, v: Verdict)
    requires states != []
  {
    var keys, key := states[|states| - 1].keys, (w.tenant, w.key);
    v.FromApi? ==>
      && v.reply != Refused(KeyReused) && v.reply != Refused(KeyBusy)
      && (v.reply.Answered? ==>
            || (key in keys && keys[key].response == Some(v.reply.response))
            || (exists i: nat :: AlreadySo(states, w, v.reply.response, i)))
  }

  ghost predicate RepliesOk(states: seq<Db>, wires: set<Wire>, replies: set<(Wire, Verdict)>)
    requires states != []
  {
    forall r :: r in replies ==> r.0 in wires && ReplyOk(states, r.0, r.1)
  }

  /** A queued entry is its request: same key, verb, body, tenant, user and links. */
  predicate IdentOk(issued: map<string, Request>, a: Ident) {
    && a.key in issued && a.id.key == a.key
    && var r := issued[a.key];
    && a.verb == VerbOf(r.target) && a.body == r.body && a.tenant == r.tenant && a.user == r.user
    && a.temp == r.temp && a.dependsOn == DependsOn(r.target)
  }

  /** Every mutation of an offline order was asked for after the order's creation was queued. */
  predicate DependentsOk(issued: map<string, Request>, accepted: seq<Ident>) {
    forall k :: k in issued && DependsOn(issued[k].target).Some? ==> OffersTemp(accepted, issued[k].target.order)
  }

  predicate AcceptedOk(issued: map<string, Request>, awaiting: set<string>, accepted: seq<Ident>) {
    && (forall k :: k in awaiting ==> k in issued)
    && (forall a :: a in accepted ==> IdentOk(issued, a) && a.key !in awaiting)
    && (forall i, j :: 0 <= i < j < |accepted| ==> accepted[i].key != accepted[j].key)
  }

  /** The accepted entries that have not been dropped, in the order of acceptance. */
  function Kept(accepted: seq<Ident>, dropped: set<string>): seq<Ident> {
    if accepted == [] then
      []
    else
      var a := accepted[|accepted| - 1];
      Kept(accepted[..|accepted| - 1], dropped) + (if a.key in dropped then [] else [a])
  }

  ghost predicate EntryOk(issued: map<string, Request>, keys: map<Key, KeyRow>, accepted: seq<Ident>, m: Mutation) {
    && IdentOf(m) in accepted
    && m.key in issued
    && PathFits(issued, keys, issued[m.key].target, m.path)
    && m.status != MutationStatus.Synced
  }

  ghost predicate EntriesOk(issued: map<string, Request>, keys: map<Key, KeyRow>, accepted: seq<Ident>, list: Entries) {
    forall i :: 0 <= i < |list| ==> EntryOk(issued, keys, accepted, list[i])
  }

  ghost predicate PassOk(issued: map<string, Request>, keys: map<Key, KeyRow>, wires: set<Wire>,
                         replies: set<(Wire, Verdict)>, accepted: seq<Ident>, p: Pass) {
    && p.pos <= |p.pending|
    && EntriesOk(issued, keys, accepted, p.pending)
    && (forall t :: t in p.temps ==> Resolves(issued, keys, t, p.temps[t]))
    && (p.stage.Ready? || (p.pos < |p.pending| && p.stage.wire in wires && p.stage.wire.key == p.pending[p.pos].key))
    && (p.stage.Confirmed? ==> exists v :: (p.stage.wire, v) in replies && Succeeded(v))
  }

  ghost predicate PassesOk(issued: map<string, Request>, keys: map<Key, KeyRow>, wires: set<Wire>,
                           replies: set<(Wire, Verdict)>, accepted: seq<Ident>, passes: map<nat, Pass>) {
    forall p :: p in passes ==> PassOk(issued, keys, wires, replies, accepted, passes[p])
  }

  /** Some message of the key was answered 2xx. */
  predicate AnsweredFor(replies: set<(Wire, Verdict)>, k: string) {
    exists r :: r in replies && r.0.key == k && Succeeded(r.1)
  }

  /** The device and its messages agree with each other and with the key table. */
  ghost predicate Tidy(keys: map<Key, KeyRow>, dev: Device) {
    && IssuedOk(dev.issued)
    && DependentsOk(dev.issued, dev.accepted)
    && WiresOk(dev.issued, keys, dev.wires)
    && AcceptedOk(dev.issued, dev.awaiting, dev.accepted)
    && EntriesOk(dev.issued, keys, dev.accepted, dev.queue)
    && Idents(dev.queue) == Kept(dev.accepted, dev.dropped)
    && PassesOk(dev.issued, keys, dev.wires, dev.replies, dev.accepted, dev.passes)
    && DroppedOk(dev.issued, dev.awaiting, dev.replies, dev.dropped)
  }

  predicate DroppedOk(issued: map<string, Request>, awaiting: set<string>, replies: set<(Wire, Verdict)>,
      dropped: set<string>) {
    forall k :: k in dropped ==> k in issued && k !in awaiting && AnsweredFor(replies, k)
  }

  ghost predicate InStep(states: seq<Db>, steps: seq<Step>, dev: Device)
    requires states != []
  {
    && Tidy(states[|states| - 1].keys, dev)
    && RowsOk(states, steps, dev.issued)
    && RepliesOk(states, dev.wires, dev.replies)
  }

  ghost predicate Good(sys: System) {
    && Run(sys.states, sys.steps)
    && (forall id :: id in Last(sys.states).orders ==> IsRealId(id))
    && InStep(sys.states, sys.steps, sys.dev)
  }
}
