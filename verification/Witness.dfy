/** The defect is reachable in the whole system: whatever order a device creates offline and whatever
    item it adds to it, there is a history that strands the item. */
module Witness {
  import opened Outcomes
  import opened Financial
  import opened Schema
  import opened Handlers
  import opened Runs
  import opened Queue
  import opened Paths
  import opened Interceptor
  import opened EndToEnd
  import opened Histories
  import opened Stranded
  import Sync
  import Text

  lemma StartReaches(sys: System)
    requires Starts(sys)
    ensures Reaches(sys)
  {
    LeadsToItself(sys);
  }

  lemma NextReaches(sys: System, e: Event)
    requires Reaches(sys) && sys.states != [] && EndToEnd.Enabled(sys, e)
    ensures Reaches(Next(sys, e))
  {
    var start :| Starts(start) && Leads(start, sys);
    LeadsOn(start, sys, e);
  }

  /** A local event, when the server's history is `states`. */
  lemma HereReaches(states: seq<Db>, steps: seq<Step>, dev: Device, e: Local)
    requires states != [] && Reaches(System(states, steps, dev)) && Possible(Last(states).keys, dev, e)
    ensures Reaches(System(states, steps, After(Last(states).keys, dev, e)))
  {
    NextReaches(System(states, steps, dev), Here(e));
  }

  const NO_KEYS: map<Key, KeyRow> := map[]

  /** An order created offline under `k`, and an item added to it under `l`. */
  datatype Story = Story(k: string, create: Request, l: string, item: Request, t: Id, first: Clock, second: Clock,
      now: Time)

  predicate IsOfflineOrder(s: Story) {
    && RequestOk(map[], s.k, s.create) && s.create.temp == Some(s.t)
    && RequestOk(map[s.k := s.create], s.l, s.item) && s.item.target == Sub(s.t, Items)
    && s.k != s.l && s.create.tenant == s.item.tenant && s.create.user == s.item.user
    && s.first.createdAt <= s.second.createdAt
  }

  function CreateEntry(s: Story): Mutation {
    Mutation(MutationId(s.first.stamp, s.k), s.k, "POST", "/orders", s.create.body, s.create.tenant, s.create.user,
        s.first.createdAt,
             MutationStatus.Pending, 0, Some(s.t), None, None)
  }

  function ItemEntry(s: Story): Mutation {
    Mutation(MutationId(s.second.stamp, s.l), s.l, "POST", Render(Sub(s.t, Items)), s.item.body, s.item.tenant,
        s.item.user,
             s.second.createdAt, MutationStatus.Pending, 0, None, Some(s.t), None)
  }

  function FirstWires(s: Story): set<Wire> {
    {FirstWire(s.k, s.create), FirstWire(s.l, s.item)}
  }

  // ----- both mutations are queued -----

  function IssuedBoth(s: Story): map<string, Request> {
    map[s.k := s.create][s.l := s.item]
  }

  function QueuedBoth(s: Story): Device {
    Device(IssuedBoth(s), {}, FirstWires(s), {}, [CreateEntry(s), ItemEntry(s)], map[],
           [IdentOf(CreateEntry(s)), IdentOf(ItemEntry(s))], {})
  }

  lemma CreateIsQueued(s: Story)
    requires IsOfflineOrder(s)
    ensures IsQueued(LostRequest(s.k, s.create)) && EntryOf(LostRequest(s.k, s.create), s.first) == CreateEntry(s)
  {
  }

  lemma ItemIsQueued(s: Story)
    requires IsOfflineOrder(s)
    ensures IsQueued(LostRequest(s.l, s.item)) && EntryOf(LostRequest(s.l, s.item), s.second) == ItemEntry(s)
  {
    var path := Render(s.item.target);
    assert IsTempId(s.t) && IsWord(s.t);
    QueueableExactly(path);
    assert path[|path| - 1] == 's';
  }

  const NEW_DEVICE: Device := Device(map[], {}, {}, {}, [], map[], [], {})

  function IssuedFirst(s: Story): Device {
    NEW_DEVICE.(issued := map[s.k := s.create], awaiting := {s.k}, wires := {FirstWire(s.k, s.create)})
  }

  function QueuedFirst(s: Story): Device {
    IssuedFirst(s).(awaiting := {}, queue := [CreateEntry(s)], accepted := [IdentOf(CreateEntry(s))])
  }

  function IssuedSecond(s: Story): Device {
    QueuedFirst(s).(issued := IssuedBoth(s), awaiting := {s.l}, wires := FirstWires(s))
  }

  lemma FirstMutation(s: Story)
    requires IsOfflineOrder(s)
    ensures Possible(NO_KEYS, NEW_DEVICE, Issue(s.k, s.create))
    ensures After(NO_KEYS, NEW_DEVICE, Issue(s.k, s.create)) == IssuedFirst(s)
    ensures Possible(NO_KEYS, IssuedFirst(s), FirstLost(s.k, s.first))
    ensures After(NO_KEYS, IssuedFirst(s), FirstLost(s.k, s.first)) == QueuedFirst(s)
  {
    CreateIsQueued(s);
  }

  lemma SecondMutation(s: Story)
    requires IsOfflineOrder(s)
    ensures Possible(NO_KEYS, QueuedFirst(s), Issue(s.l, s.item))
    ensures After(NO_KEYS, QueuedFirst(s), Issue(s.l, s.item)) == IssuedSecond(s)
    ensures Possible(NO_KEYS, IssuedSecond(s), FirstLost(s.l, s.second))
    ensures After(NO_KEYS, IssuedSecond(s), FirstLost(s.l, s.second)) == QueuedBoth(s)
  {
    ItemIsQueued(s);
    assert QueuedFirst(s).accepted[0].temp == Some(s.t);
    assert Enqueued([CreateEntry(s)], ItemEntry(s)) == [CreateEntry(s), ItemEntry(s)];
  }

  lemma QueueingReaches(db: Db, s: Story)
    requires Initial(db) && IsOfflineOrder(s)
    ensures Reaches(System([db], [], QueuedBoth(s)))
  {
    StartReaches(System([db], [], NEW_DEVICE));
    FirstMutation(s);
    HereReaches([db], [], NEW_DEVICE, Issue(s.k, s.create));
    HereReaches([db], [], IssuedFirst(s), FirstLost(s.k, s.first));
    SecondMutation(s);
    HereReaches([db], [], QueuedFirst(s), Issue(s.l, s.item));
    HereReaches([db], [], IssuedSecond(s), FirstLost(s.l, s.second));
  }

  // ----- a pass creates the order -----

  function CreateWire(s: Story): Wire {
    ReplayWire(CreateEntry(s), "/orders")
  }

  function Sending(s: Story): Device {
    var dev := QueuedBoth(s);
    dev.(wires := dev.wires + {CreateWire(s)},
        queue := [CreateEntry(s).(status := MutationStatus.Syncing), ItemEntry(s)],
         passes := map[0 := Pass([CreateEntry(s), ItemEntry(s)], 0, s.now, map[], InFlight(CreateWire(s)))])
  }

  lemma BothArePending(s: Story)
    requires IsOfflineOrder(s)
    ensures IsPendingList([CreateEntry(s), ItemEntry(s)], s.create.tenant, s.create.user,
            [CreateEntry(s), ItemEntry(s)])
  {
    var list := [CreateEntry(s), ItemEntry(s)];
    assert list[..1] == [CreateEntry(s)] && list[..1][..0] == [];
    assert Selected(list[..1], s.create.tenant, s.create.user) == [CreateEntry(s)];
    assert Selected(list, s.create.tenant, s.create.user) == [CreateEntry(s)] + [ItemEntry(s)] == list;
  }

  function PassOverBoth(s: Story): Device {
    QueuedBoth(s).(passes := map[0 := Pass([CreateEntry(s), ItemEntry(s)], 0, s.now, map[], Ready)])
  }

  function PassBegins(s: Story): Local {
    Begin(0, s.create.tenant, s.create.user, [CreateEntry(s), ItemEntry(s)], s.now)
  }

  lemma PassSends(s: Story)
    requires IsOfflineOrder(s)
    ensures Possible(NO_KEYS, QueuedBoth(s), PassBegins(s))
    ensures After(NO_KEYS, QueuedBoth(s), PassBegins(s)) == PassOverBoth(s)
    ensures Possible(NO_KEYS, PassOverBoth(s), Dispatch(0))
    ensures After(NO_KEYS, PassOverBoth(s), Dispatch(0)) == Sending(s)
  {
    BothArePending(s);
    assert Current(PassOverBoth(s), 0) == CreateEntry(s) && VerdictFor(PassOverBoth(s), 0) == Sync.Send("/orders");
    assert IndexOf(QueuedBoth(s).queue, CreateEntry(s).id) == 0;
  }

  lemma SendingReaches(db: Db, s: Story)
    requires Initial(db) && IsOfflineOrder(s) && Reaches(System([db], [], QueuedBoth(s)))
    ensures Reaches(System([db], [], Sending(s)))
  {
    PassSends(s);
    HereReaches([db], [], QueuedBoth(s), PassBegins(s));
    HereReaches([db], [], PassOverBoth(s), Dispatch(0));
  }

  // ----- the answer arrives, the creation is dropped -----

  function Dropping(s: Story, replies: set<(Wire, Verdict)>, actual: Id): Device {
    var dev := Sending(s);
    dev.(replies := replies, queue := [ItemEntry(s).(path := Text.ReplaceAll(ItemEntry(s).path, s.t, actual))],
         passes := map[0 := Pass([CreateEntry(s), ItemEntry(s)], 1, s.now, map[s.t := actual], Ready)],
         dropped := {s.k})
  }

  function AnswersTo(s: Story, actual: Id, order: Order): set<(Wire, Verdict)> {
    {(CreateWire(s), FromApi(Answered(OrderView(actual, order), false)))}
  }

  function Confirming(s: Story, replies: set<(Wire, Verdict)>, actual: Id): Device {
    var dev := Sending(s);
    dev.(replies := replies,
         queue := [CreateEntry(s).(status := MutationStatus.Syncing, path := Text.ReplaceAll("/orders", s.t, actual)),
                   ItemEntry(s).(path := Text.ReplaceAll(ItemEntry(s).path, s.t, actual))],
         passes := map[0 := Pass([CreateEntry(s), ItemEntry(s)], 0, s.now, map[s.t := actual],
             Confirmed(CreateWire(s)))])
  }

  lemma CreationIsConfirmed(keys: map<Key, KeyRow>, dev: Device, pass: Pass, t: Id, actual: Id, order: Order)
    requires dev.passes == map[0 := pass] && pass.pos < |pass.pending| && pass.stage.InFlight?
    requires pass.pending[pass.pos].temp == Some(t)
    requires (pass.stage.wire, FromApi(Answered(OrderView(actual, order), false))) in dev.replies
    ensures Possible(keys, dev, Confirm(0, OrderView(actual, order), false))
    ensures After(keys, dev, Confirm(0, OrderView(actual, order), false)) ==
            dev.(queue := Remapped(dev.queue, t, actual),
                 passes := map[0 := pass.(temps := pass.temps[t := actual], stage := Confirmed(pass.stage.wire))])
  {
    var pass' := pass.(temps := pass.temps[t := actual], stage := Confirmed(pass.stage.wire));
    assert map[0 := pass][0 := pass'] == map[0 := pass'];
  }

  lemma AnswerIsConfirmed(keys: map<Key, KeyRow>, s: Story, actual: Id, order: Order)
    ensures var replies := AnswersTo(s, actual, order); var dev := Sending(s).(replies := replies);
      && Possible(keys, dev, Confirm(0, OrderView(actual, order), false))
      && After(keys, dev, Confirm(0, OrderView(actual, order), false)) == Confirming(s, replies, actual)
  {
    hide Possible, After, Text.ReplaceAll, Text.Contains;
    var dev := Sending(s).(replies := AnswersTo(s, actual, order));
    CreationIsConfirmed(keys, dev, dev.passes[0], s.t, actual, order);
    assert Remapped(dev.queue, s.t, actual) == Confirming(s, dev.replies, actual).queue;
  }

  lemma FirstOfTwoIsDropped(keys: map<Key, KeyRow>, dev: Device, a: Mutation, b: Mutation, pass: Pass)
    requires dev.queue == [a, b] && a.id != b.id && dev.passes == map[0 := pass] && dev.dropped == {}
    requires pass.pos == 0 && |pass.pending| > 0 && pass.pending[0].id == a.id && pass.stage.Confirmed?
    ensures Possible(keys, dev, Drop(0))
    ensures After(keys, dev, Drop(0)) == dev.(queue := [b], passes := map[0 := Moved(pass)],
            dropped := {pass.pending[0].key})
  {
    RemovedFirst(a, b);
    assert map[0 := pass][0 := Moved(pass)] == map[0 := Moved(pass)];
  }

  lemma CreationIsDropped(keys: map<Key, KeyRow>, s: Story, replies: set<(Wire, Verdict)>, actual: Id)
    requires s.k != s.l
    ensures Possible(keys, Confirming(s, replies, actual), Drop(0))
    ensures After(keys, Confirming(s, replies, actual), Drop(0)) == Dropping(s, replies, actual)
  {
    hide Possible, After, Text.ReplaceAll;
    var dev := Confirming(s, replies, actual);
    FirstOfTwoIsDropped(keys, dev, dev.queue[0], dev.queue[1], dev.passes[0]);
  }

  lemma DroppingReaches(states: seq<Db>, steps: seq<Step>, s: Story, actual: Id, order: Order)
    requires states != [] && IsOfflineOrder(s)
    requires Reaches(System(states, steps, Sending(s).(replies := AnswersTo(s, actual, order))))
    ensures Reaches(System(states, steps, Dropping(s, AnswersTo(s, actual, order), actual)))
  {
    var replies := AnswersTo(s, actual, order);
    AnswerIsConfirmed(Last(states).keys, s, actual, order);
    HereReaches(states, steps, Sending(s).(replies := replies), Confirm(0, OrderView(actual, order), false));
    CreationIsDropped(Last(states).keys, s, replies, actual);
    HereReaches(states, steps, Confirming(s, replies, actual), Drop(0));
  }

  // ----- the connection drops on the item -----

  function ItemWire(s: Story, actual: Id): Wire {
    ReplayWire(ItemEntry(s), Text.ReplaceAll(ItemEntry(s).path, s.t, actual))
  }

  function SendingItem(s: Story, replies: set<(Wire, Verdict)>, actual: Id): Device {
    var dev := Dropping(s, replies, actual);
    dev.(wires := dev.wires + {ItemWire(s, actual)},
         queue := [dev.queue[0].(status := MutationStatus.Syncing)],
         passes := map[0 := dev.passes[0].(stage := InFlight(ItemWire(s, actual)))])
  }

  lemma ItemIsSent(keys: map<Key, KeyRow>, s: Story, replies: set<(Wire, Verdict)>, actual: Id)
    ensures Possible(keys, Dropping(s, replies, actual), Dispatch(0))
    ensures After(keys, Dropping(s, replies, actual), Dispatch(0)) == SendingItem(s, replies, actual)
  {
    var dev := Dropping(s, replies, actual);
    assert Current(dev, 0) == ItemEntry(s);
    assert VerdictFor(dev, 0) == Sync.Send(Text.ReplaceAll(ItemEntry(s).path, s.t, actual));
  }

  const CONNECTION_DROPS: Local := Failing(0, Sync.DioError(None), 0)

  lemma ItemIsStranded(keys: map<Key, KeyRow>, s: Story, replies: set<(Wire, Verdict)>, actual: Id)
    requires IsOfflineOrder(s)
    ensures Possible(keys, SendingItem(s, replies, actual), CONNECTION_DROPS)
    ensures IsStranded(After(keys, SendingItem(s, replies, actual), CONNECTION_DROPS), IdentOf(ItemEntry(s)), s.t)
  {
    var dev := SendingItem(s, replies, actual);
    assert Current(dev, 0) == ItemEntry(s);
    var dev' := After(keys, dev, CONNECTION_DROPS);
    assert |dev'.queue| == 1 && IdentOf(dev'.queue[0]) == IdentOf(ItemEntry(s)) && dev'.passes == map[];
    assert Idents(dev'.queue) == [IdentOf(ItemEntry(s))];
  }

  lemma FailureStrands(states: seq<Db>, steps: seq<Step>, s: Story, replies: set<(Wire, Verdict)>, actual: Id)
    requires states != [] && IsOfflineOrder(s) && Reaches(System(states, steps, Dropping(s, replies, actual)))
    ensures exists sys :: Reaches(sys) && IsStranded(sys.dev, IdentOf(ItemEntry(s)), s.t)
  {
    var keys := Last(states).keys;
    ItemIsSent(keys, s, replies, actual);
    HereReaches(states, steps, Dropping(s, replies, actual), Dispatch(0));
    ItemIsStranded(keys, s, replies, actual);
    HereReaches(states, steps, SendingItem(s, replies, actual), CONNECTION_DROPS);
    assert IsStranded(System(states, steps, After(keys, SendingItem(s, replies, actual), CONNECTION_DROPS)).dev,
        IdentOf(ItemEntry(s)), s.t);
  }

  lemma CreationCommits(db: Db, s: Story, role: Role, env: Env)
    requires Initial(db) && IsOfflineOrder(s) && ReadSeat(db, s.create.tenant, s.create.body.create).Ok?
    ensures var ctx := Context(s.create.tenant, Some(s.create.user), role, Some(s.k));
      var reply := ServeCreate(db, db, db, ctx, s.create.body.create, env).1;
      reply.Answered? && !reply.replayed && reply.response.OrderView? && reply.response.id == env.newId
  {
    var seat := ReadSeat(db, s.create.tenant, s.create.body.create).value;
    assert seat.table.Some? ==> !Occupied(db, s.create.tenant, seat.table.value, None);
  }

  function Delivery(s: Story, role: Role, env: Env): Event {
    Deliver(CreateWire(s), 0, AllAt(0), role, env, "")
  }

  lemma CreationIsRouted(s: Story)
    requires IsOfflineOrder(s)
    ensures Route("POST", "/orders", s.create.body) == Some(CreateOrder(s.create.body.create))
  {
    RouteOfRender(Orders, s.create.body);
  }

  lemma CreationIsDelivered(db: Db, s: Story, role: Role, env: Env)
    requires Initial(db) && IsOfflineOrder(s) && IsRealId(env.newId)
    ensures EndToEnd.Enabled(System([db], [], Sending(s)), Delivery(s, role, env))
  {
    CreationIsRouted(s);
  }

  lemma CreationReaches(db: Db, s: Story, role: Role, env: Env) returns (sys: System, order: Order)
    requires Initial(db) && IsOfflineOrder(s) && IsRealId(env.newId) && Reaches(System([db], [], Sending(s)))
    requires ReadSeat(db, s.create.tenant, s.create.body.create).Ok?
    ensures Reaches(sys) && sys.states != [] && sys.dev == Sending(s).(replies := AnswersTo(s, env.newId, order))
  {
    var start, e := System([db], [], Sending(s)), Delivery(s, role, env);
    CreationIsDelivered(db, s, role, env);
    NextReaches(start, e);
    sys := Next(start, e);
    CreationIsRouted(s);
    CreationCommits(db, s, role, env);
    order := ReplyTo([db], sys.steps[0]).response.order;
  }

  /** For every initial database, every order that the server would accept and every item added to it
      offline, some history strands the item. */
  lemma EveryOfflineItemCanBeStranded(db: Db, s: Story, role: Role, env: Env)
    requires Initial(db) && IsOfflineOrder(s) && IsRealId(env.newId)
    requires ReadSeat(db, s.create.tenant, s.create.body.create).Ok?
    ensures exists sys :: Reaches(sys) && IsStranded(sys.dev, IdentOf(ItemEntry(s)), s.t)
  {
    QueueingReaches(db, s);
    SendingReaches(db, s);
    var sys, order := CreationReaches(db, s, role, env);
    DroppingReaches(sys.states, sys.steps, s, env.newId, order);
    FailureStrands(sys.states, sys.steps, s, AnswersTo(s, env.newId, order), env.newId);
  }
}
