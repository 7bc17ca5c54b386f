/** What delivering a message does to the server's history, seen from the device. */
module Delivery {
  import opened Outcomes
  import opened Financial
  import opened Schema
  import opened Handlers
  import opened Integrity
  import opened Progress
  import opened Runs
  import opened Idempotency
  import opened Paths
  import opened EndToEnd
  import Text

  // ----- extending a run of the server -----

  lemma RunExtends(states: seq<Db>, steps: seq<Step>, step: Step)
    requires Run(states, steps) && Runs.Enabled(states, step)
    ensures Run(states + [Apply(states, step)], steps + [step])
  {
    var states', steps' := states + [Apply(states, step)], steps + [step];
    forall i | 0 <= i < |steps'| ensures StepsTo(states', steps'[i], i) {
      assert states'[..i + 1] == states[..i + 1];
      if i < |steps| {
        assert StepsTo(states, steps[i], i);
      } else {
        assert states[..i + 1] == states;
      }
    }
  }

  lemma KeysOnlyGrow(states: seq<Db>, steps: seq<Step>, i: nat)
    requires Run(states, steps) && i < |steps|
    ensures KeysLater(states[i].keys, states[i + 1].keys)
  {
    KeyFacts(states, steps, i, i + 1);
  }

  lemma CommitsPersist(states: seq<Db>, steps: seq<Step>, db: Db, step: Step, i: nat, key: Key)
    requires CommitsAt(states, steps, i, key)
    ensures CommitsAt(states + [db], steps + [step], i, key)
  {
  }

  lemma UnkeyedCallKeepsKeys(read: Db, seen: Seen, db: Db, ctx: Context, call: Call, env: Env, picked: Id)
    requires KeyOf(ctx, call).None?
    ensures Serve(read, seen, db, ctx, call, env, picked).0.keys == db.keys
  {
  }

  lemma WebhookKeepsKeys(read: Db, db: Db, hook: Hook, c: Id, now: Time)
    ensures ServeHook(read, db, hook, c, now).0.keys == db.keys
  {
  }

  /** A key appears only through a call that carries it. */
  lemma OnlyCarriedKeysAppear(states: seq<Db>, steps: seq<Step>, i: nat, key: Key)
    requires Run(states, steps) && i < |steps|
    requires key !in states[i].keys && key in states[i + 1].keys
    ensures Carries(steps[i], key)
  {
    var s := steps[i];
    assert StepsTo(states, s, i);
    match s
    case Api(read, sight, ctx, call, env, picked) =>
      if KeyOf(ctx, call).Some? {
        OneShotAt(states, steps, i, KeyOf(ctx, call).value);
      } else {
        UnkeyedCallKeepsKeys(states[read], SeenAt(states, sight), states[i], ctx, call, env, picked);
      }
    case Webhook(read, hook, charge, now) => WebhookKeepsKeys(states[read], states[i], hook, charge, now);
    case SaveProduct(_, _) =>
    case SaveTable(_, _) =>
    case SaveLimit(_, _) =>
  }

  lemma SettleAddsNoOrder(read: Db, seen: Seen, db: Db, ctx: Context, id: Id, body: SettleBody, env: Env, o: Id)
    requires o in ServeSettle(read, seen, db, ctx, id, body, env).0.orders
    ensures o in db.orders
  {
  }

  lemma CallAddsNoOtherOrder(read: Db, seen: Seen, db: Db, ctx: Context, call: Call, env: Env, picked: Id, o: Id)
    requires o in Serve(read, seen, db, ctx, call, env, picked).0.orders && o !in db.orders
    ensures o == env.newId
  {
    if call.SettleOrder? {
      SettleAddsNoOrder(read, seen, db, ctx, call.id, call.settle, env, o);
    } else if call.CloseOrder? && call.close.payments != [] {
      SettleAddsNoOrder(read, seen, db, ctx, call.id, call.close, env, o);
    } else {
      OtherCallAddsNoOrder(read, seen, db, ctx, call, env, picked, o);
    }
  }

  lemma OtherCallAddsNoOrder(read: Db, seen: Seen, db: Db, ctx: Context, call: Call, env: Env, picked: Id, o: Id)
    requires !call.SettleOrder? && (call.CloseOrder? ==> call.close.payments == [])
    requires o in Serve(read, seen, db, ctx, call, env, picked).0.orders && o !in db.orders
    ensures o == env.newId
  {
  }

  lemma WebhookAddsNoOrder(read: Db, db: Db, hook: Hook, c: Id, now: Time, id: Id)
    requires id in ServeHook(read, db, hook, c, now).0.orders
    ensures id in db.orders
  {
  }

  lemma OrdersStayReal(past: seq<Db>, step: Step, id: Id)
    requires past != [] && Runs.Enabled(past, step) && RealIdsOnly(step)
    requires forall o :: o in Last(past).orders ==> IsRealId(o)
    requires id in Apply(past, step).orders
    ensures IsRealId(id)
  {
    if id !in Last(past).orders {
      match step
      case Api(read, sight, ctx, call, env, picked) =>
        CallAddsNoOtherOrder(past[read], SeenAt(past, sight), Last(past), ctx, call, env, picked, id);
      case Webhook(read, hook, charge, now) =>
        WebhookAddsNoOrder(past[read], Last(past), hook, charge, now, id);
      case SaveProduct(_, _) =>
      case SaveTable(_, _) =>
      case SaveLimit(_, _) =>
    }
  }

  // ----- calls that can be queued -----

  /** The calls a queued request can mean. */
  predicate IsQueuedCall(call: Call) {
    call.CreateOrder? || call.AddItem? || call.UpdateStatus? || (call.CloseOrder? && call.close.payments == [])
  }

  /** What the call asks for, as a request. */
  predicate Means(call: Call, r: Request) {
    match r.body
    case CreatePayload(create) => call == CreateOrder(create)
    case ItemPayload(item) => call.AddItem? && call.item == item
    case StatusPayload(next) => call.UpdateStatus? && call.next == next
    case ClosePayload(close) => call.CloseOrder? && call.close == close
  }

  /** What a call that stored its key has done to the order its response shows: a created order is the
      new one and opens as asked, any other was there already and is the one addressed, and an added
      item is its last line. */
  predicate Stored(was: Db, db: Db, call: Call, reply: Reply, newId: Id) {
    && Business(db) != Business(was)
    && reply.Answered? && reply.response.OrderView?
    && (call.CreateOrder? ==> reply.response.id == newId && newId !in was.orders)
    && (call.CreateOrder? && call.create.table.None? ==> OpensAsAsked(reply.response.order, call.create))
    && (call.AddItem? || call.UpdateStatus? || call.CloseOrder? ==>
          reply.response.id == call.id && call.id in was.orders)
    && reply.response.id in db.orders && db.orders[reply.response.id] == reply.response.order
    && (call.AddItem? ==> AppendsLine(was.orders, reply.response.id, reply.response.order, call.item))
  }

  predicate AppendsLine(was: Orders, id: Id, order: Order, body: AddItemBody) {
    && id in was
    && |order.items| == |was[id].items| + 1
    && order.items[..|was[id].items|] == was[id].items
    && Asked(order.items[|was[id].items|], body)
  }

  lemma LineIsAsked(look: Db, tenant: Id, body: AddItemBody)
    ensures ReadLine(look, tenant, body).Ok? ==> Asked(ReadLine(look, tenant, body).value, body)
  {
  }

  lemma StoringAppendsLine(read: Db, look: Db, db: Db, ctx: Context, id: Id, body: AddItemBody)
    requires ctx.header.GetOr("") != "" && (ctx.tenant, ctx.header.value) !in db.keys
    requires (ctx.tenant, ctx.header.value) in ServeAddItem(read, look, db, ctx, id, body).0.keys
    ensures var reply := ServeAddItem(read, look, db, ctx, id, body).1;
      reply.Answered? && reply.response.OrderView? && AppendsLine(db.orders, id, reply.response.order, body)
  {
    LineIsAsked(look, ctx.tenant, body);
    var reply := ServeAddItem(read, look, db, ctx, id, body).1;
    var line := ReadLine(look, ctx.tenant, body).value;
    assert reply.response.order.items == db.orders[id].items + [line];
  }

  lemma CreatedOpensAsAsked(read: Db, look: Db, db: Db, ctx: Context, body: CreateBody, env: Env)
    requires Text.Trim(ctx.header.GetOr("")) != "" && (ctx.tenant, Text.Trim(ctx.header.GetOr(""))) !in db.keys
    requires (ctx.tenant, Text.Trim(ctx.header.GetOr(""))) in ServeCreate(read, look, db, ctx, body, env).0.keys
    ensures var reply := ServeCreate(read, look, db, ctx, body, env).1;
      reply.Answered? && reply.response.OrderView? &&
          (body.table.None? ==> OpensAsAsked(reply.response.order, body))
  {
  }

  /** When such a call stores its key, it has changed the order its response shows. */
  lemma StoringChangesData(read: Db, seen: Seen, db: Db, ctx: Context, call: Call, env: Env, picked: Id)
    requires IsQueuedCall(call) && KeyOf(ctx, call).Some? && env.newId !in db.orders
    requires KeyOf(ctx, call).value !in db.keys
    requires KeyOf(ctx, call).value in Serve(read, seen, db, ctx, call, env, picked).0.keys
    ensures var (db', reply) := Serve(read, seen, db, ctx, call, env, picked);
      Stored(db, db', call, reply, env.newId)
  {
    var (db', reply) := Serve(read, seen, db, ctx, call, env, picked);
    if call.CreateOrder? {
      CreatedOpensAsAsked(read, seen.look, db, ctx, call.create, env);
      assert env.newId in Business(db').orders && env.newId !in Business(db).orders;
    } else {
      if call.AddItem? {
        StoringAppendsLine(read, seen.look, db, ctx, call.id, call.item);
      }
      assert Business(db').orders[call.id].version == Business(db).orders[call.id].version + 1;
    }
  }

  /** All that one delivery guarantees, in terms of the states before and after it. */
  ghost predicate HandledCall(
      read: Db, was: Db, db: Db, reply: Reply, key: Key, hash: Fingerprint, call: Call, newId: Id) {
    && KeysLater(was.keys, db.keys)
    && OneShot(read, was, db, reply, key, hash, call)
    && (key !in was.keys && key in db.keys ==> Stored(was, db, call, reply, newId))
  }

  lemma DeliveryFacts(states: seq<Db>, steps: seq<Step>, step: Step, key: Key)
    requires Run(states, steps) && Runs.Enabled(states, step) && Carries(step, key) && IsQueuedCall(step.call)
    ensures HandledCall(states[step.read], Last(states), Apply(states, step), ReplyTo(states, step), key,
                        HashOf(step.ctx, step.call), step.call, step.env.newId)
  {
    var n, db := |steps|, Apply(states, step);
    RunExtends(states, steps, step);
    KeysOnlyGrow(states + [db], steps + [step], n);
    OneShotAt(states + [db], steps + [step], n, key);
    if key !in Last(states).keys && key in db.keys {
      StoringChangesData(states[step.read], SeenAt(states, step.sight), Last(states), step.ctx, step.call, step.env,
          step.picked);
    }
  }

  /** What any step guarantees. */
  lemma StepFacts(states: seq<Db>, steps: seq<Step>, step: Step)
    requires Run(states, steps) && Runs.Enabled(states, step) && RealIdsOnly(step)
    requires forall o :: o in Last(states).orders ==> IsRealId(o)
    ensures Run(states + [Apply(states, step)], steps + [step])
    ensures KeysLater(Last(states).keys, Apply(states, step).keys)
    ensures forall o :: o in Apply(states, step).orders ==> IsRealId(o)
  {
    RunExtends(states, steps, step);
    KeysOnlyGrow(states + [Apply(states, step)], steps + [step], |steps|);
    forall o | o in Apply(states, step).orders ensures IsRealId(o) {
      OrdersStayReal(states, step, o);
    }
  }

  lemma UncarriedKeyStaysAway(states: seq<Db>, steps: seq<Step>, step: Step, key: Key)
    requires Run(states, steps) && Runs.Enabled(states, step) && !Carries(step, key)
    ensures key in Apply(states, step).keys ==> key in Last(states).keys
  {
    var n, db := |steps|, Apply(states, step);
    RunExtends(states, steps, step);
    if key in db.keys && key !in Last(states).keys {
      OnlyCarriedKeysAppear(states + [db], steps + [step], n, key);
    }
  }

  // ----- paths -----

  lemma ResolvesPersists(issued: map<string, Request>, issued': map<string, Request>, keys: map<Key, KeyRow>,
      keys': map<Key, KeyRow>, t: Id, id: Id)
    requires IssuedLater(issued, issued') && KeysLater(keys, keys')
    requires Resolves(issued, keys, t, id)
    ensures Resolves(issued', keys', t, id)
  {
    var k :| k in issued && issued[k].temp == Some(t) && CreatedAs(issued, keys, k, id);
    assert k in issued' && issued'[k].temp == Some(t) && CreatedAs(issued', keys', k, id);
  }

  predicate IssuedLater(a: map<string, Request>, b: map<string, Request>) {
    forall k :: k in a ==> k in b && b[k] == a[k]
  }

  lemma NamesPersists(issued: map<string, Request>, issued': map<string, Request>, keys: map<Key, KeyRow>,
      keys': map<Key, KeyRow>, target: Endpoint, id: Id)
    requires IssuedLater(issued, issued') && KeysLater(keys, keys')
    requires Names(issued, keys, target, id)
    ensures Names(issued', keys', target, id)
  {
    if DependsOn(target).Some? {
      ResolvesPersists(issued, issued', keys, keys', target.order, id);
    }
  }

  lemma FinalPersists(issued: map<string, Request>, issued': map<string, Request>, keys: map<Key, KeyRow>,
      keys': map<Key, KeyRow>, target: Endpoint, path: string)
    requires IssuedLater(issued, issued') && KeysLater(keys, keys')
    requires Final(issued, keys, target, path)
    ensures Final(issued', keys', target, path)
  {
    var id :| Names(issued, keys, target, id) && path == Render(Retarget(target, id));
    NamesPersists(issued, issued', keys, keys', target, id);
  }

  lemma PathFitsPersists(issued: map<string, Request>, issued': map<string, Request>, keys: map<Key, KeyRow>,
      keys': map<Key, KeyRow>, target: Endpoint, path: string)
    requires IssuedLater(issued, issued') && KeysLater(keys, keys')
    requires PathFits(issued, keys, target, path)
    ensures PathFits(issued', keys', target, path)
  {
    if path != Render(target) {
      FinalPersists(issued, issued', keys, keys', target, path);
    }
  }

  lemma ContainsFits(s: string, pat: string)
    requires Text.Contains(s, pat)
    ensures |pat| <= |s| && (|pat| == |s| ==> pat == s)
    decreases |s|
  {
    if pat <= s {
      assert |pat| == |s| ==> s[..|pat|] == s;
    } else {
      ContainsFits(s[1..], pat);
    }
  }

  /** The order segment a request starts with: a real identifier, or a temporary one of this device. */
  lemma TargetIsRealOrTemp(issued: map<string, Request>, k: string)
    requires IssuedOk(issued) && k in issued && issued[k].target.Sub?
    ensures var o := issued[k].target.order;
      if DependsOn(issued[k].target).Some? then IsTempId(o) && |o| == TEMP_LENGTH else IsRealId(o)
  {
    var o := issued[k].target.order;
    assert RequestOk(issued, k, issued[k]);
    if IsRealId(o) {
      assert "temp_"[4] == '_';
    } else {
      var l :| l in issued && issued[l].temp == Some(o);
      assert RequestOk(issued, l, issued[l]);
    }
  }

  lemma NamesReal(issued: map<string, Request>, keys: map<Key, KeyRow>, k: string, id: Id)
    requires IssuedOk(issued) && k in issued && issued[k].target.Sub? && Names(issued, keys, issued[k].target, id)
    ensures IsRealId(id)
  {
    TargetIsRealOrTemp(issued, k);
  }

  lemma ResolvedTemp(issued: map<string, Request>, keys: map<Key, KeyRow>, t: Id, id: Id)
    requires IssuedOk(issued) && Resolves(issued, keys, t, id)
    ensures IsTempId(t) && |t| == TEMP_LENGTH && IsRealId(id)
  {
    var k :| k in issued && issued[k].temp == Some(t) && CreatedAs(issued, keys, k, id);
    assert RequestOk(issued, k, issued[k]);
  }

  lemma RealSegmentStays(target: Endpoint, id: Id, t: Id, actual: Id)
    requires IsTempId(t) && (target.Sub? ==> !Text.Contains(id, t))
    ensures Text.ReplaceAll(Render(Retarget(target, id)), t, actual) == Render(Retarget(target, id))
  {
    RemapRendered(Retarget(target, id), t, actual);
    TempIsNotReal(t);
    if target.Sub? {
      Text.ReplaceAbsent(id, t, actual);
    }
  }

  /** Remapping keeps every path right, and settles the paths that waited for this order. */
  lemma RemapKeepsPaths(issued: map<string, Request>, keys: map<Key, KeyRow>, k: string, path: string, t: Id,
      actual: Id)
    requires IssuedOk(issued) && k in issued && PathFits(issued, keys, issued[k].target, path)
    requires Resolves(issued, keys, t, actual)
    ensures PathFits(issued, keys, issued[k].target, Text.ReplaceAll(path, t, actual))
    ensures DependsOn(issued[k].target) == Some(t) ==>
            Final(issued, keys, issued[k].target, Text.ReplaceAll(path, t, actual))
  {
    var target := issued[k].target;
    ResolvedTemp(issued, keys, t, actual);
    if path == Render(target) {
      if target.Sub? {
        TargetIsRealOrTemp(issued, k);
      }
      if DependsOn(target) == Some(t) {
        TempIsNotReal(t);
        RemapRendered(target, t, actual);
        Text.ReplaceWhole(t, actual);
        assert Names(issued, keys, target, actual);
      } else {
        if target.Sub? {
          if DependsOn(target).Some? {
            if Text.Contains(target.order, t) { ContainsFits(target.order, t); }
          } else {
            RealHasNoTemp(target.order, t);
          }
        }
        assert target == Retarget(target, if target.Sub? then target.order else "");
        RealSegmentStays(target, if target.Sub? then target.order else "", t, actual);
      }
    } else {
      var id :| Names(issued, keys, target, id) && path == Render(Retarget(target, id));
      if target.Sub? {
        NamesReal(issued, keys, k, id);
        RealHasNoTemp(id, t);
      }
      RealSegmentStays(target, id, t, actual);
    }
  }

  /** A path that fits its request routes to a call for it, on the order the path names. */
  lemma WireRoutes(issued: map<string, Request>, keys: map<Key, KeyRow>, w: Wire)
    requires IssuedOk(issued) && WireOk(issued, keys, w) && Route(w.verb, w.path, w.body).Some?
    ensures var call := Route(w.verb, w.path, w.body).value;
      && IsQueuedCall(call)
      && HashOf(Context(w.tenant, Some(w.user), Manager, Some(w.key)), call) == HashFor(issued[w.key])
      && Means(call, issued[w.key])
      && (!call.CreateOrder? ==> Names(issued, keys, issued[w.key].target, call.id) || IsTempId(call.id))
  {
    var r := issued[w.key];
    assert RequestOk(issued, w.key, r);
    if r.target.Sub? {
      TargetIsRealOrTemp(issued, w.key);
    }
    if w.path == Render(r.target) {
      SlashFree(r.target);
      RouteOfRender(r.target, w.body);
    } else {
      var id :| Names(issued, keys, r.target, id) && w.path == Render(Retarget(r.target, id));
      if r.target.Sub? {
        NamesReal(issued, keys, w.key, id);
        assert '/' !in id;
      }
      RouteOfRender(Retarget(r.target, id), w.body);
    }
  }

  lemma SlashFree(e: Endpoint)
    requires e.Sub? ==> IsRealId(e.order) || IsTempId(e.order)
    ensures e.Sub? ==> '/' !in e.order
  {
  }
}
