/** The idempotency protocol over whole runs: lookups and transactions of any number of requests
    interleave freely, and each key still commits at most once. */
module Idempotency {
  import opened Outcomes
  import opened Financial
  import opened Schema
  import opened Handlers
  import opened Integrity
  import opened Progress
  import opened Runs
  import Text

  /** The row a request reads and writes. Two endpoints have none, and so has an absent header. The
      endpoints of executeIdempotent trim the header, the others use it as sent. */
  function KeyOf(ctx: Context, call: Call): Option<Key> {
    var raw := ctx.header.GetOr("");
    if call.TransferTable? || call.CreateCharge? then
      None
    else
      var header := if Trims(call) then Text.Trim(raw) else raw;
      if header == "" then None else Some((ctx.tenant, header))
  }

  predicate Trims(call: Call) {
    !(call.AddItem? || call.UpdateStatus? || (call.CloseOrder? && call.close.payments == []))
  }

  /** The fingerprint a request is stored under. */
  function HashOf(ctx: Context, call: Call): Fingerprint {
    match call
    case AddItem(_, body) => OfItem(body)
    case UpdateStatus(_, body) => OfStatus(body)
    case CloseOrder(id, body) =>
      if body.payments == [] then OfClose(body) else OfCall(ctx.tenant, ctx.user, SettleOrder(id, body))
    case _ => OfCall(ctx.tenant, ctx.user, call)
  }

  /** The operation of executeIdempotent that a call runs: a close with payments is a settlement. */
  function Operation(call: Call): Call {
    if call.CloseOrder? then SettleOrder(call.id, call.close) else call
  }

  /** The same endpoint and body, whatever the order. */
  predicate SameBody(x: Call, y: Call) {
    || (x.AddItem? && y.AddItem? && x.item == y.item)
    || (x.UpdateStatus? && y.UpdateStatus? && x.next == y.next)
    || (x.CloseOrder? && y.CloseOrder? && x.close == y.close)
  }

  /** What a fingerprint tells: under executeIdempotent the tenant, the user and the whole call; for
      added items, status changes and plain closes no more than the endpoint and the body. */
  lemma SameFingerprintExactlyWhen(a: Context, x: Call, b: Context, y: Call)
    ensures HashOf(a, x) == HashOf(b, y) <==>
            if Trims(x) && Trims(y) then
              a.tenant == b.tenant && a.user == b.user && Operation(x) == Operation(y)
            else
              !Trims(x) && !Trims(y) && SameBody(x, y)
  {
  }

  /** Everything but the key table. */
  function Business(db: Db): Db {
    db.(keys := map[])
  }

  /** The two calls that may find nothing to do. */
  predicate IsChange(call: Call) {
    call.UpdateStatus? || (call.CloseOrder? && call.close.payments == [])
  }

  /** The reply of a request that found its order already in the state it asks for: it reports the
      order as it stands and writes nothing, not even its key. */
  predicate NothingToDo(db: Db, db': Db, call: Call, response: Response) {
    && db' == db
    && IsChange(call)
    && call.id in db.orders
    && response == OrderView(call.id, db.orders[call.id])
    && db.orders[call.id].status == (if call.UpdateStatus? then call.next.status else Closed)
  }

  /** The contract of one keyed request, whose lookup saw `read` and whose transaction ran on `db`. */
  predicate OneShot(read: Db, db: Db, db': Db, reply: Reply, key: Key, hash: Fingerprint, call: Call) {
    // A refusal leaves no trace, so the key stays usable.
    && (reply.Refused? ==> db' == db)
    // Data changes only together with the insertion of the key.
    && (Business(db') != Business(db) ==> key !in db.keys && key in db'.keys)
    // No other key is inserted.
    && (forall k :: k in db'.keys && k != key ==> k in db.keys)
    // An answer is the response stored under the key, unless there was nothing to do.
    && (reply.Answered? ==>
          || (key in db'.keys && db'.keys[key] == KeyRow(Completed, hash, Some(reply.response)))
          || NothingToDo(db, db', call, reply.response))
    // The key conflict is answered only to a different request, and no row is ever seen unfinished.
    && (reply == Refused(KeyReused) ==> key in db.keys && db.keys[key].hash != hash)
    && reply != Refused(KeyBusy)
    // An unhandled duplicate means that the key was committed since the lookup.
    && (reply == Refused(Duplicate) ==> key !in read.keys && key in db.keys)
  }

  /** A transaction body: it never touches the key table, and fails only with its own errors. */
  predicate Plain(db: Db, tx: TxResult) {
    match tx
    case Commit(db', _) => db'.keys == db.keys
    case Unchanged(_) => true
    case Abort(error) => error == BadRequest || error == NotFound || error == Conflict
  }

  lemma ExecuteOneShot(read: Db, db: Db, ctx: Context, hash: Fingerprint, tx: TxResult, call: Call)
    requires KeysCompleted(db.keys) && KeysLater(read.keys, db.keys) && Plain(db, tx)
    requires Text.Trim(ctx.header.GetOr("")) != ""
    ensures var (db', reply) := ExecuteIdempotent(read, db, ctx, hash, tx);
      OneShot(read, db, db', reply, (ctx.tenant, Text.Trim(ctx.header.GetOr(""))), hash, call)
  {
  }

  lemma CheckAndSaveOneShot(read: Db, db: Db, ctx: Context, hash: Fingerprint, tx: TxResult, call: Call)
    requires KeysCompleted(db.keys) && KeysLater(read.keys, db.keys) && Plain(db, tx)
    requires ctx.header.GetOr("") != ""
    requires tx.Unchanged? ==> NothingToDo(db, db, call, tx.response)
    ensures var (db', reply) := CheckAndSave(read, db, ctx, hash, tx);
      OneShot(read, db, db', reply, (ctx.tenant, ctx.header.GetOr("")), hash, call)
  {
  }

  lemma AddItemOneShot(read: Db, look: Db, db: Db, ctx: Context, id: Id, body: AddItemBody)
    requires KeysCompleted(db.keys) && KeysLater(read.keys, db.keys) && ctx.header.GetOr("") != ""
    ensures var (db', reply) := ServeAddItem(read, look, db, ctx, id, body);
      OneShot(read, db, db', reply, (ctx.tenant, ctx.header.GetOr("")), OfItem(body), AddItem(id, body))
  {
    var line := ReadLine(look, ctx.tenant, body);
    CheckAndSaveOneShot(read, db, ctx, OfItem(body),
      if line.Ok? then AddItemTx(db, ctx, id, body.expected, line.value) else Abort(line.error), AddItem(id, body));
  }

  lemma StatusOneShot(read: Db, db: Db, ctx: Context, id: Id, body: StatusBody)
    requires KeysCompleted(db.keys) && KeysLater(read.keys, db.keys) && ctx.header.GetOr("") != ""
    ensures var (db', reply) := ServeStatus(read, db, ctx, id, body);
      OneShot(read, db, db', reply, (ctx.tenant, ctx.header.GetOr("")), OfStatus(body), UpdateStatus(id, body))
  {
    var from := Predecessor(body.status);
    CheckAndSaveOneShot(read, db, ctx, OfStatus(body),
      if from.Some? then UpdateStatusTx(db, ctx, id, from.value, body) else Abort(BadRequest), UpdateStatus(id, body));
  }

  lemma PlainCloseOneShot(read: Db, db: Db, ctx: Context, id: Id, body: SettleBody)
    requires KeysCompleted(db.keys) && KeysLater(read.keys, db.keys) && ctx.header.GetOr("") != ""
    requires body.payments == []
    ensures var (db', reply) := CheckAndSave(read, db, ctx, OfClose(body), CloseTx(db, ctx, id, body.expected));
      OneShot(read, db, db', reply, (ctx.tenant, ctx.header.GetOr("")), OfClose(body), CloseOrder(id, body))
  {
    CheckAndSaveOneShot(read, db, ctx, OfClose(body), CloseTx(db, ctx, id, body.expected), CloseOrder(id, body));
  }

  lemma OrderCallOneShot(read: Db, seen: Seen, db: Db, ctx: Context, call: Call, env: Env, picked: Id)
    requires KeysCompleted(db.keys) && KeysLater(read.keys, db.keys)
    requires call.AddItem? || call.UpdateStatus? || (call.CloseOrder? && call.close.payments == [])
    requires KeyOf(ctx, call).Some?
    ensures var (db', reply) := Serve(read, seen, db, ctx, call, env, picked);
      OneShot(read, db, db', reply, KeyOf(ctx, call).value, HashOf(ctx, call), call)
  {
    match call
    case AddItem(id, body) => AddItemOneShot(read, seen.look, db, ctx, id, body);
    case UpdateStatus(id, body) => StatusOneShot(read, db, ctx, id, body);
    case CloseOrder(id, body) => PlainCloseOneShot(read, db, ctx, id, body);
  }

  lemma QuoteIsPlain(items: seq<Item>, role: Role, limit: Option<int>, body: SettleBody)
    ensures var r := QuoteOf(items, role, limit, body); r.Fail? ==> r.error == BadRequest
  {
  }

  lemma SettleIsPlain(seen: Seen, db: Db, ctx: Context, id: Id, body: SettleBody, now: Time)
    ensures Plain(db, SettleTx(seen, db, ctx, id, body, now))
  {
    if Owned(seen.order, ctx.tenant, id) {
      QuoteIsPlain(seen.order.orders[id].items, EffectiveRole(ctx.role), LimitOf(seen.limits, ctx.tenant), body);
    }
  }

  lemma CreateOneShot(read: Db, look: Db, db: Db, ctx: Context, body: CreateBody, env: Env)
    requires KeysCompleted(db.keys) && KeysLater(read.keys, db.keys) && Text.Trim(ctx.header.GetOr("")) != ""
    ensures var (db', reply) := ServeCreate(read, look, db, ctx, body, env);
      OneShot(read, db, db', reply, (ctx.tenant, Text.Trim(ctx.header.GetOr(""))),
          OfCall(ctx.tenant, ctx.user, CreateOrder(body)), CreateOrder(body))
  {
    var seat := ReadSeat(look, ctx.tenant, body);
    if seat.Ok? {
      ExecuteOneShot(read, db, ctx, OfCall(ctx.tenant, ctx.user, CreateOrder(body)),
          CreateTx(db, ctx, seat.value, env.newId), CreateOrder(body));
    }
  }

  lemma SettleOneShot(read: Db, seen: Seen, db: Db, ctx: Context, id: Id, body: SettleBody, env: Env, call: Call)
    requires KeysCompleted(db.keys) && KeysLater(read.keys, db.keys) && Text.Trim(ctx.header.GetOr("")) != ""
    ensures var (db', reply) := ServeSettle(read, seen, db, ctx, id, body, env);
      OneShot(read, db, db', reply, (ctx.tenant, Text.Trim(ctx.header.GetOr(""))),
          OfCall(ctx.tenant, ctx.user, SettleOrder(id, body)), call)
  {
    SettleIsPlain(seen, db, ctx, id, body, env.now);
    ExecuteOneShot(read, db, ctx, OfCall(ctx.tenant, ctx.user, SettleOrder(id, body)),
        SettleTx(seen, db, ctx, id, body, env.now), call);
  }

  lemma AdjustOneShot(read: Db, db: Db, ctx: Context, product: Id, body: AdjustBody)
    requires KeysCompleted(db.keys) && KeysLater(read.keys, db.keys) && Text.Trim(ctx.header.GetOr("")) != ""
    ensures var call := AdjustStock(product, body);
      var (db', reply) := ServeAdjust(read, db, ctx, product, body);
      OneShot(read, db, db', reply, (ctx.tenant, Text.Trim(ctx.header.GetOr(""))), OfCall(ctx.tenant, ctx.user, call),
          call)
  {
    var call := AdjustStock(product, body);
    ExecuteOneShot(read, db, ctx, OfCall(ctx.tenant, ctx.user, call), AdjustTx(db, ctx, product, body), call);
  }

  lemma PurchaseOneShot(read: Db, look: Db, db: Db, ctx: Context, lines: seq<PurchaseLine>, env: Env)
    requires KeysCompleted(db.keys) && KeysLater(read.keys, db.keys) && Text.Trim(ctx.header.GetOr("")) != ""
    ensures var call := RegisterPurchase(lines);
      var (db', reply) := ServePurchase(read, look, db, ctx, lines, env);
      OneShot(read, db, db', reply, (ctx.tenant, Text.Trim(ctx.header.GetOr(""))), OfCall(ctx.tenant, ctx.user, call),
          call)
  {
    var call := RegisterPurchase(lines);
    if AllOwned(look, ctx.tenant, lines) {
      ExecuteOneShot(read, db, ctx, OfCall(ctx.tenant, ctx.user, call), PurchaseTx(look, db, ctx, lines, env.newId),
          call);
    }
  }

  lemma ExecutedCallOneShot(read: Db, seen: Seen, db: Db, ctx: Context, call: Call, env: Env, picked: Id)
    requires KeysCompleted(db.keys) && KeysLater(read.keys, db.keys)
    requires KeyOf(ctx, call).Some? && Trims(call)
    ensures var (db', reply) := Serve(read, seen, db, ctx, call, env, picked);
      OneShot(read, db, db', reply, KeyOf(ctx, call).value, HashOf(ctx, call), call)
  {
    if call.CreateOrder? {
      CreateOneShot(read, seen.look, db, ctx, call.create, env);
    } else if call.SettleOrder? {
      SettleOneShot(read, seen, db, ctx, call.id, call.settle, env, call);
    } else if call.CloseOrder? {
      SettleOneShot(read, seen, db, ctx, call.id, call.close, env, call);
    } else if call.AdjustStock? {
      AdjustOneShot(read, db, ctx, call.product, call.adjust);
    } else {
      PurchaseOneShot(read, seen.look, db, ctx, call.lines, env);
    }
  }

  /** Every keyed call keeps the one-shot contract, whatever earlier state its lookup saw. */
  lemma ServeOneShot(read: Db, seen: Seen, db: Db, ctx: Context, call: Call, env: Env, picked: Id)
    requires KeysCompleted(db.keys) && KeysLater(read.keys, db.keys) && KeyOf(ctx, call).Some?
    ensures var (db', reply) := Serve(read, seen, db, ctx, call, env, picked);
      OneShot(read, db, db', reply, KeyOf(ctx, call).value, HashOf(ctx, call), call)
  {
    if Trims(call) {
      ExecutedCallOneShot(read, seen, db, ctx, call, env, picked);
    } else {
      OrderCallOneShot(read, seen, db, ctx, call, env, picked);
    }
  }

  // ----- over whole runs -----

  /** Step `i` of a run is a call that carries `key`. */
  predicate Carries(step: Step, key: Key) {
    step.Api? && KeyOf(step.ctx, step.call) == Some(key)
  }

  function ReplyAt(states: seq<Db>, steps: seq<Step>, i: nat): Reply
    requires Run(states, steps) && i < |steps| && steps[i].Api?
  {
    assert StepsTo(states, steps[i], i);
    var s := steps[i];
    Serve(states[s.read], SeenAt(states, s.sight), states[i], s.ctx, s.call, s.env, s.picked).1
  }

  lemma KeyFacts(states: seq<Db>, steps: seq<Step>, r: nat, i: nat)
    requires Run(states, steps) && r <= i < |states|
    ensures KeysCompleted(states[i].keys) && KeysLater(states[r].keys, states[i].keys)
  {
    ReachableStatesAreSound(states, steps, i);
    assert Inv(states[i]) && Later(states[r], states[i]);
  }

  lemma OneShotAt(states: seq<Db>, steps: seq<Step>, i: nat, key: Key)
    requires Run(states, steps) && i < |steps| && Carries(steps[i], key)
    ensures steps[i].read <= i
    ensures OneShot(states[steps[i].read], states[i], states[i + 1], ReplyAt(states, steps, i), key,
                    HashOf(steps[i].ctx, steps[i].call), steps[i].call)
  {
    hide OneShot, KeysLater, KeysCompleted;
    var s := steps[i];
    assert StepsTo(states, s, i);
    KeyFacts(states, steps, s.read, i);
    ServeOneShot(states[s.read], SeenAt(states, s.sight), states[i], s.ctx, s.call, s.env, s.picked);
  }

  /** A refused call leaves no trace, so its key stays usable; no call ever meets a row that is still
      being processed; and the key conflict answers only a request other than the one that committed. */
  lemma RefusalsLeaveNoTrace(states: seq<Db>, steps: seq<Step>, i: nat, key: Key)
    requires Run(states, steps) && i < |steps| && Carries(steps[i], key) && ReplyAt(states, steps, i).Refused?
    ensures states[i + 1] == states[i]
    ensures ReplyAt(states, steps, i).error != KeyBusy
    ensures ReplyAt(states, steps, i).error == KeyReused ==>
              key in states[i].keys && states[i].keys[key].hash != HashOf(steps[i].ctx, steps[i].call)
    ensures forall k :: k in states[i].keys ==> states[i].keys[k].status == Completed
  {
    OneShotAt(states, steps, i, key);
    KeyFacts(states, steps, i, i);
  }

  lemma ChangeInsertsKey(states: seq<Db>, steps: seq<Step>, i: nat, key: Key)
    requires Run(states, steps) && i < |steps| && Carries(steps[i], key)
    requires Business(states[i + 1]) != Business(states[i])
    ensures key !in states[i].keys && key in states[i + 1].keys
    ensures ReplyAt(states, steps, i).Answered?
  {
    OneShotAt(states, steps, i, key);
  }

  /** Exactly-once, server side: of all the calls of a run that carry one key, at most one changes
      any data. */
  lemma KeyCommitsAtMostOnce(states: seq<Db>, steps: seq<Step>, i: nat, j: nat, key: Key)
    requires Run(states, steps) && i < j < |steps| && Carries(steps[i], key) && Carries(steps[j], key)
    requires Business(states[i + 1]) != Business(states[i])
    ensures Business(states[j + 1]) == Business(states[j])
    ensures ReplyAt(states, steps, i).Answered?
  {
    hide *;
    RunLength(states, steps);
    ChangeInsertsKey(states, steps, i, key);
    RowsAgree(states, steps, i + 1, j, key);
    if Business(states[j + 1]) != Business(states[j]) {
      ChangeInsertsKey(states, steps, j, key);
    }
  }

  /** Step `i` is a status change or a close that did not see its key and changed nothing. */
  predicate Idle(states: seq<Db>, steps: seq<Step>, i: nat, key: Key)
    requires i < |steps| && i + 1 < |states| && Carries(steps[i], key) && steps[i].read < |states|
  {
    && IsChange(steps[i].call)
    && key !in states[steps[i].read].keys
    && Business(states[i + 1]) == Business(states[i])
  }

  /** All answers given to one key agree: two answered calls that carry it have the same fingerprint
      and get the same response, unless one of them is a status change or a close that was idle. */
  lemma AnswersAgree(states: seq<Db>, steps: seq<Step>, i: nat, j: nat, key: Key)
    requires Run(states, steps) && i <= j < |steps| && Carries(steps[i], key) && Carries(steps[j], key)
    requires steps[i].read < |states| && steps[j].read < |states|
    requires ReplyAt(states, steps, i).Answered? && ReplyAt(states, steps, j).Answered?
    requires !Idle(states, steps, i, key) && !Idle(states, steps, j, key)
    ensures HashOf(steps[i].ctx, steps[i].call) == HashOf(steps[j].ctx, steps[j].call)
    ensures ReplyAt(states, steps, i).response == ReplyAt(states, steps, j).response
  {
    hide *;
    RunLength(states, steps);
    AnswerIsTheRow(states, steps, i, key);
    AnswerIsTheRow(states, steps, j, key);
    RowsAgree(states, steps, i + 1, j + 1, key);
  }

  lemma RowsAgree(states: seq<Db>, steps: seq<Step>, i: nat, j: nat, key: Key)
    requires Run(states, steps) && i <= j < |states| && key in states[i].keys
    ensures key in states[j].keys && states[j].keys[key] == states[i].keys[key]
  {
    KeyFacts(states, steps, i, j);
  }

  /** The recovery lookup may come any time after the failed insertion: every later state recalls the
      same row. */
  lemma RecoveryMayComeLater(states: seq<Db>, steps: seq<Step>, i: nat, j: nat, key: Key, hash: Fingerprint)
    requires Run(states, steps) && i <= j < |states| && key in states[i].keys
    ensures key in states[j].keys && Recall(states[j].keys[key], hash) == Recall(states[i].keys[key], hash)
  {
    RowsAgree(states, steps, i, j, key);
  }

  /** The answer of a call that was not idle is the row of its key. */
  lemma AnswerIsTheRow(states: seq<Db>, steps: seq<Step>, i: nat, key: Key)
    requires Run(states, steps) && i < |steps| && Carries(steps[i], key) && steps[i].read < |states|
    requires ReplyAt(states, steps, i).Answered? && !Idle(states, steps, i, key)
    ensures key in states[i + 1].keys
    ensures states[i + 1].keys[key] ==
            KeyRow(Completed, HashOf(steps[i].ctx, steps[i].call), Some(ReplyAt(states, steps, i).response))
  {
    var s := steps[i];
    OneShotAt(states, steps, i, key);
    if IsChange(s.call) && key in states[s.read].keys {
      KeyFacts(states, steps, s.read, i);
      KeyFacts(states, steps, s.read, s.read);
      assert StepsTo(states, s, i);
      SeenKeyIsRecalled(states[s.read], SeenAt(states, s.sight), states[i], s.ctx, s.call, s.env, s.picked);
    }
  }

  /** A status change or a close whose lookup sees the key answers its row. */
  lemma SeenKeyIsRecalled(read: Db, seen: Seen, db: Db, ctx: Context, call: Call, env: Env, picked: Id)
    requires IsChange(call) && KeyOf(ctx, call).Some? && KeyOf(ctx, call).value in read.keys && KeysCompleted(read.keys)
    ensures var row := read.keys[KeyOf(ctx, call).value];
      var (db', reply) := Serve(read, seen, db, ctx, call, env, picked);
      reply == (if row.hash == HashOf(ctx, call) then Answered(row.response.value, true) else Refused(KeyReused))
  {
  }
}
