/** What a repeated request is answered, exactly: where the answers of saveIdempotency's endpoints
    differ from the committed one. */
module Retries {
  import opened Outcomes
  import opened Schema
  import opened Handlers
  import opened Integrity
  import opened Runs
  import opened Idempotency
  import opened Delivery
  import Theorems

  // ----- the duplicate -----

  /** An item can be added to the order as it stands, and the line was found at its lookup. */
  predicate CanAddItem(look: Db, db: Db, tenant: Id, id: Id, body: AddItemBody) {
    && ReadLine(look, tenant, body).Ok?
    && !PendingCharge(db, id)
    && Owned(db, tenant, id) && db.orders[id].status != Closed
    && Expects(body.expected, db.orders[id].version)
  }

  /** An added item is answered with the unhandled duplicate exactly when its key was committed after
      the lookup of the key, and the item could be added once more: its line was found at the lookup
      of the product, which is another and later read. */
  lemma ItemDuplicateExactlyWhen(states: seq<Db>, steps: seq<Step>, i: nat, key: Key)
    requires Run(states, steps) && i < |steps| && Carries(steps[i], key) && steps[i].call.AddItem?
    requires steps[i].read < |states| && steps[i].sight.look < |states|
    ensures ReplyAt(states, steps, i) == Refused(Duplicate) <==>
            && key !in states[steps[i].read].keys && key in states[i].keys
            && CanAddItem(states[steps[i].sight.look], states[i], key.0, steps[i].call.id, steps[i].call.item)
  {
    var s := steps[i];
    assert StepsTo(states, s, i);
    KeyFacts(states, steps, s.read, s.read);
    AddItemDuplicate(states[s.read], states[s.sight.look], states[i], s.ctx, s.call.id, s.call.item);
  }

  lemma AddItemDuplicate(read: Db, look: Db, db: Db, ctx: Context, id: Id, body: AddItemBody)
    requires ctx.header.GetOr("") != "" && KeysCompleted(read.keys)
    ensures var key := (ctx.tenant, ctx.header.GetOr(""));
      ServeAddItem(read, look, db, ctx, id, body).1 == Refused(Duplicate) <==>
      key !in read.keys && key in db.keys && CanAddItem(look, db, ctx.tenant, id, body)
  {
  }

  function Wanted(call: Call): Status
    requires IsChange(call)
  {
    if call.UpdateStatus? then call.next.status else Closed
  }

  /** Before its commit, the order of a status change or a close ranks below the status wanted. */
  lemma DuplicateFindsWorkToDo(read: Db, seen: Seen, db: Db, ctx: Context, call: Call, env: Env, picked: Id)
    requires IsChange(call) && Serve(read, seen, db, ctx, call, env, picked).1 == Refused(Duplicate)
    ensures call.id in db.orders && Rank(db.orders[call.id].status) < Rank(Wanted(call))
  {
  }

  lemma StatusReached(read: Db, db: Db, ctx: Context, id: Id, body: StatusBody)
    requires Business(ServeStatus(read, db, ctx, id, body).0) != Business(db)
    ensures var db' := ServeStatus(read, db, ctx, id, body).0; id in db'.orders && db'.orders[id].status == body.status
  {
  }

  lemma CloseReached(read: Db, db: Db, ctx: Context, id: Id, body: SettleBody)
    requires Business(CheckAndSave(read, db, ctx, OfClose(body), CloseTx(db, ctx, id, body.expected)).0) != Business(db)
    ensures var db' := CheckAndSave(read, db, ctx, OfClose(body), CloseTx(db, ctx, id, body.expected)).0;
      id in db'.orders && db'.orders[id].status == Closed
  {
  }

  lemma CommitReachesStatus(read: Db, seen: Seen, db: Db, ctx: Context, call: Call, env: Env, picked: Id)
    requires IsChange(call) && Business(Serve(read, seen, db, ctx, call, env, picked).0) != Business(db)
    ensures var db' := Serve(read, seen, db, ctx, call, env, picked).0;
      call.id in db'.orders && db'.orders[call.id].status == Wanted(call)
  {
    hide ServeStatus, ServeSettle, CheckAndSave;
    if call.UpdateStatus? {
      StatusReached(read, db, ctx, call.id, call.next);
    } else {
      CloseReached(read, db, ctx, call.id, call.close);
    }
  }

  lemma StepReachesStatus(states: seq<Db>, steps: seq<Step>, i: nat)
    requires Run(states, steps) && i < |steps| && steps[i].Api? && IsChange(steps[i].call)
    requires Business(states[i + 1]) != Business(states[i])
    ensures var call := steps[i].call;
      call.id in states[i + 1].orders && states[i + 1].orders[call.id].status == Wanted(call)
  {
    hide Business;
    var s := steps[i];
    assert StepsTo(states, s, i);
    CommitReachesStatus(states[s.read], SeenAt(states, s.sight), states[i], s.ctx, s.call, s.env, s.picked);
  }

  lemma StepFindsWorkToDo(states: seq<Db>, steps: seq<Step>, i: nat)
    requires Run(states, steps) && i < |steps| && steps[i].Api? && IsChange(steps[i].call)
    ensures var call := steps[i].call;
      ReplyAt(states, steps, i) == Refused(Duplicate) ==>
        call.id in states[i].orders && Rank(states[i].orders[call.id].status) < Rank(Wanted(call))
  {
    var s := steps[i];
    assert StepsTo(states, s, i);
    if ReplyAt(states, steps, i) == Refused(Duplicate) {
      DuplicateFindsWorkToDo(states[s.read], SeenAt(states, s.sight), states[i], s.ctx, s.call, s.env, s.picked);
    }
  }

  /** A status change or a close that has committed is never answered with the duplicate: the order does
      not come back to where it could be changed again. */
  lemma ChangeIsNeverDuplicate(states: seq<Db>, steps: seq<Step>, i: nat, j: nat, key: Key)
    requires Run(states, steps) && i < j < |steps| && Carries(steps[i], key) && Carries(steps[j], key)
    requires steps[i].call == steps[j].call && IsChange(steps[i].call)
    requires Business(states[i + 1]) != Business(states[i])
    ensures ReplyAt(states, steps, j) != Refused(Duplicate)
  {
    hide Business, ReplyAt, Run;
    RunLength(states, steps);
    StepReachesStatus(states, steps, i);
    Theorems.LifecycleIsMonotone(states, steps, i + 1, j, steps[i].call.id);
    StepFindsWorkToDo(states, steps, j);
  }

  // ----- the answers of status changes and closes -----

  /** The step that wrote a key row. */
  lemma {:induction false} RowWasCommitted(states: seq<Db>, steps: seq<Step>, n: nat, key: Key) returns (m: nat)
    requires Run(states, steps) && n < |states| && key in states[n].keys
    ensures m < n && Carries(steps[m], key) && key !in states[m].keys && key in states[m + 1].keys
    ensures states[m + 1].keys[key] == states[n].keys[key]
  {
    assert n > 0;
    if key in states[n - 1].keys {
      m := RowWasCommitted(states, steps, n - 1, key);
      KeyFacts(states, steps, n - 1, n);
    } else {
      m := n - 1;
      OnlyCarriedKeysAppear(states, steps, m, key);
    }
  }

  /** The row of an added item, a status change or a close shows the order of the step that committed
      it, as the state after that step has it. */
  lemma RowShowsAnOrder(states: seq<Db>, steps: seq<Step>, n: nat, key: Key) returns (m: nat)
    requires Run(states, steps) && n < |states| && key in states[n].keys
    requires !states[n].keys[key].hash.OfCall?
    ensures m < n && states[n].keys[key].response.Some? && states[n].keys[key].response.value.OrderView?
    ensures Carries(steps[m], key) && !Trims(steps[m].call)
    ensures HashOf(steps[m].ctx, steps[m].call) == states[n].keys[key].hash
    ensures var shown := states[n].keys[key].response.value;
      && shown.id == steps[m].call.id
      && shown.id in states[m + 1].orders && states[m + 1].orders[shown.id] == shown.order
  {
    m := RowWasCommitted(states, steps, n, key);
    var s := steps[m];
    assert StepsTo(states, s, m);
    OneShotAt(states, steps, m, key);
    assert HashOf(s.ctx, s.call) == states[n].keys[key].hash;
    StoringChangesData(states[s.read], SeenAt(states, s.sight), states[m], s.ctx, s.call, s.env, s.picked);
  }

  /** The order an answered status change or close shows, and its version: that of the row its lookup
      saw, or else of the order its transaction found or left. */
  function Shown(states: seq<Db>, steps: seq<Step>, i: nat, key: Key): Option<(Id, int)>
    requires i < |steps| && i + 1 < |states| && Carries(steps[i], key) && steps[i].read < |states| &&
             IsChange(steps[i].call)
  {
    var seen, id := states[steps[i].read].keys, steps[i].call.id;
    if key in seen then
      match seen[key].response
      case Some(OrderView(shown, order)) => Some((shown, order.version))
      case _ => None
    else if id in states[i + 1].orders then
      Some((id, states[i + 1].orders[id].version))
    else
      None
  }

  /** The answer shows the order as some state of the run has it, in the version given by Shown. */
  lemma AnswerShows(states: seq<Db>, steps: seq<Step>, i: nat, key: Key) returns (m: nat)
    requires Run(states, steps) && i < |steps| && Carries(steps[i], key) && steps[i].read < |states| &&
             IsChange(steps[i].call)
    requires ReplyAt(states, steps, i).Answered?
    ensures m < |states| && ReplyAt(states, steps, i).response.OrderView?
    ensures var r := ReplyAt(states, steps, i).response;
      && r.id in states[m].orders && states[m].orders[r.id] == r.order
      && Shown(states, steps, i, key) == Some((r.id, r.order.version))
  {
    var s := steps[i];
    assert StepsTo(states, s, i);
    KeyFacts(states, steps, s.read, i);
    KeyFacts(states, steps, s.read, s.read);
    if key in states[s.read].keys {
      SeenKeyIsRecalled(states[s.read], SeenAt(states, s.sight), states[i], s.ctx, s.call, s.env, s.picked);
      var n := RowShowsAnOrder(states, steps, s.read, key);
      m := n + 1;
    } else {
      FreshAnswerShowsTheOrder(states[s.read], SeenAt(states, s.sight), states[i], s.ctx, s.call, s.env, s.picked);
      m := i + 1;
    }
  }

  // ----- answers that show another order -----

  lemma FreshItemShowsTheOrder(read: Db, look: Db, db: Db, ctx: Context, id: Id, body: AddItemBody)
    requires ctx.header.GetOr("") != "" && (ctx.tenant, ctx.header.GetOr("")) !in read.keys
    ensures var reply := ServeAddItem(read, look, db, ctx, id, body).1;
      reply.Answered? ==> reply.response.OrderView? && reply.response.id == id
  {
  }

  lemma SeenItemIsRecalled(read: Db, look: Db, db: Db, ctx: Context, id: Id, body: AddItemBody)
    requires ctx.header.GetOr("") != "" && (ctx.tenant, ctx.header.GetOr("")) in read.keys && KeysCompleted(read.keys)
    ensures var row := read.keys[(ctx.tenant, ctx.header.GetOr(""))];
      ServeAddItem(read, look, db, ctx, id, body) ==
      (db, if row.hash == OfItem(body) then Answered(row.response.value, true) else Refused(KeyReused))
  {
  }

  /** The row of the key, if the lookup of the call sees one, shows the order that the call addresses. */
  predicate SeesOwnOrder(states: seq<Db>, s: Step, key: Key)
    requires Carries(s, key) && s.read < |states| && !Trims(s.call)
  {
    key in states[s.read].keys ==>
      match states[s.read].keys[key].response
      case Some(OrderView(shown, _)) => shown == s.call.id
      case _ => false
  }

  /** An answered call whose lookup sees the key gets the row. */
  lemma SeenRowAnswers(states: seq<Db>, steps: seq<Step>, i: nat, key: Key)
    requires Run(states, steps) && i < |steps| && Carries(steps[i], key) && !Trims(steps[i].call)
    requires steps[i].read < |states| && key in states[steps[i].read].keys && ReplyAt(states, steps, i).Answered?
    ensures states[steps[i].read].keys[key].response == Some(ReplyAt(states, steps, i).response)
    ensures states[steps[i].read].keys[key].hash == HashOf(steps[i].ctx, steps[i].call)
  {
    var s := steps[i];
    assert StepsTo(states, s, i);
    KeyFacts(states, steps, s.read, s.read);
    if s.call.AddItem? {
      SeenItemIsRecalled(states[s.read], states[s.sight.look], states[i], s.ctx, s.call.id, s.call.item);
    } else {
      SeenKeyIsRecalled(states[s.read], SeenAt(states, s.sight), states[i], s.ctx, s.call, s.env, s.picked);
    }
  }

  lemma FreshAnswerIsOfItsOrder(states: seq<Db>, steps: seq<Step>, i: nat, key: Key)
    requires Run(states, steps) && i < |steps| && Carries(steps[i], key) && !Trims(steps[i].call)
    requires steps[i].read < |states| && key !in states[steps[i].read].keys && ReplyAt(states, steps, i).Answered?
    ensures ReplyAt(states, steps, i).response.OrderView? && ReplyAt(states, steps, i).response.id == steps[i].call.id
  {
    var s := steps[i];
    assert StepsTo(states, s, i);
    if s.call.AddItem? {
      FreshItemShowsTheOrder(states[s.read], states[s.sight.look], states[i], s.ctx, s.call.id, s.call.item);
    } else {
      FreshAnswerShowsTheOrder(states[s.read], SeenAt(states, s.sight), states[i], s.ctx, s.call, s.env, s.picked);
    }
  }

  /** The exact condition for an added item, a status change or a close to be answered with the order
      it addresses: its lookup sees no row of the key, or one that shows this order. */
  lemma AnswerShowsItsOrderExactlyWhen(states: seq<Db>, steps: seq<Step>, i: nat, key: Key)
    requires Run(states, steps) && i < |steps| && Carries(steps[i], key) && !Trims(steps[i].call)
    requires steps[i].read < |states| && ReplyAt(states, steps, i).Answered?
    ensures ReplyAt(states, steps, i).response.OrderView?
    ensures ReplyAt(states, steps, i).response.id == steps[i].call.id <==> SeesOwnOrder(states, steps[i], key)
  {
    if key in states[steps[i].read].keys {
      SeenRowAnswers(states, steps, i, key);
      var m := RowShowsAnOrder(states, steps, steps[i].read, key);
    } else {
      FreshAnswerIsOfItsOrder(states, steps, i, key);
    }
  }

  lemma FreshAnswerShowsTheOrder(read: Db, seen: Seen, db: Db, ctx: Context, call: Call, env: Env, picked: Id)
    requires IsChange(call) && KeyOf(ctx, call).Some? && KeyOf(ctx, call).value !in read.keys
    ensures var (db', reply) := Serve(read, seen, db, ctx, call, env, picked);
      reply.Answered? ==> call.id in db'.orders && reply.response == OrderView(call.id, db'.orders[call.id])
  {
  }

  /** The exact condition for two answers to one status change or close to agree: they show the same
      version of the same order. */
  lemma ChangeAnswersAgreeExactlyWhen(states: seq<Db>, steps: seq<Step>, i: nat, j: nat, key: Key)
    requires Run(states, steps) && i < |steps| && j < |steps| && Carries(steps[i], key) && Carries(steps[j], key)
    requires steps[i].read < |states| && steps[j].read < |states| && IsChange(steps[i].call) && IsChange(steps[j].call)
    requires ReplyAt(states, steps, i).Answered? && ReplyAt(states, steps, j).Answered?
    ensures ReplyAt(states, steps, i).response == ReplyAt(states, steps, j).response <==>
            Shown(states, steps, i, key) == Shown(states, steps, j, key)
  {
    var m := AnswerShows(states, steps, i, key);
    var n := AnswerShows(states, steps, j, key);
    var a, b := ReplyAt(states, steps, i).response, ReplyAt(states, steps, j).response;
    if a.id == b.id && a.order.version == b.order.version {
      if m <= n {
        Theorems.VersionIsAFaithfulStamp(states, steps, m, n, a.id);
      } else {
        Theorems.VersionIsAFaithfulStamp(states, steps, n, m, a.id);
      }
    }
  }

  lemma FreshAnswerAt(states: seq<Db>, steps: seq<Step>, i: nat, key: Key)
    requires Run(states, steps) && i < |steps| && Carries(steps[i], key) && steps[i].read < |states| &&
             IsChange(steps[i].call)
    requires ReplyAt(states, steps, i).Answered? && key !in states[steps[i].read].keys
    ensures steps[i].call.id in states[i + 1].orders
    ensures ReplyAt(states, steps, i).response == OrderView(steps[i].call.id, states[i + 1].orders[steps[i].call.id])
  {
    var s := steps[i];
    assert StepsTo(states, s, i);
    FreshAnswerShowsTheOrder(states[s.read], SeenAt(states, s.sight), states[i], s.ctx, s.call, s.env, s.picked);
  }

  /** A committed change is answered with the order it leaves. */
  lemma CommitAnswers(states: seq<Db>, steps: seq<Step>, i: nat, key: Key)
    requires Run(states, steps) && i < |steps| && Carries(steps[i], key) && IsChange(steps[i].call)
    requires Business(states[i + 1]) != Business(states[i])
    ensures ReplyAt(states, steps, i).Answered? && steps[i].call.id in states[i + 1].orders
    ensures ReplyAt(states, steps, i).response == OrderView(steps[i].call.id, states[i + 1].orders[steps[i].call.id])
  {
    assert StepsTo(states, steps[i], i);
    ChangeInsertsKey(states, steps, i, key);
    KeyFacts(states, steps, steps[i].read, i);
    FreshAnswerAt(states, steps, i, key);
  }

  /** A retry of a committed status change or close gets the committed response exactly when its lookup
      sees the key, or nothing has happened to the order since. */
  lemma RetryAgreesExactlyWhen(states: seq<Db>, steps: seq<Step>, i: nat, j: nat, key: Key)
    requires Run(states, steps) && i < j < |steps| && Carries(steps[i], key) && Carries(steps[j], key)
    requires steps[j].read < |states| && steps[i].call == steps[j].call && IsChange(steps[i].call)
    requires Business(states[i + 1]) != Business(states[i]) && ReplyAt(states, steps, j).Answered?
    ensures steps[i].call.id in states[i + 1].orders && steps[i].call.id in states[j].orders
    ensures ReplyAt(states, steps, i).Answered?
    ensures var id := steps[i].call.id;
      ReplyAt(states, steps, i).response == ReplyAt(states, steps, j).response <==>
      key in states[steps[j].read].keys || states[j].orders[id].version == states[i + 1].orders[id].version
  {
    var id := steps[i].call.id;
    CommitAnswers(states, steps, i, key);
    Theorems.LifecycleIsMonotone(states, steps, i + 1, j, id);
    if key in states[steps[j].read].keys {
      SeenRowIsTheCommitted(states, steps, i, j, key);
    } else {
      RetryLeavesTheOrder(states, steps, i, j, key);
      FreshAnswerAt(states, steps, j, key);
      if states[j].orders[id].version == states[i + 1].orders[id].version {
        Theorems.VersionIsAFaithfulStamp(states, steps, i + 1, j, id);
      }
    }
  }

  lemma RetryLeavesTheOrder(states: seq<Db>, steps: seq<Step>, i: nat, j: nat, key: Key)
    requires Run(states, steps) && i < j < |steps| && Carries(steps[i], key) && Carries(steps[j], key)
    requires Business(states[i + 1]) != Business(states[i])
    ensures states[j + 1].orders == states[j].orders
  {
    KeyCommitsAtMostOnce(states, steps, i, j, key);
    assert Business(states[j + 1]).orders == Business(states[j]).orders;
  }

  lemma SeenIsNotIdle(states: seq<Db>, steps: seq<Step>, i: nat, key: Key)
    requires i < |steps| && i + 1 < |states| && Carries(steps[i], key) && steps[i].read < |states|
    requires key in states[steps[i].read].keys
    ensures !Idle(states, steps, i, key)
  {
  }

  lemma CommittedIsNotIdle(states: seq<Db>, steps: seq<Step>, i: nat, key: Key)
    requires i < |steps| && i + 1 < |states| && Carries(steps[i], key) && steps[i].read < |states|
    requires Business(states[i + 1]) != Business(states[i])
    ensures !Idle(states, steps, i, key)
  {
  }

  lemma SeenRowIsTheCommitted(states: seq<Db>, steps: seq<Step>, i: nat, j: nat, key: Key)
    requires Run(states, steps) && i < j < |steps| && Carries(steps[i], key) && Carries(steps[j], key)
    requires steps[j].read < |states| && steps[i].call == steps[j].call && IsChange(steps[i].call)
    requires Business(states[i + 1]) != Business(states[i]) && ReplyAt(states, steps, j).Answered?
    requires key in states[steps[j].read].keys
    ensures ReplyAt(states, steps, i).Answered? &&
            ReplyAt(states, steps, i).response == ReplyAt(states, steps, j).response
  {
    hide *;
    RunLength(states, steps);
    SeenIsNotIdle(states, steps, j, key);
    OneShotAt(states, steps, i, key);
    CommittedIsNotIdle(states, steps, i, key);
    ChangeInsertsKey(states, steps, i, key);
    AnswerIsTheRow(states, steps, i, key);
    AnswerIsTheRow(states, steps, j, key);
    RowsAgree(states, steps, i + 1, j + 1, key);
  }
}
