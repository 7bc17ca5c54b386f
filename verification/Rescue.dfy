/** The other half of the defect: a queued entry that some queued creation serves can still be sent.
    Together with Stranded this is the exact condition. */
module Rescue {
  import opened Outcomes
  import opened Financial
  import opened Schema
  import opened Handlers
  import opened Integrity
  import opened Runs
  import opened Idempotency
  import opened Queue
  import opened Paths
  import opened EndToEnd
  import opened Exchange
  import opened Client
  import opened Histories
  import opened Stranded
  import Sendable
  import Sync
  import Text

  /** Some continuation has a pass that sends the entry. */
  ghost predicate SomeHistorySends(sys: System, a: Ident) {
    exists later, p ::
      && Leads(sys, later) && later.states != []
      && Possible(Last(later.states).keys, later.dev, Dispatch(p)) && IdentOf(Current(later.dev, p)) == a
  }

  // ----- a server identifier not used yet -----

  function LongId(n: nat): string {
    if n == 0 then "a" else "a" + LongId(n - 1)
  }

  lemma {:induction false} LongIdIsReal(n: nat)
    ensures IsRealId(LongId(n)) && |LongId(n)| == n + 1
  {
    if n > 0 {
      LongIdIsReal(n - 1);
    }
  }

  lemma {:induction false} LengthBound(ids: set<string>) returns (bound: nat)
    ensures forall id :: id in ids ==> |id| <= bound
  {
    if ids == {} {
      bound := 0;
    } else {
      var id :| id in ids;
      var rest := LengthBound(ids - {id});
      bound := if rest < |id| then |id| else rest;
    }
  }

  lemma FreshRealId(db: Db) returns (id: Id)
    ensures IsRealId(id) && id !in db.orders && id !in db.charges
  {
    var bound := LengthBound(db.orders.Keys + db.charges.Keys);
    id := LongId(bound);
    LongIdIsReal(bound);
    assert id !in db.orders.Keys + db.charges.Keys;
  }

  // ----- one pass, entry by entry -----

  /** Pass 0 is about to look at its n-th entry. */
  ghost predicate Walking(sys: System, pending: Entries, now: Time, n: nat) {
    && sys.states != [] && Good(sys)
    && 0 in sys.dev.passes
    && var pass := sys.dev.passes[0];
    && pass.pending == pending && pass.now == now && pass.pos == n && pass.stage == Ready
  }

  lemma LocalStep(sys: System, e: Local) returns (sys': System)
    requires sys.states != [] && Good(sys) && Possible(Last(sys.states).keys, sys.dev, e)
    ensures sys' == sys.(dev := After(Last(sys.states).keys, sys.dev, e))
    ensures Leads(sys, sys') && Good(sys')
  {
    sys' := sys.(dev := After(Last(sys.states).keys, sys.dev, e));
    LeadsToItself(sys);
    LeadsLocally(sys, sys, e);
    NextKeeps(sys, Here(e));
  }

  lemma SendingPass(keys: Keys, dev: Device, p: nat)
    requires Possible(keys, dev, Dispatch(p))
    ensures var w := ReplayWire(Current(dev, p), VerdictFor(dev, p).path);
      After(keys, dev, Dispatch(p)).passes == dev.passes[p := dev.passes[p].(stage := InFlight(w))]
  {
  }

  const MISHAP: Local := Failing(0, Sync.OtherError, 0)

  lemma FailingPass(keys: Keys, dev: Device)
    requires Underway(dev, 0) && dev.passes[0].stage.InFlight?
    ensures Possible(keys, dev, MISHAP)
    ensures After(keys, dev, MISHAP).passes == dev.passes[0 := Moved(dev.passes[0])]
  {
  }

  lemma ConfirmingPass(keys: Keys, dev: Device, p: nat, response: Response, replayed: bool)
    requires Possible(keys, dev, Confirm(p, response, replayed)) && IdIn(response).Some? && Current(dev, p).temp.Some?
    ensures After(keys, dev, Confirm(p, response, replayed)).passes == dev.passes[p :=
              dev.passes[p].(temps := dev.passes[p].temps[Current(dev, p).temp.value := IdIn(response).value],
                             stage := Confirmed(dev.passes[p].stage.wire))]
  {
  }

  lemma SendAndFail(sys: System, pending: Entries, now: Time, n: nat) returns (sys': System)
    requires Walking(sys, pending, now, n) && n < |pending| && VerdictFor(sys.dev, 0).Send?
    ensures Leads(sys, sys') && Walking(sys', pending, now, n + 1)
    ensures sys'.dev.passes[0].temps == sys.dev.passes[0].temps
  {
    SendingPass(Last(sys.states).keys, sys.dev, 0);
    var sent := LocalStep(sys, Dispatch(0));
    FailingPass(Last(sent.states).keys, sent.dev);
    sys' := LocalStep(sent, MISHAP);
    LeadsTransitive(sys, sent, sys');
  }

  /** An entry is left behind: passed over, or sent to an error that ends nothing. */
  lemma StepOver(sys: System, pending: Entries, now: Time, n: nat) returns (sys': System)
    requires Walking(sys, pending, now, n) && n < |pending|
    ensures Leads(sys, sys') && Walking(sys', pending, now, n + 1)
    ensures sys'.dev.passes[0].temps == sys.dev.passes[0].temps
  {
    if VerdictFor(sys.dev, 0).Send? {
      sys' := SendAndFail(sys, pending, now, n);
    } else {
      sys' := LocalStep(sys, PassOver(0));
    }
  }

  lemma {:induction false} WalkTo(sys: System, pending: Entries, now: Time, n: nat, goal: nat) returns (sys': System)
    requires Walking(sys, pending, now, n) && n <= goal <= |pending|
    ensures Leads(sys, sys') && Walking(sys', pending, now, goal)
    ensures sys'.dev.passes[0].temps == sys.dev.passes[0].temps
    decreases goal - n
  {
    if n == goal {
      sys' := sys;
      LeadsToItself(sys);
    } else {
      var next := StepOver(sys, pending, now, n);
      sys' := WalkTo(next, pending, now, n + 1, goal);
      LeadsTransitive(sys, next, sys');
    }
  }

  // ----- the creation is answered -----

  /** The server answers an acceptable creation, for the first time or again. */
  lemma CreationIsAnswered(db: Db, ctx: Context, body: CreateBody, env: Env)
    requires body.table.None? && Acceptable(CreatePayload(body)) && KeysCompleted(db.keys)
    requires Text.Trim(ctx.header.GetOr("")) != ""
    requires var key := (ctx.tenant, Text.Trim(ctx.header.GetOr("")));
      key in db.keys ==> db.keys[key].hash == OfCall(ctx.tenant, ctx.user, CreateOrder(body))
    ensures ServeCreate(db, db, db, ctx, body, env).1.Answered?
  {
    SeatNeedsNoLookup(db, ctx.tenant, body);
  }

  lemma CreationWireRoutes(issued: Issued, keys: Keys, w: Wire)
    requires IssuedOk(issued) && WireOk(issued, keys, w) && w.body.CreatePayload?
    ensures Route(w.verb, w.path, w.body) == Some(CreateOrder(w.body.create))
    ensures w.body.create.table.None? && Text.Trim(w.key) == w.key != ""
  {
    var r := issued[w.key];
    assert RequestOk(issued, w.key, r);
    RouteOfRender(Orders, w.body);
    assert forall id :: Retarget(r.target, id) == r.target;
  }

  /** A creation in flight can be delivered and answered. */
  lemma DeliverCreation(sys: System, w: Wire) returns (sys': System, response: Response, replayed: bool)
    requires sys.states != [] && Good(sys) && w in sys.dev.wires && Acceptable(w.body)
    ensures Leads(sys, sys') && sys'.states != [] && Good(sys')
    ensures sys'.dev == sys.dev.(replies := sys.dev.replies + {(w, FromApi(Answered(response, replayed)))})
  {
    hide Leads, RepliesOk, EntriesOk, PassesOk, AcceptedOk, DependentsOk, DroppedOk;
    var db, issued := Last(sys.states), sys.dev.issued;
    assert WireOk(issued, db.keys, w) && RowOk(sys.states, sys.steps, issued, w.key);
    CreationWireRoutes(issued, db.keys, w);
    var newId := FreshRealId(db);
    var last, env := |sys.states| - 1, Env(newId, 0, "", "");
    var e := Deliver(w, last, AllAt(last), Manager, env, "");
    LeadsToItself(sys);
    LeadsOn(sys, sys, e);
    NextKeeps(sys, e);
    KeyFacts(sys.states, sys.steps, last, last);
    CreationIsAnswered(db, Context(w.tenant, Some(w.user), Manager, Some(w.key)), w.body.create, env);
    sys' := Next(sys, e);
    var reply := ReplyTo(sys.states, StepFor(w, CreateOrder(w.body.create), last, AllAt(last), Manager, env, ""));
    response, replayed := reply.response, reply.replayed;
  }

  /** Pass 0 has sent its n-th entry and awaits the answer. */
  ghost predicate Awaiting(sys: System, pending: Entries, now: Time, n: nat) {
    && sys.states != [] && Good(sys)
    && 0 in sys.dev.passes && n < |pending|
    && var pass := sys.dev.passes[0];
    && pass.pending == pending && pass.now == now && pass.pos == n
    && pass.stage == InFlight(ReplayWire(pending[n], pending[n].path))
    && ReplayWire(pending[n], pending[n].path) in sys.dev.wires
  }

  lemma SendFree(sys: System, pending: Entries, now: Time, n: nat) returns (sys': System)
    requires Walking(sys, pending, now, n) && n < |pending| && Sendable.AllDue(pending, now)
    requires pending[n].dependsOn.None?
    ensures Leads(sys, sys') && Awaiting(sys', pending, now, n)
  {
    assert pending[n] in pending && VerdictFor(sys.dev, 0) == Sync.Send(pending[n].path);
    sys' := LocalStep(sys, Dispatch(0));
  }

  lemma ConfirmAnswer(
      sys: System, pending: Entries, now: Time, n: nat, response: Response, replayed: bool) returns (sys': System)
    requires Awaiting(sys, pending, now, n) && pending[n].temp.Some?
    requires (ReplayWire(pending[n], pending[n].path), FromApi(Answered(response, replayed))) in sys.dev.replies
    ensures Leads(sys, sys') && sys'.states != [] && Good(sys') && 0 in sys'.dev.passes
    ensures var pass := sys'.dev.passes[0];
      && pass.pending == pending && pass.now == now && pass.pos == n && pass.stage.Confirmed?
      && pending[n].temp.value in pass.temps
  {
    var confirm := Confirm(0, response, replayed);
    AnswerResolves(sys.states, sys.steps, sys.dev, confirm);
    ConfirmingPass(Last(sys.states).keys, sys.dev, 0, response, replayed);
    sys' := LocalStep(sys, confirm);
  }

  lemma LearnOrder(
      sys: System, pending: Entries, now: Time, n: nat, response: Response, replayed: bool) returns (sys': System)
    requires Awaiting(sys, pending, now, n) && pending[n].temp.Some?
    requires (ReplayWire(pending[n], pending[n].path), FromApi(Answered(response, replayed))) in sys.dev.replies
    ensures Leads(sys, sys') && Walking(sys', pending, now, n + 1)
    ensures pending[n].temp.value in sys'.dev.passes[0].temps
  {
    var confirmed := ConfirmAnswer(sys, pending, now, n, response, replayed);
    sys' := LocalStep(confirmed, Drop(0));
    LeadsTransitive(sys, confirmed, sys');
  }

  /** A pass at an acceptable creation can learn its order. */
  lemma Create(sys: System, pending: Entries, now: Time, n: nat) returns (sys': System)
    requires Walking(sys, pending, now, n) && n < |pending| && Sendable.AllDue(pending, now)
    requires pending[n].temp.Some? && pending[n].dependsOn.None? && Acceptable(pending[n].body)
    ensures Leads(sys, sys') && Walking(sys', pending, now, n + 1)
    ensures pending[n].temp.value in sys'.dev.passes[0].temps
  {
    var sent := SendFree(sys, pending, now, n);
    var answered, response, replayed := DeliverCreation(sent, ReplayWire(pending[n], pending[n].path));
    sys' := LearnOrder(answered, pending, now, n, response, replayed);
    LeadsTransitive(sys, sent, answered);
    LeadsTransitive(sys, answered, sys');
  }

  // ----- a whole rescue -----

  /** A pass over these entries, the creation before the entry that waits for it. */
  lemma PassRescues(sys: System, m: Mutation, pending: Entries, i: nat, j: nat)
    requires sys.states != [] && Good(sys) && 0 !in sys.dev.passes
    requires IsPendingList(sys.dev.queue, m.tenant, m.user, pending) && i < j < |pending| && pending[j] == m
    requires m.dependsOn.Some? && pending[i].temp == m.dependsOn && pending[i].dependsOn.None? &&
             Acceptable(pending[i].body)
    ensures SomeHistorySends(sys, IdentOf(m))
  {
    hide Good, IsPendingList, Leads;
    var now := Sendable.LatestAttempt(pending);
    Sendable.AllDueEventually(pending);
    var begun := LocalStep(sys, Begin(0, m.tenant, m.user, pending, now));
    var before := WalkTo(begun, pending, now, 0, i);
    var created := Create(before, pending, now, i);
    var there := WalkTo(created, pending, now, i + 1, j);
    LeadsTransitive(sys, begun, before);
    LeadsTransitive(sys, before, created);
    LeadsTransitive(sys, created, there);
    assert m in pending && Current(there.dev, 0) == m && VerdictFor(there.dev, 0).Send?;
    assert Possible(Last(there.states).keys, there.dev, Dispatch(0));
  }

  lemma RecoveredIsPending(keys: Keys, dev: Device, a: Ident) returns (m: Mutation)
    requires Tidy(keys, dev) && a in Idents(dev.queue)
    ensures m in Recovered(dev.queue) && IdentOf(m) == a && IsPendingFor(m, m.tenant, m.user)
  {
    var i :| 0 <= i < |dev.queue| && Idents(dev.queue)[i] == a;
    assert EntryOk(dev.issued, keys, dev.accepted, dev.queue[i]);
    m := Recovered(dev.queue)[i];
  }

  /** After a restart both entries are offered to a pass. */
  lemma ServingPair(keys: Keys, dev: Device, a: Ident) returns (c: Mutation, m: Mutation)
    requires Tidy(keys, dev) && a in Idents(dev.queue) && a.dependsOn.Some? && IsServed(Idents(dev.queue), a)
    ensures m in Selected(Recovered(dev.queue), m.tenant, m.user) && IdentOf(m) == a
    ensures c in Selected(Recovered(dev.queue), m.tenant, m.user) && Serves(IdentOf(c), a)
    ensures c.dependsOn.None? && c != m
  {
    var n :| 0 <= n < |dev.queue| && Serves(Idents(dev.queue)[n], a);
    m := RecoveredIsPending(keys, dev, a);
    c := RecoveredIsPending(keys, dev, Idents(dev.queue)[n]);
    KeptMembers(dev.accepted, dev.dropped, IdentOf(c));
    assert IdentOk(dev.issued, IdentOf(c)) && RequestOk(dev.issued, c.key, dev.issued[c.key]);
    SelectedMembers(Recovered(dev.queue), m.tenant, m.user, m);
    SelectedMembers(Recovered(dev.queue), m.tenant, m.user, c);
  }

  lemma ServedIsRescued(sys: System, a: Ident)
    requires sys.states != [] && Good(sys) && a in Idents(sys.dev.queue) && a.dependsOn.Some?
    requires IsServed(Idents(sys.dev.queue), a)
    ensures SomeHistorySends(sys, a)
  {
    var c, m := ServingPair(Last(sys.states).keys, sys.dev, a);
    var restarted := LocalStep(sys, Restart);
    var pending, i, j := Sendable.CreationCanComeFirst(restarted.dev.queue, c, m);
    PassRescues(restarted, m, pending, i, j);
    SentLater(sys, restarted, a);
  }

  lemma SentLater(sys: System, next: System, a: Ident)
    requires Leads(sys, next) && SomeHistorySends(next, a)
    ensures SomeHistorySends(sys, a)
  {
    var later, p :|
      && Leads(next, later) && later.states != []
      && Possible(Last(later.states).keys, later.dev, Dispatch(p)) && IdentOf(Current(later.dev, p)) == a;
    LeadsTransitive(sys, next, later);
  }

  lemma LeadsToStranded(sys: System, later: System, a: Ident, t: Id)
    requires Leads(sys, later) && GoodAndStranded(sys, a, t)
    ensures GoodAndStranded(later, a, t)
  {
    var trace, events :| History(trace, events) && trace[0] == sys && trace[|trace| - 1] == later;
    StrandedForever(trace, events, |trace| - 1, a, t);
  }

  lemma StrandedIsNotRescued(sys: System, a: Ident, t: Id)
    requires GoodAndStranded(sys, a, t)
    ensures !SomeHistorySends(sys, a)
  {
    forall later, p |
      Leads(sys, later) && later.states != [] && Possible(Last(later.states).keys, later.dev, Dispatch(p))
      ensures IdentOf(Current(later.dev, p)) != a
    {
      LeadsToStranded(sys, later, a, t);
      StrandedIsNotSent(Last(later.states).keys, later.dev, a, t, p);
    }
  }

  /** The exact condition, in every reachable system without a running pass, for a queued entry that
      waits for an order ever to be sent again: the queue still holds a creation of that order, by the
      same owner, not younger, that the server accepts. */
  lemma SentAgainExactlyWhen(sys: System, a: Ident)
    requires Reaches(sys) && sys.dev.passes == map[] && a in Idents(sys.dev.queue) && a.dependsOn.Some?
    ensures SomeHistorySends(sys, a) <==> IsServed(Idents(sys.dev.queue), a)
  {
    ReachedIsGood(sys);
    if IsServed(Idents(sys.dev.queue), a) {
      ServedIsRescued(sys, a);
    } else {
      StrandedIsNotRescued(sys, a, a.dependsOn.value);
    }
  }
}
