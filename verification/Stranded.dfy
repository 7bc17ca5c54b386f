/** A defect of the queue: copyWith cannot clear a dependency, and a pass forgets the identifiers it
    learned when it ends. An entry that no queued creation can serve is never sent again. */
module Stranded {
  import opened Outcomes
  import opened Schema
  import opened Handlers
  import opened Runs
  import opened Idempotency
  import opened Queue
  import opened Interceptor
  import opened EndToEnd
  import opened Exchange
  import opened Client
  import opened Guarantees
  import Sync
  import Text

  /** The server accepts such a creation: it has a label, or a type that needs none. */
  predicate Acceptable(body: Payload) {
    && body.CreatePayload?
    && (body.create.orderType.GetOr(TableService) != TableService || Text.Trim(body.create.tableLabel.GetOr("")) != "")
  }

  /** Entry `c` creates the order that `a` waits for, a pass of the owner of `a` may visit it before
      `a`, and the server accepts it. */
  predicate Serves(c: Ident, a: Ident) {
    && c.temp.Some? && c.temp == a.dependsOn
    && c.tenant == a.tenant && c.user == a.user
    && c.createdAt <= a.createdAt
    && Acceptable(c.body)
  }

  predicate IsServed(queue: seq<Ident>, a: Ident) {
    exists i :: 0 <= i < |queue| && Serves(queue[i], a)
  }

  /** Where the pass may come to entry `a`: it has not sent it, does not know the order and will not
      learn it before. */
  predicate UnawareAt(pass: Pass, a: Ident, t: Id, i: nat) {
    pass.pos <= i < |pass.pending| && IdentOf(pass.pending[i]) == a ==>
      && t !in pass.temps
      && (forall j :: pass.pos <= j < i && pass.pending[j].temp == Some(t) ==> !Acceptable(pass.pending[j].body))
      && (i == pass.pos ==> pass.stage.Ready?)
  }

  ghost predicate Unaware(pass: Pass, a: Ident, t: Id) {
    forall i: nat :: UnawareAt(pass, a, t, i)
  }

  ghost predicate AllUnaware(passes: map<nat, Pass>, a: Ident, t: Id) {
    forall p :: p in passes ==> Unaware(passes[p], a, t)
  }

  /** The entry is queued, and no queued creation serves it. */
  predicate IsLeftBehind(dev: Device, a: Ident, t: Id) {
    && a in Idents(dev.queue) && a.dependsOn == Some(t)
    && !IsServed(Idents(dev.queue), a)
  }

  ghost predicate IsStranded(dev: Device, a: Ident, t: Id) {
    IsLeftBehind(dev, a, t) && AllUnaware(dev.passes, a, t)
  }

  // ----- what the server accepts -----

  lemma SeatNeedsNoLookup(db: Db, tenant: Id, body: CreateBody)
    requires body.table.None?
    ensures ReadSeat(db, tenant, body).Ok? <==> Acceptable(CreatePayload(body))
    ensures ReadSeat(db, tenant, body).Ok? ==> ReadSeat(db, tenant, body).value.table.None?
  {
  }

  lemma RefusedSeatChangesNothing(read: Db, look: Db, db: Db, ctx: Context, body: CreateBody, env: Env)
    ensures Business(ServeCreate(read, look, db, ctx, body, env).0) != Business(db) ==>
              ReadSeat(look, ctx.tenant, body).Ok?
  {
  }

  lemma CommittedSeatIsOk(states: seq<Db>, steps: seq<Step>, i: nat, body: CreateBody)
    requires Run(states, steps) && i < |steps| && steps[i].Api? && steps[i].call == CreateOrder(body)
    requires Business(states[i + 1]) != Business(states[i])
    ensures exists db, tenant :: ReadSeat(db, tenant, body).Ok?
  {
    var s := steps[i];
    assert StepsTo(states, s, i);
    RefusedSeatChangesNothing(states[s.read], states[s.sight.look], states[i], s.ctx, body, s.env);
  }

  /** A creation that was ever answered 2xx is one the server accepts. */
  lemma RememberedCreationIsAcceptable(sys: System, k: string)
    requires sys.states != [] && Good(sys) && k in sys.dev.issued && sys.dev.issued[k].body.CreatePayload?
    requires KeyIn(sys.dev, k) in Last(sys.states).keys
    ensures Acceptable(sys.dev.issued[k].body)
  {
    hide Run, RepliesOk, WiresOk, AcceptedOk, EntriesOk, PassesOk, DependentsOk, DroppedOk;
    var states, steps, key, r := sys.states, sys.steps, KeyIn(sys.dev, k), sys.dev.issued[k];
    assert RowOk(states, steps, sys.dev.issued, k) && RequestOk(sys.dev.issued, k, r);
    var i: nat :| CommitsAt(states, steps, i, key);
    CommitStores(states, steps, i, key);
    assert steps[i].call == CreateOrder(r.body.create);
    CommittedSeatIsOk(states, steps, i, r.body.create);
    var db, tenant :| ReadSeat(db, tenant, r.body.create).Ok?;
    SeatNeedsNoLookup(db, tenant, r.body.create);
  }

  /** What a pass learns an order from is acceptable. */
  predicate LearnsAcceptable(dev: Device, e: Local) {
    e.Confirm? && Underway(dev, e.pass) && Current(dev, e.pass).temp.Some? ==> Acceptable(Current(dev, e.pass).body)
  }

  lemma ConfirmedCreationIsAcceptable(sys: System, e: Local)
    requires sys.states != [] && Good(sys) && Possible(Last(sys.states).keys, sys.dev, e)
    ensures LearnsAcceptable(sys.dev, e)
  {
    if e.Confirm? && Current(sys.dev, e.pass).temp.Some? {
      var m, w := Current(sys.dev, e.pass), sys.dev.passes[e.pass].stage.wire;
      var v := FromApi(Answered(e.response, e.replayed));
      CurrentFacts(Last(sys.states).keys, sys.dev, e.pass);
      assert RequestOk(sys.dev.issued, m.key, sys.dev.issued[m.key]);
      assert (w, v) in sys.dev.replies && ReplyOk(sys.states, w, v) && WireOk(sys.dev.issued, Last(sys.states).keys, w);
      AnswerIsStored(sys.states, sys.dev.issued, w, v);
      RememberedCreationIsAcceptable(sys, m.key);
    }
  }

  // ----- no event serves a stranded entry -----

  /** A queued entry is one request of the device, and its order's creation is not awaited any more. */
  lemma StrandedFacts(keys: Keys, dev: Device, a: Ident, t: Id)
    requires Tidy(keys, dev) && a in Idents(dev.queue) && a.dependsOn == Some(t)
    ensures a in dev.accepted && IdentOk(dev.issued, a) && a.temp.None?
    ensures forall k :: k in dev.awaiting && k in dev.issued ==> dev.issued[k].temp != Some(t)
    ensures IsIssuedTemp(dev.issued, t)
  {
    KeptMembers(dev.accepted, dev.dropped, a);
    assert IdentOk(dev.issued, a) && RequestOk(dev.issued, a.key, dev.issued[a.key]);
    var i :| 0 <= i < |dev.accepted| && dev.accepted[i].temp == Some(t);
    assert IdentOk(dev.issued, dev.accepted[i]);
    assert dev.accepted[i].key in dev.issued && dev.issued[dev.accepted[i].key].temp == Some(t);
  }

  /** A stranded entry is not sent. */
  lemma StrandedIsNotSent(keys: Keys, dev: Device, a: Ident, t: Id, p: nat)
    requires IsStranded(dev, a, t) && Possible(keys, dev, Dispatch(p))
    ensures IdentOf(Current(dev, p)) != a
  {
    assert UnawareAt(dev.passes[p], a, t, dev.passes[p].pos);
  }

  lemma NewPassIsUnaware(list: Entries, tenant: Id, user: Id, pending: Entries, now: Time, a: Ident, t: Id)
    requires IsPendingList(list, tenant, user, pending) && a.dependsOn == Some(t) && !IsServed(Idents(list), a)
    ensures Unaware(Pass(pending, 0, now, map[], Ready), a, t)
  {
    forall i: nat, j | j < i < |pending| && IdentOf(pending[i]) == a && 0 <= j && pending[j].temp == Some(t)
      ensures !Acceptable(pending[j].body)
    {
      PendingListMembers(list, tenant, user, pending, pending[i]);
      PendingListMembers(list, tenant, user, pending, pending[j]);
      var n :| 0 <= n < |list| && list[n] == pending[j];
      assert !Serves(Idents(list)[n], a);
    }
  }

  lemma MovingStaysUnaware(pass: Pass, a: Ident, t: Id)
    requires Unaware(pass, a, t)
    ensures Unaware(Moved(pass), a, t)
  {
    forall i: nat ensures UnawareAt(Moved(pass), a, t, i) {
      assert UnawareAt(pass, a, t, i);
    }
  }

  lemma SendingStaysUnaware(pass: Pass, a: Ident, t: Id, w: Wire)
    requires Unaware(pass, a, t) && pass.pos < |pass.pending| && IdentOf(pass.pending[pass.pos]) != a
    ensures Unaware(pass.(stage := InFlight(w)), a, t)
  {
    forall i: nat ensures UnawareAt(pass.(stage := InFlight(w)), a, t, i) {
      assert UnawareAt(pass, a, t, i);
    }
  }

  /** Learning from an acceptable creation leaves a pass unaware: it is not one that serves the entry. */
  lemma LearningStaysUnaware(pass: Pass, a: Ident, t: Id, o: Sync.Outcome, w: Wire)
    requires Unaware(pass, a, t) && pass.pos < |pass.pending| && pass.stage.InFlight? && a.temp.None?
    requires pass.pending[pass.pos].temp.Some? ==> Acceptable(pass.pending[pass.pos].body)
    ensures Unaware(pass.(temps := Sync.Learned(pass.temps, pass.pending[pass.pos], o), stage := Confirmed(w)), a, t)
  {
    var pass' := pass.(temps := Sync.Learned(pass.temps, pass.pending[pass.pos], o), stage := Confirmed(w));
    forall i: nat ensures UnawareAt(pass', a, t, i) {
      assert UnawareAt(pass, a, t, i);
    }
  }

  lemma UnawareReplaced(passes: map<nat, Pass>, p: nat, pass: Pass, a: Ident, t: Id)
    requires AllUnaware(passes, a, t) && Unaware(pass, a, t)
    ensures AllUnaware(passes[p := pass], a, t)
  {
  }

  lemma ActivePassStaysUnaware(keys: Keys, dev: Device, e: Local, a: Ident, t: Id)
    requires AllUnaware(dev.passes, a, t) && Possible(keys, dev, e) && a.temp.None? && LearnsAcceptable(dev, e)
    requires e.Dispatch? || e.Confirm?
    requires e.Dispatch? ==> IdentOf(Current(dev, e.pass)) != a
    ensures AllUnaware(After(keys, dev, e).passes, a, t)
  {
    var pass := dev.passes[e.pass];
    if e.Dispatch? {
      SendingStaysUnaware(pass, a, t, ReplayWire(Current(dev, e.pass), VerdictFor(dev, e.pass).path));
    } else {
      LearningStaysUnaware(pass, a, t, SuccessOf(e.response), pass.stage.wire);
    }
    UnawareReplaced(dev.passes, e.pass, After(keys, dev, e).passes[e.pass], a, t);
  }

  lemma MovedPassStaysUnaware(keys: Keys, dev: Device, e: Local, a: Ident, t: Id)
    requires AllUnaware(dev.passes, a, t) && Possible(keys, dev, e) && (e.PassOver? || e.Failing? || e.Drop?)
    ensures AllUnaware(After(keys, dev, e).passes, a, t)
  {
    MovingStaysUnaware(dev.passes[e.pass], a, t);
    UnawareReplaced(dev.passes, e.pass, Moved(dev.passes[e.pass]), a, t);
  }

  lemma QuietPassesStayUnaware(keys: Keys, dev: Device, e: Local, a: Ident, t: Id)
    requires AllUnaware(dev.passes, a, t) && Possible(keys, dev, e)
    requires e.Issue? || e.FirstAnswered? || e.FirstLost? || e.TurnAway? || e.Finish? || e.Restart?
    ensures AllUnaware(After(keys, dev, e).passes, a, t)
  {
  }

  lemma PassesStayUnaware(keys: Keys, dev: Device, e: Local, a: Ident, t: Id)
    requires IsStranded(dev, a, t) && Possible(keys, dev, e) && a.temp.None? && LearnsAcceptable(dev, e)
    ensures AllUnaware(After(keys, dev, e).passes, a, t)
  {
    if e.Begin? {
      NewPassIsUnaware(dev.queue, e.tenant, e.user, e.pending, e.now, a, t);
      UnawareReplaced(dev.passes, e.pass, Pass(e.pending, 0, e.now, map[], Ready), a, t);
    } else if e.Dispatch? {
      StrandedIsNotSent(keys, dev, a, t, e.pass);
      ActivePassStaysUnaware(keys, dev, e, a, t);
    } else if e.Confirm? {
      ActivePassStaysUnaware(keys, dev, e, a, t);
    } else if e.PassOver? || e.Failing? || e.Drop? {
      MovedPassStaysUnaware(keys, dev, e, a, t);
    } else {
      QuietPassesStayUnaware(keys, dev, e, a, t);
    }
  }

  /** The queue keeps its entries through every event but a first failure and a removal. */
  lemma IdentsStay(keys: Keys, dev: Device, e: Local)
    requires Possible(keys, dev, e) && !e.FirstLost? && !e.Drop? && !e.Failing?
    ensures Idents(After(keys, dev, e).queue) == Idents(dev.queue)
  {
  }

  lemma IdentsAfterFailure(keys: Keys, dev: Device, e: Local)
    requires Tidy(keys, dev) && Possible(keys, dev, e) && e.Failing?
    ensures Idents(After(keys, dev, e).queue) == Idents(dev.queue)
  {
    FailureKeepsWork(dev.queue, Current(dev, e.pass), e.outcome, e.at);
    SameWorkKeeps(dev.issued, keys, dev.accepted, dev.queue, After(keys, dev, e).queue);
  }

  lemma NewEntryServesNot(list: Entries, m: Mutation, a: Ident)
    requires a in Idents(list) && !IsServed(Idents(list), a) && m.temp != a.dependsOn
    ensures a in Idents(Enqueued(list, m)) && !IsServed(Idents(Enqueued(list, m)), a)
  {
    var idents, idents' := Idents(list), Idents(Enqueued(list, m));
    assert idents' == idents || idents' == idents + [IdentOf(m)];
    forall i | 0 <= i < |idents'| ensures !Serves(idents'[i], a) {
      if i < |idents| {
        assert idents'[i] == idents[i];
      }
    }
  }

  lemma FirstLostLeavesBehind(keys: Keys, dev: Device, e: Local, a: Ident, t: Id)
    requires Tidy(keys, dev) && IsLeftBehind(dev, a, t) && Possible(keys, dev, e) && e.FirstLost?
    ensures IsLeftBehind(After(keys, dev, e), a, t)
  {
    StrandedFacts(keys, dev, a, t);
    var lost := LostRequest(e.key, dev.issued[e.key]);
    if IsQueued(lost) {
      NewEntryServesNot(dev.queue, EntryOf(lost, e.clock), a);
    }
  }

  lemma {:induction false} WithoutMembers(idents: seq<Ident>, id: MutationId, a: Ident)
    ensures a in Without(idents, id) <==> a in idents && a.id != id
  {
    if idents != [] {
      WithoutMembers(idents[..|idents| - 1], id, a);
      assert idents == idents[..|idents| - 1] + [idents[|idents| - 1]];
    }
  }

  lemma WithoutStaysUnserved(idents: seq<Ident>, id: MutationId, a: Ident)
    requires a in idents && a.id != id && !IsServed(idents, a)
    ensures a in Without(idents, id) && !IsServed(Without(idents, id), a)
  {
    hide Serves, Without;
    WithoutMembers(idents, id, a);
    forall i | 0 <= i < |Without(idents, id)| ensures !Serves(Without(idents, id)[i], a) {
      WithoutMembers(idents, id, Without(idents, id)[i]);
    }
  }

  /** The pass has not sent the stranded entry, so it is another one that is dropped. */
  lemma DroppedIsAnother(keys: Keys, dev: Device, p: nat, a: Ident, t: Id)
    requires Tidy(keys, dev) && IsStranded(dev, a, t) && Underway(dev, p) && dev.passes[p].stage.Confirmed?
    ensures Current(dev, p).id != a.id
  {
    hide PassOk, PathFits, IdentOk, IsServed;
    var m := Current(dev, p);
    assert UnawareAt(dev.passes[p], a, t, dev.passes[p].pos);
    CurrentFacts(keys, dev, p);
    StrandedFacts(keys, dev, a, t);
    SameKeySameIdent(dev.issued, dev.awaiting, dev.accepted, a, IdentOf(m));
  }

  lemma DropLeavesBehind(keys: Keys, dev: Device, e: Local, a: Ident, t: Id)
    requires Tidy(keys, dev) && IsStranded(dev, a, t) && Possible(keys, dev, e) && e.Drop?
    ensures IsLeftBehind(After(keys, dev, e), a, t)
  {
    hide AllUnaware, IsServed, Without, EntryOk;
    var m := Current(dev, e.pass);
    DroppedIsAnother(keys, dev, e.pass, a, t);
    RemovedKeeps(dev.issued, keys, dev.accepted, dev.queue, m.id);
    WithoutStaysUnserved(Idents(dev.queue), m.id, a);
  }

  lemma StrandedStays(keys: Keys, dev: Device, e: Local, a: Ident, t: Id)
    requires Tidy(keys, dev) && IsStranded(dev, a, t) && Possible(keys, dev, e) && LearnsAcceptable(dev, e)
    ensures IsStranded(After(keys, dev, e), a, t)
  {
    StrandedFacts(keys, dev, a, t);
    PassesStayUnaware(keys, dev, e, a, t);
    if e.Drop? {
      DropLeavesBehind(keys, dev, e, a, t);
    } else if e.FirstLost? {
      FirstLostLeavesBehind(keys, dev, e, a, t);
    } else if e.Failing? {
      IdentsAfterFailure(keys, dev, e);
    } else {
      IdentsStay(keys, dev, e);
    }
  }

  lemma StrandedNext(sys: System, e: Event, a: Ident, t: Id)
    requires sys.states != [] && Good(sys) && EndToEnd.Enabled(sys, e) && IsStranded(sys.dev, a, t)
    ensures Next(sys, e).states != [] && Good(Next(sys, e)) && IsStranded(Next(sys, e).dev, a, t)
  {
    NextKeeps(sys, e);
    if e.Here? {
      ConfirmedCreationIsAcceptable(sys, e.event);
      StrandedStays(Last(sys.states).keys, sys.dev, e.event, a, t);
    }
  }

  ghost predicate GoodAndStranded(sys: System, a: Ident, t: Id) {
    sys.states != [] && Good(sys) && IsStranded(sys.dev, a, t)
  }

  lemma StrandedAfter(trace: seq<System>, events: seq<Event>, i: nat, a: Ident, t: Id)
    requires History(trace, events) && i + 1 < |trace| && GoodAndStranded(trace[i], a, t)
    ensures GoodAndStranded(trace[i + 1], a, t)
  {
    assert Happens(trace, events[i], i);
    StrandedNext(trace[i], events[i], a, t);
  }

  /** Once stranded, always stranded: whatever happens from such a state on, the entry stays queued and
      nothing serves it. */
  lemma {:induction false} StrandedForever(trace: seq<System>, events: seq<Event>, j: nat, a: Ident, t: Id)
    requires History(trace, events) && j < |trace| && GoodAndStranded(trace[0], a, t)
    ensures GoodAndStranded(trace[j], a, t)
    decreases j
  {
    hide *;
    if j > 0 {
      StrandedForever(trace, events, j - 1, a, t);
      StrandedAfter(trace, events, j - 1, a, t);
    }
  }

  /** The event is a pass sending entry `a`. */
  predicate SendsEntry(dev: Device, e: Event, a: Ident) {
    e.Here? && e.event.Dispatch? && Underway(dev, e.event.pass) && IdentOf(Current(dev, e.event.pass)) == a
  }

  /** And no pass ever sends it. */
  lemma StrandedIsNeverSent(trace: seq<System>, events: seq<Event>, j: nat, a: Ident, t: Id)
    requires History(trace, events) && j < |events|
    requires GoodAndStranded(trace[0], a, t)
    ensures !SendsEntry(trace[j].dev, events[j], a)
  {
    StrandedForever(trace, events, j, a, t);
    assert Happens(trace, events[j], j);
    if events[j].Here? && events[j].event.Dispatch? {
      StrandedIsNotSent(Last(trace[j].states).keys, trace[j].dev, a, t, events[j].event.pass);
    }
  }

  // ----- how it happens -----

  /** The creation that the temporary identifier stands for was answered and dropped. */
  predicate CreationDropped(dev: Device, t: Id) {
    exists p :: p in dev.dropped && p in dev.issued && dev.issued[p].temp == Some(t)
  }

  /** An entry whose creation was dropped is left behind. */
  lemma DroppedCreationServesNoMore(keys: Keys, dev: Device, a: Ident, t: Id)
    requires Tidy(keys, dev) && CreationDropped(dev, t) && a in Idents(dev.queue) && a.dependsOn == Some(t)
    ensures IsLeftBehind(dev, a, t)
  {
    var p :| p in dev.dropped && p in dev.issued && dev.issued[p].temp == Some(t);
    forall i | 0 <= i < |Idents(dev.queue)| ensures !Serves(Idents(dev.queue)[i], a) {
      var c := Idents(dev.queue)[i];
      KeptMembers(dev.accepted, dev.dropped, c);
      assert IdentOk(dev.issued, c);
    }
  }

  /** A restart strands every entry that no queued creation serves. */
  lemma RestartStrands(keys: Keys, dev: Device, a: Ident, t: Id)
    requires IsLeftBehind(dev, a, t)
    ensures IsStranded(After(keys, dev, Restart), a, t)
  {
    IdentsStay(keys, dev, Restart);
  }

  /** So does a connection that drops right after the creation was confirmed: the transient failure
      of any later entry ends the only pass that knew the order. */
  lemma DroppedConnectionStrands(keys: Keys, dev: Device, e: Local, a: Ident, t: Id)
    requires Tidy(keys, dev) && CreationDropped(dev, t) && a in Idents(dev.queue) && a.dependsOn == Some(t)
    requires e.Failing? && Possible(keys, dev, e) && Sync.EndsPass(Current(dev, e.pass), e.outcome)
    requires forall q :: q in dev.passes ==> q == e.pass
    ensures IsStranded(After(keys, dev, e), a, t)
  {
    DroppedCreationServesNoMore(keys, dev, a, t);
    IdentsAfterFailure(keys, dev, e);
  }

  lemma RemovedFirst(a: Mutation, b: Mutation)
    requires a.id != b.id
    ensures Removed([a, b], a.id) == [b]
  {
    assert [a, b][..1] == [a] && [a][..0] == [];
    assert Removed([a], a.id) == Removed([], a.id) + [];
  }

  /** Nothing is enqueued around the n-th request of a pass that has skipped no entry. */
  predicate IsQuiet(network: Sync.Network, n: nat) {
    network.quiet(n) == [] && network.answer(n).arrivals == [] && network.answer(n).late == []
  }

  /** The pass after the creation was answered. */
  lemma AfterCreation(create: Mutation, item: Mutation, t: Id, actual: Id, now: Time, network: Sync.Network)
    returns (one: Sync.PassState)
    requires create.temp == Some(t) && create.dependsOn.None? && create.nextAttempt.None? && create.id != item.id
    requires IsQuiet(network, 0) && network.answer(0).outcome == Sync.Response(201, Some(actual))
    ensures one == Sync.RunPass([create, item], [create], now, network)
    ensures one.list == [item.(path := Text.ReplaceAll(item.path, t, actual))]
    ensures one.temps == map[t := actual] && |one.sends| == 1 && !one.stopped
  {
    var start := [create, item];
    assert [create][..0] == [];
    var zero := Sync.RunPass(start, [], now, network);
    one := Sync.Visit(zero, create, now, network, 0);
    var marked := Updated(start, create.id, MutationStatus.Syncing, None, None);
    var remapped := Remapped(marked, t, actual);
    assert IndexOf(start, create.id) == 0 && marked == [create.(status := MutationStatus.Syncing), item];
    assert remapped == [remapped[0], remapped[1]];
    RemovedFirst(remapped[0], remapped[1]);
  }

  lemma AfterItem(one: Sync.PassState, item: Mutation, t: Id, actual: Id, now: Time, network: Sync.Network)
    returns (two: Sync.PassState)
    requires item.dependsOn == Some(t) && item.nextAttempt.None? && item.retryCount == 0
    requires one.list == [item.(path := Text.ReplaceAll(item.path, t, actual))]
    requires one.temps == map[t := actual] && |one.sends| == 1 && !one.stopped
    requires IsQuiet(network, 1) && network.answer(1).outcome == Sync.DioError(None)
    ensures two == Sync.Visit(one, item, now, network, 1)
    ensures |two.list| == 1 && IdentOf(two.list[0]) == IdentOf(item)
  {
    two := Sync.Visit(one, item, now, network, 1);
    var inFlight := Updated(one.list, item.id, MutationStatus.Syncing, None, None);
    assert |inFlight| == 1 && inFlight[0].id == item.id;
    assert two.list == Sync.Settle(inFlight, item, network.answer(1).outcome, network.answer(1).clock);
  }

  /** A pass over a lone entry that waits for an order sends nothing. */
  lemma LoneDependentIsSkipped(m: Mutation, now: Time, network: Sync.Network)
    requires m.dependsOn.Some?
    ensures Sync.RunPass([m], [m], now, network).sends == []
  {
    assert [m][..0] == [];
    var zero := Sync.RunPass([m], [], now, network);
    assert Sync.RunPass([m], [m], now, network) == Sync.Visit(zero, m, now, network, 0);
  }

  /** The shortest history that does it: the creation is answered, the connection drops on its first
      item, and no later pass over the queue sends anything, whatever the network then does. */
  lemma DroppedConnectionLosesTheItem(create: Mutation, item: Mutation, t: Id, actual: Id, now: Time,
                                      network: Sync.Network, later: Time, recovered: Sync.Network)
    requires create.temp == Some(t) && create.dependsOn.None? && create.nextAttempt.None? && create.id != item.id
    requires item.dependsOn == Some(t) && item.nextAttempt.None? && item.retryCount == 0
    requires IsQuiet(network, 0) && network.answer(0).outcome == Sync.Response(201, Some(actual))
    requires IsQuiet(network, 1) && network.answer(1).outcome == Sync.DioError(None)
    ensures var list := Sync.RunPass([create, item], [create, item], now, network).list;
      && |list| == 1 && IdentOf(list[0]) == IdentOf(item)
      && Sync.RunPass(list, list, later, recovered).sends == []
  {
    var start := [create, item];
    var one := AfterCreation(create, item, t, actual, now, network);
    var two := AfterItem(one, item, t, actual, now, network);
    assert start[..1] == [create];
    assert two == Sync.RunPass(start, start, now, network);
    LoneDependentIsSkipped(two.list[0], later, recovered);
    assert two.list == [two.list[0]];
  }
}
