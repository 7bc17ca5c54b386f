/** The event system and the pass function agree: one pass left alone by other passes does to the
    queue, and sends, exactly what Sync.RunPass says, for the network that its answers make up. */
module Passes {
  import opened Outcomes
  import opened Schema
  import opened Runs
  import opened Queue
  import opened Interceptor
  import opened EndToEnd
  import Sync

  function With(network: Sync.Network, n: nat, x: Sync.Exchange): Sync.Network {
    network.(answer := (i: nat) => if i == n then x else network.answer(i))
  }

  function WithQuiet(network: Sync.Network, k: nat, arrivals: Entries): Sync.Network {
    network.(quiet := (i: nat) => if i == k then arrivals else network.quiet(i))
  }

  /** A pass depends on the network only as far as it has come. */
  lemma {:induction false} OnlyThePastMatters(start: Entries, pending: Entries, now: Time, a: Sync.Network,
      b: Sync.Network)
    requires forall i: nat :: i < |Sync.RunPass(start, pending, now, a).sends| ==> a.answer(i) == b.answer(i)
    requires forall k: nat :: k < |pending| ==> a.quiet(k) == b.quiet(k)
    ensures Sync.RunPass(start, pending, now, a) == Sync.RunPass(start, pending, now, b)
  {
    hide Sync.Handled, Sync.AllEnqueued, Sync.Judge, Updated;
    if pending != [] {
      var init := pending[..|pending| - 1];
      assert Sync.RunPass(start, init, now, a).sends <= Sync.RunPass(start, pending, now, a).sends;
      OnlyThePastMatters(start, init, now, a, b);
    }
  }

  lemma LaterAnswersDoNotMatter(start: Entries, pending: Entries, now: Time, network: Sync.Network, x: Sync.Exchange)
    ensures var n := |Sync.RunPass(start, pending, now, network).sends|;
      Sync.RunPass(start, pending, now, With(network, n, x)) == Sync.RunPass(start, pending, now, network)
  {
    var n := |Sync.RunPass(start, pending, now, network).sends|;
    OnlyThePastMatters(start, pending, now, network, With(network, n, x));
  }

  lemma LaterArrivalsDoNotMatter(start: Entries, pending: Entries, now: Time, network: Sync.Network, arrivals: Entries)
    ensures Sync.RunPass(start, pending, now, WithQuiet(network, |pending|, arrivals)) ==
            Sync.RunPass(start, pending, now, network)
  {
    OnlyThePastMatters(start, pending, now, network, WithQuiet(network, |pending|, arrivals));
  }

  lemma VisitNext(start: Entries, pending: Entries, now: Time, network: Sync.Network, k: nat)
    requires k < |pending|
    ensures Sync.RunPass(start, pending[..k + 1], now, network) ==
            Sync.Visit(Sync.RunPass(start, pending[..k], now, network), pending[k], now, network, k)
  {
    assert pending[..k + 1][..k] == pending[..k];
  }

  lemma OneMore(list: Entries, arrivals: Entries, m: Mutation)
    ensures Sync.AllEnqueued(list, arrivals + [m]) == Enqueued(Sync.AllEnqueued(list, arrivals), m)
  {
    assert (arrivals + [m])[..|arrivals|] == arrivals;
  }

  // ----- the correspondence -----

  /** The pass, as begun. */
  datatype Start = Start(queue: Entries, pending: Entries, now: Time)

  function StateAt(start: Start, network: Sync.Network, k: nat): Sync.PassState
    requires k <= |start.pending|
  {
    Sync.RunPass(start.queue, start.pending[..k], start.now, network)
  }

  /** The queue when the pass comes to its k-th entry. */
  function QueueAt(start: Start, network: Sync.Network, k: nat): Entries
    requires k <= |start.pending|
  {
    Sync.AllEnqueued(StateAt(start, network, k).list, network.quiet(k))
  }

  /** The queue while the next request is in flight, with the entries that arrived meanwhile. */
  function InFlightQueue(list: Entries, m: Mutation, x: Sync.Exchange): Entries {
    Sync.AllEnqueued(Updated(list, m.id, MutationStatus.Syncing, None, None), x.arrivals)
  }

  /** The pass has sent its current entry: what it was sent as, and what the queue is. */
  predicate SentNow(s: Sync.PassState, list: Entries, m: Mutation, now: Time, sends: seq<Sync.Sent>) {
    && Sync.Judge(m, now, s.temps, list).Send?
    && sends == s.sends + [Sync.Sent(m, Sync.Judge(m, now, s.temps, list).path)]
  }

  /** Queue, known orders and requests of a running pass are those of the pass function. */
  ghost predicate MirrorsRunning(queue: Entries, pass: Pass, start: Start, network: Sync.Network,
      sends: seq<Sync.Sent>) {
    && pass.pending == start.pending && pass.now == start.now && pass.pos <= |start.pending|
    && (forall k: nat :: k > pass.pos ==> network.quiet(k) == [])
    && var s, list := StateAt(start, network, pass.pos), QueueAt(start, network, pass.pos);
    && !s.stopped
    && (if pass.stage.Ready? then
          queue == list && pass.temps == s.temps && sends == s.sends
        else
          && pass.pos < |start.pending|
          && var m, x := start.pending[pass.pos], network.answer(|s.sends|);
          && SentNow(s, list, m, start.now, sends)
          && (if pass.stage.InFlight? then
                queue == InFlightQueue(list, m, x) && x.late == [] && pass.temps == s.temps
              else
                && Sync.IsSuccess(x.outcome)
                && queue == Sync.AllEnqueued(Sync.Relinked(InFlightQueue(list, m, x), m, x.outcome), x.late)
                && pass.temps == Sync.Learned(s.temps, m, x.outcome)))
  }

  /** The pass has ended, and entries may have arrived since. */
  predicate MirrorsEnded(queue: Entries, start: Start, network: Sync.Network, sends: seq<Sync.Sent>) {
    var s := Sync.RunPass(start.queue, start.pending, start.now, network);
    queue == Sync.AllEnqueued(s.list, network.quiet(|start.pending|)) && sends == s.sends
  }

  ghost predicate Mirrors(dev: Device, p: nat, start: Start, network: Sync.Network, sends: seq<Sync.Sent>) {
    if p in dev.passes then
      MirrorsRunning(dev.queue, dev.passes[p], start, network, sends)
    else
      MirrorsEnded(dev.queue, start, network, sends)
  }

  // ----- each event of the pass -----

  lemma BeginMirrors(keys: map<Key, KeyRow>, dev: Device, e: Local, network: Sync.Network)
    requires Possible(keys, dev, e) && e.Begin? && forall k: nat :: network.quiet(k) == []
    ensures Mirrors(After(keys, dev, e), e.pass, Start(dev.queue, e.pending, e.now), network, [])
  {
    assert e.pending[..0] == [];
  }

  lemma PassOverMirrors(queue: Entries, pass: Pass, start: Start, network: Sync.Network, sends: seq<Sync.Sent>)
    requires MirrorsRunning(queue, pass, start, network, sends) && pass.stage.Ready? && pass.pos < |pass.pending|
    requires !Sync.Judge(pass.pending[pass.pos], pass.now, pass.temps, queue).Send?
    ensures var m := pass.pending[pass.pos];
      var queue' := if Sync.Judge(m, pass.now, pass.temps, queue).GiveUp?
        then Updated(queue, m.id, MutationStatus.Failed, None, None) else queue;
      MirrorsRunning(queue', Moved(pass), start, network, sends)
  {
    hide Sync.Handled, Sync.Judge, Updated;
    VisitNext(start.queue, start.pending, start.now, network, pass.pos);
  }

  lemma DispatchMirrors(queue: Entries, pass: Pass, start: Start, network: Sync.Network, sends: seq<Sync.Sent>, w: Wire)
    returns (network': Sync.Network)
    requires MirrorsRunning(queue, pass, start, network, sends) && pass.stage.Ready? && pass.pos < |pass.pending|
    requires Sync.Judge(pass.pending[pass.pos], pass.now, pass.temps, queue).Send?
    ensures var m := pass.pending[pass.pos];
      MirrorsRunning(Updated(queue, m.id, MutationStatus.Syncing, None, None), pass.(stage := InFlight(w)), start,
          network', sends + [Sync.Sent(m, Sync.Judge(m, pass.now, pass.temps, queue).path)])
  {
    hide Sync.Handled, Sync.Judge, Updated;
    var n, x := |sends|, Sync.Exchange([], Sync.OtherError, [], 0);
    LaterAnswersDoNotMatter(start.queue, start.pending[..pass.pos], start.now, network, x);
    network' := With(network, n, x);
  }

  lemma InFlightArrivalMirrors(queue: Entries, pass: Pass, start: Start, network: Sync.Network,
      sends: seq<Sync.Sent>, arrival: Mutation)
    returns (network': Sync.Network)
    requires MirrorsRunning(queue, pass, start, network, sends) && pass.stage.InFlight?
    ensures MirrorsRunning(Enqueued(queue, arrival), pass, start, network', sends)
  {
    hide Sync.Handled, Sync.Judge, Sync.AllEnqueued, Enqueued, Updated;
    var s, list, m := StateAt(start, network, pass.pos), QueueAt(start, network, pass.pos), start.pending[pass.pos];
    var x := network.answer(|s.sends|);
    var x' := x.(arrivals := x.arrivals + [arrival]);
    LaterAnswersDoNotMatter(start.queue, start.pending[..pass.pos], start.now, network, x');
    network' := With(network, |s.sends|, x');
    OneMore(Updated(list, m.id, MutationStatus.Syncing, None, None), x.arrivals, arrival);
  }

  lemma LateArrivalMirrors(queue: Entries, pass: Pass, start: Start, network: Sync.Network,
      sends: seq<Sync.Sent>, arrival: Mutation)
    returns (network': Sync.Network)
    requires MirrorsRunning(queue, pass, start, network, sends) && pass.stage.Confirmed?
    ensures MirrorsRunning(Enqueued(queue, arrival), pass, start, network', sends)
  {
    hide Sync.Handled, Sync.Judge, Sync.AllEnqueued, Enqueued, Updated, Sync.Relinked;
    var s, list, m := StateAt(start, network, pass.pos), QueueAt(start, network, pass.pos), start.pending[pass.pos];
    var x := network.answer(|s.sends|);
    var x' := x.(late := x.late + [arrival]);
    LaterAnswersDoNotMatter(start.queue, start.pending[..pass.pos], start.now, network, x');
    network' := With(network, |s.sends|, x');
    OneMore(Sync.Relinked(InFlightQueue(list, m, x), m, x.outcome), x.late, arrival);
  }

  lemma QuietArrivalMirrors(queue: Entries, pass: Pass, start: Start, network: Sync.Network, sends: seq<Sync.Sent>,
      arrival: Mutation)
    returns (network': Sync.Network)
    requires MirrorsRunning(queue, pass, start, network, sends) && pass.stage.Ready?
    ensures MirrorsRunning(Enqueued(queue, arrival), pass, start, network', sends)
  {
    hide Sync.Handled, Sync.Judge, Sync.AllEnqueued, Enqueued, Updated;
    var k := pass.pos;
    LaterArrivalsDoNotMatter(start.queue, start.pending[..k], start.now, network, network.quiet(k) + [arrival]);
    network' := WithQuiet(network, k, network.quiet(k) + [arrival]);
    OneMore(StateAt(start, network, k).list, network.quiet(k), arrival);
  }

  lemma ArrivalMirrors(queue: Entries, pass: Pass, start: Start, network: Sync.Network, sends: seq<Sync.Sent>,
      arrival: Mutation)
    returns (network': Sync.Network)
    requires MirrorsRunning(queue, pass, start, network, sends)
    ensures MirrorsRunning(Enqueued(queue, arrival), pass, start, network', sends)
  {
    match pass.stage
    case Ready => network' := QuietArrivalMirrors(queue, pass, start, network, sends, arrival);
    case InFlight(_) => network' := InFlightArrivalMirrors(queue, pass, start, network, sends, arrival);
    case Confirmed(_) => network' := LateArrivalMirrors(queue, pass, start, network, sends, arrival);
  }

  lemma LastArrivalMirrors(queue: Entries, start: Start, network: Sync.Network, sends: seq<Sync.Sent>,
      arrival: Mutation)
    returns (network': Sync.Network)
    requires MirrorsEnded(queue, start, network, sends)
    ensures MirrorsEnded(Enqueued(queue, arrival), start, network', sends)
  {
    var k := |start.pending|;
    LaterArrivalsDoNotMatter(start.queue, start.pending, start.now, network, network.quiet(k) + [arrival]);
    network' := WithQuiet(network, k, network.quiet(k) + [arrival]);
    OneMore(Sync.RunPass(start.queue, start.pending, start.now, network).list, network.quiet(k), arrival);
  }

  lemma FailingMirrors(queue: Entries, pass: Pass, start: Start, network: Sync.Network, sends: seq<Sync.Sent>,
                       o: Sync.Outcome, at: Time) returns (network': Sync.Network)
    requires MirrorsRunning(queue, pass, start, network, sends) && pass.stage.InFlight? && !Sync.IsSuccess(o)
    ensures var m := pass.pending[pass.pos]; var queue' := Sync.Settle(queue, m, o, at);
      if Sync.EndsPass(m, o) then
        MirrorsEnded(queue', start, network', sends)
      else
        MirrorsRunning(queue', Moved(pass), start, network', sends)
  {
    hide Sync.Settle, Sync.Judge, Updated;
    var s := StateAt(start, network, pass.pos);
    var x := network.answer(|s.sends|).(outcome := o, clock := at);
    LaterAnswersDoNotMatter(start.queue, start.pending[..pass.pos], start.now, network, x);
    network' := With(network, |s.sends|, x);
    VisitNext(start.queue, start.pending, start.now, network', pass.pos);
    if Sync.EndsPass(pass.pending[pass.pos], o) {
      Sync.StoppedPassStays(start.queue, start.pending, pass.pos + 1, start.now, network');
    }
  }

  lemma ConfirmMirrors(queue: Entries, pass: Pass, start: Start, network: Sync.Network, sends: seq<Sync.Sent>,
      response: Response)
    returns (network': Sync.Network)
    requires MirrorsRunning(queue, pass, start, network, sends) && pass.stage.InFlight?
    ensures var m := pass.pending[pass.pos];
      var queue' := if m.temp.Some? && IdIn(response).Some?
        then Remapped(queue, m.temp.value, IdIn(response).value) else queue;
      MirrorsRunning(queue', pass.(temps := Sync.Learned(pass.temps, m, SuccessOf(response)),
          stage := Confirmed(pass.stage.wire)), start, network', sends)
  {
    hide Sync.Handled, Sync.Judge, Updated;
    var s := StateAt(start, network, pass.pos);
    var x := network.answer(|s.sends|).(outcome := SuccessOf(response));
    LaterAnswersDoNotMatter(start.queue, start.pending[..pass.pos], start.now, network, x);
    network' := With(network, |s.sends|, x);
  }

  lemma DropMirrors(queue: Entries, pass: Pass, start: Start, network: Sync.Network, sends: seq<Sync.Sent>)
    requires MirrorsRunning(queue, pass, start, network, sends) && pass.stage.Confirmed?
    ensures MirrorsRunning(Removed(queue, pass.pending[pass.pos].id), Moved(pass), start, network, sends)
  {
    hide Sync.Settle, Sync.Judge, Updated, Removed, Sync.Relinked;
    VisitNext(start.queue, start.pending, start.now, network, pass.pos);
  }

  // ----- a pass left alone -----

  /** The event is neither one of another pass nor a restart. */
  predicate LeavesAlone(e: Local, p: nat) {
    match e
    case Issue(_, _) => true
    case FirstAnswered(_) => true
    case TurnAway(_, _) => true
    case FirstLost(_, _) => true
    case PassOver(q) => q == p
    case Dispatch(q) => q == p
    case Failing(q, _, _) => q == p
    case Confirm(q, _, _) => q == p
    case Drop(q) => q == p
    case Finish(q) => q == p
    case Begin(_, _, _, _, _) => false
    case Restart => false
  }

  /** What the event adds to the requests of pass `p`. */
  function SentIn(dev: Device, e: Local, p: nat): seq<Sync.Sent> {
    if e == Dispatch(p) && Underway(dev, p) && VerdictFor(dev, p).Send?
    then [Sync.Sent(Current(dev, p), VerdictFor(dev, p).path)]
    else []
  }

  lemma FinishMirrors(keys: map<Key, KeyRow>, dev: Device, p: nat, start: Start, network: Sync.Network,
      sends: seq<Sync.Sent>)
    requires Possible(keys, dev, Finish(p)) && Mirrors(dev, p, start, network, sends)
    ensures Mirrors(After(keys, dev, Finish(p)), p, start, network, sends)
  {
    hide Sync.RunPass, Sync.AllEnqueued, SentNow;
    assert start.pending[..|start.pending|] == start.pending;
  }

  lemma OwnEventMirrors(keys: map<Key, KeyRow>, dev: Device, e: Local, p: nat, start: Start, network: Sync.Network,
      sends: seq<Sync.Sent>)
    returns (network': Sync.Network)
    requires Possible(keys, dev, e) && p in dev.passes &&
             MirrorsRunning(dev.queue, dev.passes[p], start, network, sends)
    requires e == PassOver(p) || e == Dispatch(p) || e == Drop(p)
    ensures Mirrors(After(keys, dev, e), p, start, network', sends + SentIn(dev, e, p))
  {
    var pass := dev.passes[p];
    network' := network;
    if e.PassOver? {
      PassOverMirrors(dev.queue, pass, start, network, sends);
    } else if e.Dispatch? {
      var w := ReplayWire(Current(dev, p), VerdictFor(dev, p).path);
      network' := DispatchMirrors(dev.queue, pass, start, network, sends, w);
    } else {
      DropMirrors(dev.queue, pass, start, network, sends);
    }
  }

  lemma AnswerMirrors(keys: map<Key, KeyRow>, dev: Device, e: Local, p: nat, start: Start, network: Sync.Network,
      sends: seq<Sync.Sent>)
    returns (network': Sync.Network)
    requires Possible(keys, dev, e) && p in dev.passes &&
             MirrorsRunning(dev.queue, dev.passes[p], start, network, sends)
    requires (e.Failing? || e.Confirm?) && e.pass == p
    ensures Mirrors(After(keys, dev, e), p, start, network', sends)
  {
    if e.Failing? {
      network' := FailingMirrors(dev.queue, dev.passes[p], start, network, sends, e.outcome, e.at);
    } else {
      network' := ConfirmMirrors(dev.queue, dev.passes[p], start, network, sends, e.response);
    }
  }

  lemma QuietEventMirrors(keys: map<Key, KeyRow>, dev: Device, e: Local, p: nat, start: Start, network: Sync.Network,
      sends: seq<Sync.Sent>)
    returns (network': Sync.Network)
    requires Possible(keys, dev, e) && Mirrors(dev, p, start, network, sends) && LeavesAlone(e, p)
    requires e.Issue? || e.FirstAnswered? || e.TurnAway? || e.FirstLost?
    ensures Mirrors(After(keys, dev, e), p, start, network', sends)
  {
    network' := network;
    if e.FirstLost? && IsQueued(LostRequest(e.key, dev.issued[e.key])) {
      var m := EntryOf(LostRequest(e.key, dev.issued[e.key]), e.clock);
      if p in dev.passes {
        network' := ArrivalMirrors(dev.queue, dev.passes[p], start, network, sends, m);
      } else {
        network' := LastArrivalMirrors(dev.queue, start, network, sends, m);
      }
    }
  }

  lemma NextMirrors(keys: map<Key, KeyRow>, dev: Device, e: Local, p: nat, start: Start, network: Sync.Network,
      sends: seq<Sync.Sent>)
    returns (network': Sync.Network)
    requires Possible(keys, dev, e) && Mirrors(dev, p, start, network, sends) && LeavesAlone(e, p)
    ensures Mirrors(After(keys, dev, e), p, start, network', sends + SentIn(dev, e, p))
  {
    assert !e.Dispatch? ==> sends + SentIn(dev, e, p) == sends;
    if e.PassOver? || e.Dispatch? || e.Drop? {
      network' := OwnEventMirrors(keys, dev, e, p, start, network, sends);
    } else if e.Failing? || e.Confirm? {
      network' := AnswerMirrors(keys, dev, e, p, start, network, sends);
    } else if e.Finish? {
      network' := network;
      FinishMirrors(keys, dev, p, start, network, sends);
    } else {
      network' := QuietEventMirrors(keys, dev, e, p, start, network, sends);
    }
  }

  // ----- whole histories -----

  /** From its second event on, the history leaves pass `p` alone. */
  predicate Undisturbed(events: seq<Event>, p: nat) {
    forall i :: 1 <= i < |events| && events[i].Here? ==> LeavesAlone(events[i].event, p)
  }

  /** The requests of pass `p` in the first n events. */
  function SentBy(trace: seq<System>, events: seq<Event>, p: nat, n: nat): seq<Sync.Sent>
    requires n <= |events| && |trace| == |events| + 1
  {
    if n == 0 then
      []
    else
      SentBy(trace, events, p, n - 1) +
      (if events[n - 1].Here? then SentIn(trace[n - 1].dev, events[n - 1].event, p) else [])
  }

  lemma ServerEventMirrors(sys: System, e: Event, p: nat, start: Start, network: Sync.Network, sends: seq<Sync.Sent>)
    requires sys.states != [] && EndToEnd.Enabled(sys, e) && !e.Here? && Mirrors(sys.dev, p, start, network, sends)
    ensures Mirrors(Next(sys, e).dev, p, start, network, sends)
  {
  }

  /** From the moment it begins, a pass that no other pass and no restart disturbs does what RunPass
      does with some network, request by request. */
  lemma {:induction false} PassRefinesRunPass(trace: seq<System>, events: seq<Event>, n: nat)
    returns (network: Sync.Network)
    requires History(trace, events) && 1 <= n <= |events| && events[0].Here? && events[0].event.Begin?
    requires Undisturbed(events, events[0].event.pass)
    ensures var begin := events[0].event;
      Mirrors(trace[n].dev, begin.pass, Start(trace[0].dev.queue, begin.pending, begin.now), network,
              SentBy(trace, events, begin.pass, n))
    decreases n
  {
    var begin := events[0].event;
    var p, start := begin.pass, Start(trace[0].dev.queue, begin.pending, begin.now);
    assert Happens(trace, events[n - 1], n - 1);
    if n == 1 {
      network := Sync.Network((i: nat) => Sync.Exchange([], Sync.OtherError, [], 0), (k: nat) => []);
      BeginMirrors(Last(trace[0].states).keys, trace[0].dev, begin, network);
      assert SentBy(trace, events, p, 0) == [] && SentBy(trace, events, p, 1) == [];
    } else {
      network := PassRefinesRunPass(trace, events, n - 1);
      network := HistoryStepMirrors(trace[n - 1], events[n - 1], p, start, network, SentBy(trace, events, p, n - 1));
    }
  }

  lemma HistoryStepMirrors(sys: System, e: Event, p: nat, start: Start, network: Sync.Network, sends: seq<Sync.Sent>)
    returns (network': Sync.Network)
    requires sys.states != [] && EndToEnd.Enabled(sys, e) && Mirrors(sys.dev, p, start, network, sends)
    requires e.Here? ==> LeavesAlone(e.event, p)
    ensures Mirrors(Next(sys, e).dev, p, start, network', sends + (if e.Here? then SentIn(sys.dev, e.event, p) else []))
  {
    if e.Here? {
      network' := NextMirrors(Last(sys.states).keys, sys.dev, e.event, p, start, network, sends);
    } else {
      network' := network;
      ServerEventMirrors(sys, e, p, start, network, sends);
      assert sends + [] == sends;
    }
  }

  /** A pass that has ended, or stands between two entries, in the words of the pass function alone; the
      queue also holds what was enqueued since. */
  lemma PassIsRunPass(trace: seq<System>, events: seq<Event>, n: nat)
    requires History(trace, events) && 1 <= n <= |events| && events[0].Here? && events[0].event.Begin?
    requires Undisturbed(events, events[0].event.pass)
    ensures var begin, dev := events[0].event, trace[n].dev;
      exists network: Sync.Network ::
        if begin.pass !in dev.passes then
          var s := Sync.RunPass(trace[0].dev.queue, begin.pending, begin.now, network);
          && dev.queue == Sync.AllEnqueued(s.list, network.quiet(|begin.pending|))
          && SentBy(trace, events, begin.pass, n) == s.sends
        else
          var pass := dev.passes[begin.pass];
          pass.stage.Ready? ==>
            && pass.pos <= |begin.pending|
            && var s := Sync.RunPass(trace[0].dev.queue, begin.pending[..pass.pos], begin.now, network);
            && dev.queue == Sync.AllEnqueued(s.list, network.quiet(pass.pos))
            && pass.temps == s.temps && SentBy(trace, events, begin.pass, n) == s.sends
  {
    var network := PassRefinesRunPass(trace, events, n);
  }
}
