/** Overlapping passes, which the late flag allows, can lower a retry count: for every order created
    offline there is a history of the whole system in which its count falls. */
module Overlap {
  import opened Outcomes
  import opened Schema
  import opened Runs
  import opened Queue
  import opened Interceptor
  import opened EndToEnd
  import opened Histories
  import opened Witness
  import Sync

  // ----- the exact condition -----

  lemma LostCount(keys: map<Key, KeyRow>, dev: Device, e: Local, id: MutationId)
    requires Possible(keys, dev, e) && e.FirstLost? && CountOf(dev.queue, id).Some?
    ensures CountOf(After(keys, dev, e).queue, id) == CountOf(dev.queue, id)
  {
    hide CountOf;
    var lost := LostRequest(e.key, dev.issued[e.key]);
    if IsQueued(lost) {
      EnqueuedCount(dev.queue, EntryOf(lost, e.clock), id);
    }
  }

  /** Of all events of a device, exactly one kind lowers the stored retry count of an entry that stays
      queued: a failed attempt that writes a count, of a pass that read the entry when its count was
      lower by two or more. */
  lemma CountFallsExactlyWhen(keys: map<Key, KeyRow>, dev: Device, e: Local, id: MutationId)
    requires Possible(keys, dev, e)
    requires CountOf(dev.queue, id).Some? && CountOf(After(keys, dev, e).queue, id).Some?
    ensures CountOf(After(keys, dev, e).queue, id).value < CountOf(dev.queue, id).value <==>
            && e.Failing? && Current(dev, e.pass).id == id && !e.outcome.OtherError?
            && CountOf(dev.queue, id).value > Current(dev, e.pass).retryCount + 1
  {
    hide Updated, Sync.Settle, Sync.Judge, CountOf, IsQueued;
    match e
    case FirstLost(_, _) => LostCount(keys, dev, e, id);
    case PassOver(p) =>
      UpdatedCount(dev.queue, Current(dev, p).id, MutationStatus.Failed, None, None, id);
    case Dispatch(p) =>
      UpdatedCount(dev.queue, Current(dev, p).id, MutationStatus.Syncing, None, None, id);
    case Failing(p, outcome, at) => Sync.SettledCount(dev.queue, Current(dev, p), outcome, at, id);
    case Confirm(_, _, _) => SameCounts(dev.queue, After(keys, dev, e).queue, id);
    case Drop(p) => RemovedCount(dev.queue, Current(dev, p).id, id);
    case Restart => SameCounts(dev.queue, Recovered(dev.queue), id);
    case _ =>
  }

  // ----- one queued entry -----

  function BeginsOn(p: nat, m: Mutation, now: Time): Local {
    Begin(p, m.tenant, m.user, [m], now)
  }

  lemma BeginOne(keys: map<Key, KeyRow>, dev: Device, p: nat, m: Mutation, now: Time)
    requires dev.queue == [m] && IsPendingFor(m, m.tenant, m.user) && p !in dev.passes
    ensures Possible(keys, dev, BeginsOn(p, m, now))
    ensures After(keys, dev, BeginsOn(p, m, now)) == dev.(passes := dev.passes[p := Pass([m], 0, now, map[], Ready)])
  {
    assert [m][..0] == [];
    assert Selected([m], m.tenant, m.user) == [m];
  }

  lemma DispatchOne(keys: map<Key, KeyRow>, dev: Device, p: nat, m: Mutation, now: Time, e: Mutation)
    requires p in dev.passes && dev.passes[p] == Pass([m], 0, now, map[], Ready)
    requires dev.queue == [e] && e.id == m.id && m.dependsOn.None? &&
             (m.nextAttempt.Some? ==> m.nextAttempt.value <= now)
    ensures Possible(keys, dev, Dispatch(p))
    ensures var w := ReplayWire(m, m.path);
      After(keys, dev, Dispatch(p)) ==
      dev.(queue := [e.(status := MutationStatus.Syncing)], wires := dev.wires + {w},
           passes := dev.passes[p := Pass([m], 0, now, map[], InFlight(w))])
  {
    assert Current(dev, p) == m && VerdictFor(dev, p) == Sync.Send(m.path);
    assert IndexOf(dev.queue, m.id) == 0;
  }

  const TIMEOUT: Sync.Outcome := Sync.DioError(None)

  lemma FailOne(keys: map<Key, KeyRow>, dev: Device, p: nat, m: Mutation, now: Time, w: Wire, e: Mutation)
    requires p in dev.passes && dev.passes[p] == Pass([m], 0, now, map[], InFlight(w))
    requires dev.queue == [e] && e.id == m.id && 0 <= m.retryCount < 4
    ensures Possible(keys, dev, Failing(p, TIMEOUT, 0))
    ensures After(keys, dev, Failing(p, TIMEOUT, 0)) ==
            dev.(queue := [Failed(e, m.retryCount + 1)], passes := dev.passes - {p})
  {
    assert Current(dev, p) == m && IndexOf(dev.queue, m.id) == 0;
  }

  /** The entry after a timeout. */
  function Failed(e: Mutation, count: nat): Mutation {
    e.(status := MutationStatus.Pending, retryCount := count, nextAttempt := Some(1000 * Sync.BackoffSeconds(count)))
  }

  // ----- three passes -----

  /** Pass 1 stands still while another pass sends the entry and fails. */
  function Standing(s: Story, dev: Device, count: nat): Device {
    var m := CreateEntry(s);
    dev.(queue := [if count == 0 then m else Failed(m, count)], passes := map[1 := Pass([m], 0, 0, map[], Ready)])
  }

  function AttemptTime(count: nat): Time {
    1000 * Sync.BackoffSeconds(count)
  }

  function Begun(s: Story, dev: Device, p: nat, count: nat): Device {
    var start := Standing(s, dev, count);
    start.(passes := start.passes[p := Pass(start.queue, 0, AttemptTime(count), map[], Ready)])
  }

  function Sent(s: Story, dev: Device, p: nat, count: nat): Device {
    var start := Standing(s, dev, count);
    var w := ReplayWire(start.queue[0], start.queue[0].path);
    start.(queue := [start.queue[0].(status := MutationStatus.Syncing)], wires := start.wires + {w},
           passes := start.passes[p := Pass(start.queue, 0, AttemptTime(count), map[], InFlight(w))])
  }

  lemma AttemptSends(keys: map<Key, KeyRow>, s: Story, dev: Device, p: nat, count: nat)
    requires p != 1 && count < 2
    ensures var m := Standing(s, dev, count).queue[0];
      && Possible(keys, Standing(s, dev, count), BeginsOn(p, m, AttemptTime(count)))
      && After(keys, Standing(s, dev, count), BeginsOn(p, m, AttemptTime(count))) == Begun(s, dev, p, count)
    ensures Possible(keys, Begun(s, dev, p, count), Dispatch(p))
    ensures After(keys, Begun(s, dev, p, count), Dispatch(p)) == Sent(s, dev, p, count)
  {
    var start := Standing(s, dev, count);
    var m := start.queue[0];
    BeginOne(keys, start, p, m, AttemptTime(count));
    DispatchOne(keys, Begun(s, dev, p, count), p, m, AttemptTime(count), m);
  }

  lemma AttemptFails(keys: map<Key, KeyRow>, s: Story, dev: Device, p: nat, count: nat)
    requires p != 1 && count < 2
    ensures Possible(keys, Sent(s, dev, p, count), Failing(p, TIMEOUT, 0))
    ensures After(keys, Sent(s, dev, p, count), Failing(p, TIMEOUT, 0)) ==
            Standing(s, Sent(s, dev, p, count), count + 1)
  {
    var start, sent := Standing(s, dev, count), Sent(s, dev, p, count);
    var m := start.queue[0];
    FailOne(keys, sent, p, m, AttemptTime(count), ReplayWire(m, m.path), sent.queue[0]);
    assert sent.passes - {p} == start.passes;
  }

  /** One whole attempt by pass p. */
  lemma AttemptReaches(db: Db, s: Story, dev: Device, p: nat, count: nat) returns (dev': Device)
    requires Reaches(System([db], [], Standing(s, dev, count))) && p != 1 && count < 2
    ensures Reaches(System([db], [], Standing(s, dev', count + 1)))
  {
    dev' := Sent(s, dev, p, count);
    AttemptSends(db.keys, s, dev, p, count);
    HereReaches([db], [], Standing(s, dev, count), BeginsOn(p, Standing(s, dev, count).queue[0], AttemptTime(count)));
    HereReaches([db], [], Begun(s, dev, p, count), Dispatch(p));
    AttemptFails(db.keys, s, dev, p, count);
    HereReaches([db], [], dev', Failing(p, TIMEOUT, 0));
  }

  /** The event lowers the stored count of an entry that stays queued. */
  ghost predicate CountFalls(sys: System, e: Local, id: MutationId) {
    && sys.states != [] && Possible(Last(sys.states).keys, sys.dev, e)
    && var was, count := CountOf(sys.dev.queue, id), CountOf(After(Last(sys.states).keys, sys.dev, e).queue, id);
    && was.Some? && count.Some? && count.value < was.value
  }

  lemma LateFailure(db: Db, s: Story, dev: Device)
    requires Reaches(System([db], [], Standing(s, dev, 2)))
    ensures exists sys, e :: Reaches(sys) && CountFalls(sys, e, CreateEntry(s).id)
  {
    var m, start := CreateEntry(s), Standing(s, dev, 2);
    DispatchOne(db.keys, start, 1, m, 0, start.queue[0]);
    HereReaches([db], [], start, Dispatch(1));
    var sent := After(db.keys, start, Dispatch(1));
    FailOne(db.keys, sent, 1, m, 0, ReplayWire(m, m.path), sent.queue[0]);
    assert CountFalls(System([db], [], sent), Failing(1, TIMEOUT, 0), m.id);
  }

  lemma QueuedFirstReaches(db: Db, s: Story)
    requires Initial(db) && IsOfflineOrder(s)
    ensures Reaches(System([db], [], QueuedFirst(s)))
  {
    StartReaches(System([db], [], NEW_DEVICE));
    FirstMutation(s);
    HereReaches([db], [], NEW_DEVICE, Issue(s.k, s.create));
    HereReaches([db], [], IssuedFirst(s), FirstLost(s.k, s.first));
  }

  lemma StandingReaches(db: Db, s: Story)
    requires Initial(db) && Reaches(System([db], [], QueuedFirst(s)))
    ensures Reaches(System([db], [], Standing(s, QueuedFirst(s), 0)))
  {
    var m, queued := CreateEntry(s), QueuedFirst(s);
    BeginOne(db.keys, queued, 1, m, 0);
    HereReaches([db], [], queued, BeginsOn(1, m, 0));
    assert Standing(s, queued, 0) == queued.(passes := queued.passes[1 := Pass([m], 0, 0, map[], Ready)]);
  }

  /** For every initial database and every order created offline, some history lowers its retry count:
      a pass reads it, two others fail on it, and the first one fails last. */
  lemma RetryCountCanFall(db: Db, s: Story)
    requires Initial(db) && IsOfflineOrder(s)
    ensures exists sys, e :: Reaches(sys) && CountFalls(sys, e, CreateEntry(s).id)
  {
    QueuedFirstReaches(db, s);
    StandingReaches(db, s);
    var once := AttemptReaches(db, s, QueuedFirst(s), 2, 0);
    var twice := AttemptReaches(db, s, once, 3, 1);
    LateFailure(db, s, twice);
  }
}
