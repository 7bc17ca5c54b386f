/** What users may rely on, over every history of devices, messages and server. */
module Guarantees {
  import opened Outcomes
  import opened Schema
  import opened Runs
  import opened Idempotency
  import opened Queue
  import opened Paths
  import opened Interceptor
  import opened EndToEnd
  import opened Delivery
  import opened Exchange
  import opened Client
  import Text

  function KeyIn(dev: Device, k: string): Key
    requires k in dev.issued
  {
    (dev.issued[k].tenant, k)
  }

  /** One step of the run, and no other, changed data under the key; it was this request. */
  ghost predicate CommittedOnce(states: seq<Db>, steps: seq<Step>, key: Key, r: Request) {
    exists i: nat :: CommitsAt(states, steps, i, key)
      && HashOf(steps[i].ctx, steps[i].call) == HashFor(r)
      && (forall j: nat :: CommitsAt(states, steps, j, key) ==> j == i)
  }

  /** However often a request is sent, lost, delivered or retried, it commits at most once. */
  lemma AtMostOnce(states: seq<Db>, steps: seq<Step>, key: Key, i: nat, j: nat)
    requires Run(states, steps) && CommitsAt(states, steps, i, key) && CommitsAt(states, steps, j, key)
    ensures i == j
  {
    if i < j {
      KeyCommitsAtMostOnce(states, steps, i, j, key);
    } else if j < i {
      KeyCommitsAtMostOnce(states, steps, j, i, key);
    }
  }

  /** The server remembers a key of the device exactly when its request committed, once. */
  lemma RememberedMeansCommittedOnce(sys: System, k: string)
    requires sys.states != [] && Good(sys) && k in sys.dev.issued
    ensures KeyIn(sys.dev, k) in Last(sys.states).keys <==>
            CommittedOnce(sys.states, sys.steps, KeyIn(sys.dev, k), sys.dev.issued[k])
  {
    var states, steps, key := sys.states, sys.steps, KeyIn(sys.dev, k);
    assert RowOk(states, steps, sys.dev.issued, k);
    if key in Last(states).keys {
      var i: nat :| CommitsAt(states, steps, i, key);
      CommitStores(states, steps, i, key);
      forall j: nat | CommitsAt(states, steps, j, key) ensures j == i {
        AtMostOnce(states, steps, key, i, j);
      }
    } else if i: nat :| CommitsAt(states, steps, i, key) {
      CommitStores(states, steps, i, key);
    }
  }

  /** A commit stores its fingerprint under the key for good. */
  lemma CommitStores(states: seq<Db>, steps: seq<Step>, i: nat, key: Key)
    requires Run(states, steps) && CommitsAt(states, steps, i, key)
    ensures key in Last(states).keys && Last(states).keys[key].hash == HashOf(steps[i].ctx, steps[i].call)
  {
    OneShotAt(states, steps, i, key);
    KeyFacts(states, steps, i + 1, |states| - 1);
  }

  /** A 2xx answer to a creation or to an added item is the response stored under its key. */
  lemma AnswerIsStored(states: seq<Db>, issued: map<string, Request>, w: Wire, v: Verdict)
    requires states != [] && ReplyOk(states, w, v) && Succeeded(v)
    requires w.body.CreatePayload? || w.body.ItemPayload?
    ensures (w.tenant, w.key) in Last(states).keys &&
            Last(states).keys[(w.tenant, w.key)].response == Some(v.reply.response)
  {
    forall i: nat ensures !AlreadySo(states, w, v.reply.response, i) {
      NeverIdle(states, w, v.reply.response, i);
    }
  }

  lemma NeverIdle(states: seq<Db>, w: Wire, response: Response, i: nat)
    requires w.body.CreatePayload? || w.body.ItemPayload?
    ensures !AlreadySo(states, w, response, i)
  {
    var call := Route(w.verb, w.path, w.body);
    assert call.Some? ==> call.value.CreateOrder? || call.value.AddItem?;
  }

  /** The step that committed the key wrote the order in `response`: a new order, or the order meant
      with the requested line, product and quantity, as one more item at its end. */
  ghost predicate WroteWhatWasAsked(states: seq<Db>, steps: seq<Step>, key: Key, r: Request, response: Response) {
    exists i: nat :: CommitsAt(states, steps, i, key) &&
        CommitShows(states[i].orders, states[i + 1].orders, r, response)
  }

  /** Exactly once, end to end: when the queue has dropped a creation or an added item, its request
      has committed exactly once. That commit created the order, or put the requested line on the
      order meant: for an order created offline, the very order its creation committed. */
  lemma DroppedMeansCommittedExactlyOnce(trace: seq<System>, events: seq<Event>, j: nat, k: string)
    requires Trace(trace, events) && j < |trace| && k in trace[j].dev.dropped && k in trace[j].dev.issued
    requires trace[j].dev.issued[k].body.CreatePayload? || trace[j].dev.issued[k].body.ItemPayload?
    ensures trace[j].states != []
    ensures CommittedOnce(trace[j].states, trace[j].steps, KeyIn(trace[j].dev, k), trace[j].dev.issued[k])
    ensures var sys := trace[j];
      var key, r, keys := KeyIn(sys.dev, k), sys.dev.issued[k], Last(sys.states).keys;
      && key in keys && keys[key].response.Some? && keys[key].response.value.OrderView?
      && WroteWhatWasAsked(sys.states, sys.steps, key, r, keys[key].response.value)
      && (r.target.Sub? ==> Names(sys.dev.issued, keys, r.target, keys[key].response.value.id))
  {
    hide Run, Trace, CommittedOnce, EntriesOk, PassesOk, AcceptedOk, IssuedOk, DependentsOk, AlreadySo, Final;
    ReachableSystemsAreGood(trace, events, j);
    var sys := trace[j];
    var a :| a in sys.dev.replies && a.0.key == k && Succeeded(a.1);
    assert ReplyOk(sys.states, a.0, a.1) && WireOk(sys.dev.issued, Last(sys.states).keys, a.0);
    AnswerIsStored(sys.states, sys.dev.issued, a.0, a.1);
    RememberedMeansCommittedOnce(sys, k);
    assert RowOk(sys.states, sys.steps, sys.dev.issued, k);
  }

  /** A dropped status change or close took effect: it committed exactly once, or some state of the
      run already had the order as it asks. */
  lemma DroppedChangeTookEffect(trace: seq<System>, events: seq<Event>, j: nat, k: string)
    requires Trace(trace, events) && j < |trace| && k in trace[j].dev.dropped
    ensures trace[j].states != [] && k in trace[j].dev.issued
    ensures var sys := trace[j];
      || CommittedOnce(sys.states, sys.steps, KeyIn(sys.dev, k), sys.dev.issued[k])
      || exists a, i: nat :: a in sys.dev.replies && a.0.key == k && Succeeded(a.1) &&
          AlreadySo(sys.states, a.0, a.1.reply.response, i)
  {
    ReachableSystemsAreGood(trace, events, j);
    var sys := trace[j];
    var a :| a in sys.dev.replies && a.0.key == k && Succeeded(a.1);
    assert ReplyOk(sys.states, a.0, a.1) && WireOk(sys.dev.issued, Last(sys.states).keys, a.0);
    RememberedMeansCommittedOnce(sys, k);
  }

  /** No message of a device is ever refused because its key was used by another request, nor because
      the key is still being processed. */
  lemma ReplaysNeverConflict(trace: seq<System>, events: seq<Event>, j: nat, w: Wire, v: Verdict)
    requires Trace(trace, events) && j < |trace| && (w, v) in trace[j].dev.replies
    ensures v != FromApi(Refused(KeyReused)) && v != FromApi(Refused(KeyBusy))
  {
    ReachableSystemsAreGood(trace, events, j);
    var r := (w, v);
    assert r in trace[j].dev.replies && ReplyOk(trace[j].states, r.0, r.1);
  }

  /** Nothing is lost and nothing is invented: the queue holds, in the order of acceptance and
      unchanged, exactly the accepted entries that have not been dropped; and an entry is dropped
      only after a 2xx answer to its own key. */
  lemma QueueConservation(trace: seq<System>, events: seq<Event>, j: nat)
    requires Trace(trace, events) && j < |trace|
    ensures var dev := trace[j].dev;
      && Idents(dev.queue) == Kept(dev.accepted, dev.dropped)
      && DistinctKeys(dev.queue)
      && (forall k :: k in dev.dropped ==> k in dev.issued)
      && (forall a :: a in dev.accepted ==>
            a in Idents(dev.queue) || (a.key in dev.dropped && AnsweredFor(dev.replies, a.key)))
      && (forall a :: a in Idents(dev.queue) ==> a in dev.accepted && a.key !in dev.dropped && IdentOk(dev.issued, a))
  {
    ReachableSystemsAreGood(trace, events, j);
    var dev := trace[j].dev;
    forall a: Ident ensures a in Idents(dev.queue) <==> a in dev.accepted && a.key !in dev.dropped {
      KeptMembers(dev.accepted, dev.dropped, a);
    }
    KeptKeysDistinct(dev.accepted, dev.dropped);
    forall x, y | 0 <= x < y < |dev.queue| ensures dev.queue[x].key != dev.queue[y].key {
      assert Idents(dev.queue)[x].key != Idents(dev.queue)[y].key;
    }
  }

  lemma {:induction false} KeptKeysDistinct(accepted: seq<Ident>, dropped: set<string>)
    requires forall i, j :: 0 <= i < j < |accepted| ==> accepted[i].key != accepted[j].key
    ensures forall i, j :: 0 <= i < j < |Kept(accepted, dropped)| ==>
            Kept(accepted, dropped)[i].key != Kept(accepted, dropped)[j].key
  {
    if accepted != [] {
      var init, a := accepted[..|accepted| - 1], accepted[|accepted| - 1];
      KeptKeysDistinct(init, dropped);
      forall b | b in Kept(init, dropped) ensures b.key != a.key {
        KeptMembers(init, dropped, b);
      }
    }
  }

  /** Temporary identifiers never leave the device in a replay: every path a pass sends names the
      real order that is meant, and contains no temporary identifier of the device. */
  lemma TempsNeverLeak(trace: seq<System>, events: seq<Event>, j: nat, w: Wire, t: Id)
    requires Trace(trace, events) && j < |trace| && w in trace[j].dev.wires && w.replay
    requires IsIssuedTemp(trace[j].dev.issued, t)
    ensures trace[j].states != [] && w.key in trace[j].dev.issued
    ensures Final(trace[j].dev.issued, Last(trace[j].states).keys, trace[j].dev.issued[w.key].target, w.path)
    ensures !Text.Contains(w.path, t)
  {
    ReachableSystemsAreGood(trace, events, j);
    var issued, keys := trace[j].dev.issued, Last(trace[j].states).keys;
    assert WireOk(issued, keys, w);
    var l :| l in issued && issued[l].temp == Some(t);
    assert RequestOk(issued, l, issued[l]);
    var target := issued[w.key].target;
    var id :| Names(issued, keys, target, id) && w.path == Render(Retarget(target, id));
    RemapRendered(Retarget(target, id), t, "");
    if target.Sub? {
      NamesReal(issued, keys, w.key, id);
      RealHasNoTemp(id, t);
    }
  }

  /** After a restart no entry is in flight. */
  lemma NothingInFlightAfterRestart(keys: Keys, dev: Device, i: nat)
    requires i < |dev.queue|
    ensures After(keys, dev, Restart).queue[i].status != Syncing
  {
    RecoveryLeavesNothingInFlight(dev.queue, i);
  }

  /** The path of an issued request names a word, so that it may be queued. */
  lemma IssuedPathIsQueueable(issued: map<string, Request>, k: string)
    requires IssuedOk(issued) && k in issued
    ensures Queueable(Render(issued[k].target))
  {
    var e := issued[k].target;
    assert RequestOk(issued, k, issued[k]);
    if e.Sub? {
      if !IsRealId(e.order) {
        var l :| l in issued && issued[l].temp == Some(e.order);
        assert RequestOk(issued, l, issued[l]);
      }
      assert IsWord(e.order);
    }
    QueueableExactly(Render(e));
  }

  /** No mutation is lost on the way into the queue: whenever the first attempt of a mutation fails for lack of
      a connection, exactly that mutation is appended, not yet tried. */
  lemma LostMutationsAreQueued(trace: seq<System>, events: seq<Event>, j: nat, key: string, clock: Clock)
    requires Trace(trace, events) && j < |trace| && key in trace[j].dev.awaiting
    ensures trace[j].states != [] && key in trace[j].dev.issued
    ensures var dev, keys := trace[j].dev, Last(trace[j].states).keys; var r := dev.issued[key];
      && Possible(keys, dev, FirstLost(key, clock))
      && var queue := After(keys, dev, FirstLost(key, clock)).queue;
         && |queue| == |dev.queue| + 1 && queue[..|dev.queue|] == dev.queue
         && var m := queue[|dev.queue|];
            && m.key == key && m.verb == VerbOf(r.target) && m.path == Render(r.target) && m.body == r.body
            && m.tenant == r.tenant && m.user == r.user && m.temp == r.temp && m.dependsOn == DependsOn(r.target)
            && m.status == MutationStatus.Pending && m.retryCount == 0 && m.nextAttempt.None?
  {
    hide Run, EntriesOk, PassesOk, WiresOk, RepliesOk, DependentsOk, DroppedOk, Queueable, Render;
    ReachableSystemsAreGood(trace, events, j);
    var dev := trace[j].dev;
    IssuedPathIsQueueable(dev.issued, key);
    QueueableIsNoSettle(Render(dev.issued[key].target));
    AwaitingIsNotQueued(Last(trace[j].states).keys, dev, key);
  }

  lemma AwaitingIsNotQueued(keys: Keys, dev: Device, key: string)
    requires Tidy(keys, dev) && key in dev.awaiting
    ensures key in dev.issued && !HasKey(dev.queue, key)
  {
    forall i | 0 <= i < |dev.queue| ensures dev.queue[i].key != key {
      assert EntryOk(dev.issued, keys, dev.accepted, dev.queue[i]);
      assert IdentOf(dev.queue[i]) in dev.accepted;
    }
  }
}
