/** One synchronisation pass (lib/core/network/sync_service.dart). The network decides each outcome,
    and whenever the pass waits the app may enqueue more entries. */
module Sync {
  import opened Outcomes
  import opened Schema
  import opened Text
  import opened Queue

  /** What a dispatched request came to. `realId` is the identifier found in a 2xx body. A transport
      failure is a DioError without a status. */
  datatype Outcome =
    | Response(code: int, realId: Option<string>)
    | DioError(status: Option<int>)
    | OtherError

  predicate IsSuccess(o: Outcome) {
    o.Response? && 200 <= o.code < 300
  }

  type Temps = map<string, string>

  // ----- before sending -----

  datatype Verdict = Skip | GiveUp | Send(path: string)

  /** The first entry that would create the awaited order. */
  function ParentOf(list: Entries, temp: string): Option<Mutation> {
    if list == [] then None else if list[0].temp == Some(temp) then Some(list[0]) else ParentOf(list[1..], temp)
  }

  /** Backoff and dependency checks, and the path to request. */
  function Judge(m: Mutation, now: Time, temps: Temps, list: Entries): Verdict {
    if m.nextAttempt.Some? && now < m.nextAttempt.value then
      Skip
    else if m.dependsOn.Some? && m.dependsOn.value !in temps then
      var parent := ParentOf(list, m.dependsOn.value);
      if parent.Some? && parent.value.status == MutationStatus.Failed && parent.value.retryCount >= 5
      then GiveUp
      else Skip
    else if m.dependsOn.Some? then
      Send(ReplaceAll(m.path, m.dependsOn.value, temps[m.dependsOn.value]))
    else
      Send(m.path)
  }

  // ----- after an outcome -----

  function Pow2(n: nat): nat {
    if n == 0 then 1 else 2 * Pow2(n - 1)
  }

  function BackoffSeconds(retry: nat): int {
    Least(30, Pow2(retry))
  }

  function MaxRetries(): int {
    5
  }

  /** The failed attempt is recorded: given up for now at the fifth, scheduled again before that. */
  function Retried(list: Entries, m: Mutation, clock: Time): Entries {
    var retry := m.retryCount + 1;
    if retry >= MaxRetries() then
      Updated(list, m.id, MutationStatus.Failed, Some(retry), None)
    else
      Updated(list, m.id, MutationStatus.Pending, Some(retry),
          Some(clock + 1000 * BackoffSeconds(if retry < 0 then 0 else retry)))
  }

  predicate IsPermanent(status: Option<int>) {
    status == Some(400) || status == Some(404) || status == Some(422) || status == Some(409)
  }

  /** The queue after a failure of `m`, which was sent as read at the start of the pass. */
  function Settle(list: Entries, m: Mutation, o: Outcome, clock: Time): Entries
    requires !IsSuccess(o)
  {
    match o
    case Response(code, _) =>
      if code == 409 then
        Updated(list, m.id, MutationStatus.Failed, Some(m.retryCount + 1), None)
      else
        Retried(list, m, clock)
    case DioError(status) =>
      if IsPermanent(status) then
        Updated(list, m.id, MutationStatus.Failed, Some(m.retryCount + 1), None)
      else
        Retried(list, m, clock)
    case OtherError =>
      Updated(list, m.id, MutationStatus.Failed, None, None)
  }

  function Learned(temps: Temps, m: Mutation, o: Outcome): Temps {
    if IsSuccess(o) && m.temp.Some? && o.realId.Some? then temps[m.temp.value := o.realId.value] else temps
  }

  /** The queue after a success of `m`, before its entry is removed. */
  function Relinked(list: Entries, m: Mutation, o: Outcome): Entries
    requires IsSuccess(o)
  {
    if m.temp.Some? && o.realId.Some? then Remapped(list, m.temp.value, o.realId.value) else list
  }

  /** A transient failure below the retry limit ends the pass. */
  predicate EndsPass(m: Mutation, o: Outcome) {
    o.DioError? && !IsPermanent(o.status) && m.retryCount + 1 < MaxRetries()
  }

  // ----- a whole pass -----

  /** What happens to a request: entries enqueued while it is in flight, its outcome, entries enqueued
      between remapping and removing after a success, and the clock when the outcome is handled. */
  datatype Exchange = Exchange(arrivals: Entries, outcome: Outcome, late: Entries, clock: Time)

  /** What the n-th request meets, and the entries enqueued just before the pass comes to its k-th one. */
  datatype Network = Network(answer: nat -> Exchange, quiet: nat -> Entries)

  datatype Sent = Sent(mutation: Mutation, path: string)

  datatype PassState = PassState(list: Entries, temps: Temps, sends: seq<Sent>, synced: nat, stopped: bool)

  function AllEnqueued(list: Entries, arrivals: Entries): Entries {
    if arrivals == [] then list else Enqueued(AllEnqueued(list, arrivals[..|arrivals| - 1]), arrivals[|arrivals| - 1])
  }

  /** The queue after a whole exchange. */
  function Handled(list: Entries, m: Mutation, x: Exchange): Entries {
    if IsSuccess(x.outcome) then
      Removed(AllEnqueued(Relinked(list, m, x.outcome), x.late), m.id)
    else
      Settle(list, m, x.outcome, x.clock)
  }

  /** The pass comes to its k-th entry, `m`. */
  function Visit(s: PassState, m: Mutation, now: Time, network: Network, k: nat): PassState {
    if s.stopped then
      s
    else
      var list := AllEnqueued(s.list, network.quiet(k));
      match Judge(m, now, s.temps, list)
      case Skip => s.(list := list)
      case GiveUp => s.(list := Updated(list, m.id, MutationStatus.Failed, None, None))
      case Send(path) =>
        var x := network.answer(|s.sends|);
        var inFlight := AllEnqueued(Updated(list, m.id, MutationStatus.Syncing, None, None), x.arrivals);
        PassState(Handled(inFlight, m, x), Learned(s.temps, m, x.outcome), s.sends + [Sent(m, path)],
                  s.synced + (if IsSuccess(x.outcome) then 1 else 0), EndsPass(m, x.outcome))
  }

  /** The state after the first entries of the pending list. */
  function RunPass(start: Entries, pending: Entries, now: Time, network: Network): PassState {
    if pending == [] then
      PassState(start, map[], [], 0, false)
    else
      var k := |pending| - 1;
      Visit(RunPass(start, pending[..k], now, network), pending[k], now, network, k)
  }

  lemma {:induction false} StoppedPassStays(start: Entries, pending: Entries, k: nat, now: Time,
      network: Network)
    requires k <= |pending| && RunPass(start, pending[..k], now, network).stopped
    ensures RunPass(start, pending, now, network) == RunPass(start, pending[..k], now, network)
    decreases |pending|
  {
    if k < |pending| {
      assert pending[..|pending| - 1][..k] == pending[..k];
      StoppedPassStays(start, pending[..|pending| - 1], k, now, network);
    } else {
      assert pending[..k] == pending;
    }
  }

  class SyncService {
    const queue: MutationQueueStorage
    var isSyncing: bool
    var lastError: Option<string>

    constructor (queue: MutationQueueStorage)
      ensures this.queue == queue && !isSyncing && lastError.None?
    {
      this.queue := queue;
      isSyncing, lastError := false, None;
    }

    /** sync(): `tenant` and `user` are what secure storage holds, `now` the clock when the pass
        starts. The ghost result lists the requests sent. */
    method Sync(tenant: Option<Id>, user: Option<Id>, now: Time, network: Network)
      returns (count: nat, ghost pending: Entries, ghost end: PassState)
      modifies this, queue
      ensures old(isSyncing) || tenant.None? || user.None? ==>
                count == 0 && queue.stored == old(queue.stored) && isSyncing == old(isSyncing)
      ensures !old(isSyncing) && tenant.Some? && user.Some? ==>
                && IsPendingList(old(queue.stored), tenant.value, user.value, pending)
                && end == RunPass(old(queue.stored), pending, now, network)
                && queue.stored == end.list
                && count == end.synced
                && !isSyncing
                && lastError == (if end.stopped then Some("Conexão interrompida durante a sincronização.") else None)
    {
      pending, end := [], PassState(queue.stored, map[], [], 0, false);
      if isSyncing {
        return 0, pending, end;
      }
      if tenant.None? || user.None? {
        lastError := Some("Sessão ou tenant não identificados para sincronização.");
        return 0, pending, end;
      }
      var todo := queue.GetPendingFor(tenant.value, user.value);
      pending := todo;
      if todo == [] {
        lastError := None;
        return 0, pending, end;
      }
      isSyncing := true;
      lastError := None;
      count := 0;
      var sends, activeTempOrders: Temps := 0, map[];
      ghost var start := queue.stored;
      for i := 0 to |todo|
        invariant isSyncing && lastError.None? && todo == pending
        invariant end == RunPass(start, todo[..i], now, network) && !end.stopped
        invariant queue.stored == end.list && activeTempOrders == end.temps && sends == |end.sends| &&
                  count == end.synced
      {
        var m := todo[i];
        assert todo[..i + 1][..i] == todo[..i];
        end := RunPass(start, todo[..i + 1], now, network);
        Arrive(network.quiet(i));
        var verdict := Judge(m, now, activeTempOrders, queue.stored);
        if verdict.Skip? {
          continue;
        }
        if verdict.GiveUp? {
          queue.UpdateStatus(m.id, MutationStatus.Failed, None, None);
          continue;
        }
        queue.UpdateStatus(m.id, MutationStatus.Syncing, None, None);
        var x := network.answer(sends);
        sends := sends + 1;
        Arrive(x.arrivals);
        var synced := HandleOutcome(m, x);
        activeTempOrders := Learned(activeTempOrders, m, x.outcome);
        if synced {
          count := count + 1;
        }
        if EndsPass(m, x.outcome) {
          StoppedPassStays(start, todo, i + 1, now, network);
          lastError := Some("Conexão interrompida durante a sincronização.");
          isSyncing := false;
          return;
        }
      }
      assert todo[..|todo|] == todo;
      isSyncing := false;
    }

    /** Entries that the app enqueues while the pass waits. */
    method Arrive(arrivals: Entries)
      modifies queue
      ensures queue.stored == AllEnqueued(old(queue.stored), arrivals)
    {
      for i := 0 to |arrivals|
        invariant queue.stored == AllEnqueued(old(queue.stored), arrivals[..i])
      {
        assert arrivals[..i + 1][..i] == arrivals[..i];
        queue.Enqueue(arrivals[i]);
      }
      assert arrivals[..|arrivals|] == arrivals;
    }

    /** The response and error handling of one request. */
    method HandleOutcome(m: Mutation, x: Exchange) returns (synced: bool)
      modifies queue
      ensures queue.stored == Handled(old(queue.stored), m, x)
      ensures synced == IsSuccess(x.outcome)
    {
      synced := false;
      match x.outcome
      case Response(code, realId) =>
        if 200 <= code < 300 {
          if m.temp.Some? && realId.Some? {
            queue.RemapTempOrderId(m.temp.value, realId.value);
          }
          Arrive(x.late);
          queue.Remove(m.id);
          synced := true;
        } else if code == 409 {
          queue.UpdateStatus(m.id, MutationStatus.Failed, Some(m.retryCount + 1), None);
        } else {
          Retry(m, x.clock);
        }
      case DioError(status) =>
        if status == Some(400) || status == Some(404) || status == Some(422) {
          queue.UpdateStatus(m.id, MutationStatus.Failed, Some(m.retryCount + 1), None);
        } else if status == Some(409) {
          queue.UpdateStatus(m.id, MutationStatus.Failed, Some(m.retryCount + 1), None);
        } else {
          Retry(m, x.clock);
        }
      case OtherError =>
        queue.UpdateStatus(m.id, MutationStatus.Failed, None, None);
    }

    method Retry(m: Mutation, clock: Time)
      modifies queue
      ensures queue.stored == Retried(old(queue.stored), m, clock)
    {
      var nextRetry := m.retryCount + 1;
      if nextRetry >= 5 {
        queue.UpdateStatus(m.id, MutationStatus.Failed, Some(nextRetry), None);
      } else {
        var delay := BackoffSeconds(if nextRetry < 0 then 0 else nextRetry);
        queue.UpdateStatus(m.id, MutationStatus.Pending, Some(nextRetry), Some(clock + 1000 * delay));
      }
    }
  }

  // ----- what a pass guarantees -----

  /** The failure is recorded with a new time for the next attempt. */
  predicate Reschedules(m: Mutation, o: Outcome) {
    && m.retryCount + 1 < MaxRetries()
    && ((o.Response? && o.code != 409) || (o.DioError? && !IsPermanent(o.status)))
  }

  /** What a failure does to the times of the next attempts: it moves that of the failed entry, if it
      is rescheduled, by 2, 4, 8 or 16 seconds from the clock, and no other. The cap of 30 is never
      reached. */
  lemma BackoffIsExactlyAPowerOfTwo(list: Entries, m: Mutation, o: Outcome, clock: Time, i: nat)
    requires !IsSuccess(o) && m.retryCount >= 0 && i < |list|
    ensures |Settle(list, m, o, clock)| == |list|
    ensures Settle(list, m, o, clock)[i].nextAttempt ==
            if i == IndexOf(list, m.id) && Reschedules(m, o) then Some(clock + 1000 * Pow2(m.retryCount + 1))
            else list[i].nextAttempt
    ensures Reschedules(m, o) ==> Pow2(m.retryCount + 1) in {2, 4, 8, 16}
  {
    assert Pow2(1) == 2 && Pow2(2) == 4 && Pow2(3) == 8 && Pow2(4) == 16;
  }

  /** Only pending entries are sent, and none before its scheduled time. */
  lemma {:induction false} SendsAreDue(start: Entries, pending: Entries, now: Time, network: Network, i: nat)
    requires i < |RunPass(start, pending, now, network).sends|
    ensures var m := RunPass(start, pending, now, network).sends[i].mutation;
      m in pending && (m.nextAttempt.Some? ==> m.nextAttempt.value <= now)
  {
    var init, m := pending[..|pending| - 1], pending[|pending| - 1];
    var before := RunPass(start, init, now, network);
    assert pending == init + [m];
    if i < |before.sends| {
      SendsAreDue(start, init, now, network, i);
      assert before.sends <= RunPass(start, pending, now, network).sends;
    }
  }

  /** Requests leave oldest first. */
  lemma {:induction false} SendsAreOldestFirst(start: Entries, pending: Entries, now: Time, network: Network,
      i: nat, j: nat)
    requires ByTime(pending) && i < j < |RunPass(start, pending, now, network).sends|
    ensures var sends := RunPass(start, pending, now, network).sends;
      sends[i].mutation.createdAt <= sends[j].mutation.createdAt
  {
    var init := pending[..|pending| - 1];
    var before := RunPass(start, init, now, network);
    assert before.sends <= RunPass(start, pending, now, network).sends;
    if j < |before.sends| {
      SendsAreOldestFirst(start, init, now, network, i, j);
    } else {
      SendsAreDue(start, init, now, network, i);
    }
  }

  /** The first transient failure below five retries is the last request of its pass. */
  lemma {:induction false} TransientFailureEndsThePass(start: Entries, pending: Entries, now: Time,
      network: Network, i: nat)
    requires i < |RunPass(start, pending, now, network).sends|
    ensures var s := RunPass(start, pending, now, network);
      EndsPass(s.sends[i].mutation, network.answer(i).outcome) <==> s.stopped && i + 1 == |s.sends|
  {
    if pending != [] {
      var before := RunPass(start, pending[..|pending| - 1], now, network);
      if i < |before.sends| {
        TransientFailureEndsThePass(start, pending[..|pending| - 1], now, network, i);
      }
    }
  }

  /** The temporary identifiers known to a pass are exactly those whose creating request was answered
      2xx with an identifier earlier in this pass. */
  predicate LearnedFrom(s: PassState, network: Network, j: nat, temp: string) {
    && j < |s.sends|
    && s.sends[j].mutation.temp == Some(temp)
    && IsSuccess(network.answer(j).outcome)
    && network.answer(j).outcome.realId.Some?
  }

  lemma {:induction false} KnownTempsWereLearned(start: Entries, pending: Entries, now: Time, network: Network,
      temp: string)
    returns (j: nat)
    requires temp in RunPass(start, pending, now, network).temps
    ensures var s := RunPass(start, pending, now, network);
      LearnedFrom(s, network, j, temp) && s.temps[temp] == network.answer(j).outcome.realId.value
  {
    hide Settle, AllEnqueued, Updated, Judge;
    var init := pending[..|pending| - 1];
    var before, s := RunPass(start, init, now, network), RunPass(start, pending, now, network);
    if temp in before.temps && s.temps[temp] == before.temps[temp] {
      j := KnownTempsWereLearned(start, init, now, network, temp);
      assert before.sends <= s.sends;
    } else {
      j := |before.sends|;
    }
  }

  lemma {:induction false} LearnedTempsAreKnown(start: Entries, pending: Entries, now: Time, network: Network,
      j: nat, temp: string)
    requires LearnedFrom(RunPass(start, pending, now, network), network, j, temp)
    ensures temp in RunPass(start, pending, now, network).temps
  {
    hide Settle, AllEnqueued, Updated, Judge;
    var init := pending[..|pending| - 1];
    var before, s := RunPass(start, init, now, network), RunPass(start, pending, now, network);
    assert pending != [] && s == Visit(before, pending[|pending| - 1], now, network, |pending| - 1);
    assert before.sends <= s.sends;
    if j < |before.sends| {
      LearnedTempsAreKnown(start, init, now, network, j, temp);
    }
  }

  /** A dependent mutation is sent only after the request that creates its order was answered 2xx in
      the same pass, and goes out with the real identifier in place of the temporary one. */
  lemma {:induction false} DependentsWaitForTheirParent(
      start: Entries, pending: Entries, now: Time, network: Network, i: nat)
    requires i < |RunPass(start, pending, now, network).sends|
    ensures var s := RunPass(start, pending, now, network);
      var m := s.sends[i].mutation;
      if m.dependsOn.None? then
        s.sends[i].path == m.path
      else
        exists j: nat :: j < i && LearnedFrom(s, network, j, m.dependsOn.value) &&
          s.sends[i].path == ReplaceAll(m.path, m.dependsOn.value, network.answer(j).outcome.realId.value)
  {
    var init := pending[..|pending| - 1];
    var before := RunPass(start, init, now, network);
    var s := RunPass(start, pending, now, network);
    if i < |before.sends| {
      DependentsWaitForTheirParent(start, init, now, network, i);
      assert before.sends <= s.sends;
      assert forall j: nat, t :: LearnedFrom(before, network, j, t) ==> LearnedFrom(s, network, j, t);
    } else if s.sends[i].mutation.dependsOn.Some? {
      var t := s.sends[i].mutation.dependsOn.value;
      var j := KnownTempsWereLearned(start, init, now, network, t);
      assert before.sends <= s.sends;
      assert LearnedFrom(s, network, j, t);
    }
  }

  /** The exact condition for an entry to be sent: when its turn comes, the pass is still running, its
      scheduled time has come, and, if it depends on an order, that order was created earlier in
      this very pass. A parent answered in an earlier pass does not count. */
  lemma SentExactlyWhen(start: Entries, pending: Entries, now: Time, network: Network, k: nat)
    requires k < |pending|
    ensures var before, after := RunPass(start, pending[..k], now, network),
            RunPass(start, pending[..k + 1], now, network);
      var m := pending[k];
      |after.sends| == |before.sends| + 1 <==>
        && !before.stopped
        && (m.nextAttempt.Some? ==> m.nextAttempt.value <= now)
        && (m.dependsOn.Some? ==> exists j: nat :: LearnedFrom(before, network, j, m.dependsOn.value))
  {
    assert pending[..k + 1][..k] == pending[..k];
    var before, m := RunPass(start, pending[..k], now, network), pending[k];
    if m.dependsOn.Some? {
      if m.dependsOn.value in before.temps {
        var j := KnownTempsWereLearned(start, pending[..k], now, network, m.dependsOn.value);
      }
      forall j: nat | LearnedFrom(before, network, j, m.dependsOn.value) ensures m.dependsOn.value in before.temps {
        LearnedTempsAreKnown(start, pending[..k], now, network, j, m.dependsOn.value);
      }
    }
  }

  // ----- retry counts -----

  predicate DistinctMutationIds(list: Entries) {
    forall i, j :: 0 <= i < j < |list| ==> list[i].id != list[j].id
  }

  ghost predicate Arrives(network: Network, a: Mutation) {
    exists n: nat :: a in network.quiet(n) || a in network.answer(n).arrivals || a in network.answer(n).late
  }

  /** Entries enqueued during the pass are new, and one identifier belongs to one entry. */
  ghost predicate FreshArrivals(start: Entries, network: Network) {
    && (forall a, b :: Arrives(network, a) && b in start ==> a.id != b.id)
    && (forall a, b :: Arrives(network, a) && Arrives(network, b) && a.id == b.id ==> a.retryCount == b.retryCount)
  }

  /** Some entry of the identifier arrives with this count. */
  ghost predicate ArrivesWith(network: Network, id: MutationId, count: Option<int>) {
    exists a :: Arrives(network, a) && a.id == id && count == Some(a.retryCount)
  }

  lemma SettledCount(list: Entries, m: Mutation, o: Outcome, clock: Time, id: MutationId)
    requires !IsSuccess(o)
    ensures CountOf(Settle(list, m, o, clock), id) ==
            if id == m.id && !o.OtherError? && CountOf(list, id).Some? then Some(m.retryCount + 1)
            else CountOf(list, id)
  {
    var retry := m.retryCount + 1;
    var next := Some(clock + 1000 * BackoffSeconds(if retry < 0 then 0 else retry));
    UpdatedCount(list, m.id, MutationStatus.Failed, Some(retry), None, id);
    UpdatedCount(list, m.id, MutationStatus.Pending, Some(retry), next, id);
    UpdatedCount(list, m.id, MutationStatus.Failed, None, None, id);
  }

  lemma {:induction false} ArrivedCount(list: Entries, arrivals: Entries, network: Network, id: MutationId)
    requires forall a :: a in arrivals ==> Arrives(network, a)
    ensures var count := CountOf(AllEnqueued(list, arrivals), id);
      count == CountOf(list, id) || ArrivesWith(network, id, count)
  {
    if arrivals != [] {
      var init, last := arrivals[..|arrivals| - 1], arrivals[|arrivals| - 1];
      assert arrivals == init + [last];
      ArrivedCount(list, init, network, id);
      LastCounts(AllEnqueued(list, init), last, id);
    }
  }

  lemma HandledCount(list: Entries, m: Mutation, x: Exchange, network: Network, id: MutationId)
    requires forall a :: a in x.late ==> Arrives(network, a)
    ensures var count := CountOf(Handled(list, m, x), id);
      count.None? || count == CountOf(list, id) || (id == m.id && count == Some(m.retryCount + 1)) ||
          ArrivesWith(network, id, count)
  {
    if IsSuccess(x.outcome) {
      var relinked := Relinked(list, m, x.outcome);
      SameCounts(list, relinked, id);
      ArrivedCount(relinked, x.late, network, id);
      RemovedCount(AllEnqueued(relinked, x.late), m.id, id);
    } else {
      SettledCount(list, m, x.outcome, x.clock, id);
    }
  }

  /** What one visit does to the count of an entry. */
  lemma VisitedCount(s: PassState, m: Mutation, now: Time, network: Network, k: nat, id: MutationId)
    ensures var count := CountOf(Visit(s, m, now, network, k).list, id);
      count.None? || count == CountOf(s.list, id) || (id == m.id && count == Some(m.retryCount + 1)) ||
          ArrivesWith(network, id, count)
  {
    hide CountOf, Handled, AllEnqueued, Updated, ArrivesWith;
    var list, x := AllEnqueued(s.list, network.quiet(k)), network.answer(|s.sends|);
    assert forall a :: a in network.quiet(k) || a in x.arrivals || a in x.late ==> Arrives(network, a);
    ArrivedCount(s.list, network.quiet(k), network, id);
    UpdatedCount(list, m.id, MutationStatus.Failed, None, None, id);
    UpdatedCount(list, m.id, MutationStatus.Syncing, None, None, id);
    var marked := Updated(list, m.id, MutationStatus.Syncing, None, None);
    ArrivedCount(marked, x.arrivals, network, id);
    HandledCount(AllEnqueued(marked, x.arrivals), m, x, network, id);
  }

  /** An entry that arrives during the pass keeps its count. */
  lemma {:induction false} ArrivalKeepsItsCount(start: Entries, pending: Entries, now: Time, network: Network,
      id: MutationId)
    requires forall m :: m in start ==> m.id != id
    requires forall m :: m in pending ==> m in start
    ensures var count := CountOf(RunPass(start, pending, now, network).list, id);
      count.None? || ArrivesWith(network, id, count)
  {
    if pending != [] {
      var k := |pending| - 1;
      assert pending == pending[..k] + [pending[k]];
      ArrivalKeepsItsCount(start, pending[..k], now, network, id);
      VisitedCount(RunPass(start, pending[..k], now, network), pending[k], now, network, k, id);
    }
  }

  lemma NothingOldArrives(start: Entries, network: Network, b: Mutation, count: Option<int>)
    requires FreshArrivals(start, network) && b in start
    ensures !ArrivesWith(network, b.id, count)
  {
  }

  /** What one visit does to the count of an entry queued at the start. */
  lemma OldCount(start: Entries, pending: Entries, now: Time, network: Network, b: Mutation)
    requires DistinctMutationIds(start) && FreshArrivals(start, network) && b in start
    requires pending != [] && pending[|pending| - 1] in start
    ensures var was, count := CountOf(RunPass(start, pending[..|pending| - 1], now, network).list, b.id),
            CountOf(RunPass(start, pending, now, network).list, b.id);
      count.None? || count == was || count == Some(b.retryCount + 1)
  {
    hide Visit, CountOf, ArrivesWith, FreshArrivals;
    var k := |pending| - 1;
    var before := RunPass(start, pending[..k], now, network);
    VisitedCount(before, pending[k], now, network, k, b.id);
    NothingOldArrives(start, network, b, CountOf(RunPass(start, pending, now, network).list, b.id));
  }

  /** An entry queued at the start has at any moment its first count, or one more. */
  lemma {:induction false} AtMostOneMore(start: Entries, pending: Entries, now: Time, network: Network, b: Mutation)
    requires DistinctMutationIds(start) && FreshArrivals(start, network) && forall m :: m in pending ==> m in start
    requires b in start
    ensures var count := CountOf(RunPass(start, pending, now, network).list, b.id);
      count.Some? ==> b.retryCount <= count.value <= b.retryCount + 1
  {
    if pending == [] {
      assert start[IndexOf(start, b.id)].id == b.id;
    } else {
      var k := |pending| - 1;
      assert pending == pending[..k] + [pending[k]];
      AtMostOneMore(start, pending[..k], now, network, b);
      OldCount(start, pending, now, network, b);
    }
  }

  /** Once a count is stored, the rest of the pass does not go below it. */
  lemma {:induction false} RaisedStays(start: Entries, pending: Entries, now: Time, network: Network, a: nat,
      b: Mutation)
    requires DistinctMutationIds(start) && FreshArrivals(start, network) && forall m :: m in pending ==> m in start
    requires a <= |pending| && b in start
    ensures var was, count := CountOf(RunPass(start, pending[..a], now, network).list, b.id),
            CountOf(RunPass(start, pending, now, network).list, b.id);
      was.Some? && count.Some? ==> was.value <= count.value
    decreases |pending|
  {
    hide CountOf, RunPass, FreshArrivals, DistinctMutationIds;
    if a == |pending| {
      assert pending[..a] == pending;
    } else {
      var k := |pending| - 1;
      assert pending == pending[..k] + [pending[k]] && pending[..k][..a] == pending[..a];
      assert pending[k] in start && forall m :: m in pending[..a] ==> m in pending;
      RaisedStays(start, pending[..k], now, network, a, b);
      AtMostOneMore(start, pending[..a], now, network, b);
      OldCount(start, pending, now, network, b);
    }
  }

  /** Within one pass no retry count ever goes down: of any two moments between visits, the later one
      has no lower count for any entry queued at both. */
  lemma RetryCountsNeverDecrease(start: Entries, pending: Entries, now: Time, network: Network, a: nat, b: nat,
      id: MutationId)
    requires DistinctMutationIds(start) && FreshArrivals(start, network) && forall m :: m in pending ==> m in start
    requires a <= b <= |pending|
    ensures var was, count := CountOf(RunPass(start, pending[..a], now, network).list, id),
            CountOf(RunPass(start, pending[..b], now, network).list, id);
      was.Some? && count.Some? ==> was.value <= count.value
  {
    assert pending[..b][..a] == pending[..a];
    if m :| m in start && m.id == id {
      RaisedStays(start, pending[..b], now, network, a, m);
    } else {
      ArrivalKeepsItsCount(start, pending[..a], now, network, id);
      ArrivalKeepsItsCount(start, pending[..b], now, network, id);
    }
  }
}
