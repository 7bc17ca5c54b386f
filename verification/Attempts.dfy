/** What one attempt of a synchronisation pass leaves behind, outcome by outcome: the stored entry, the
    time of its next attempt, and whether the pass goes on. */
module Attempts {
  import opened Outcomes
  import opened Schema
  import opened Queue
  import opened Sync

  /** The stored entry of an identifier. */
  function Stored(list: Entries, id: MutationId): Option<Mutation> {
    var k := IndexOf(list, id);
    if k < |list| then Some(list[k]) else None
  }

  // ----- the edits of the queue -----

  lemma StoredUpdated(list: Entries, id: MutationId, status: MutationStatus, count: Option<int>, next: Option<Time>,
      other: MutationId)
    ensures var e, e' := Stored(list, other), Stored(Updated(list, id, status, count, next), other);
      e' == if e.None? || other != id then e
            else Some(e.value.(status := status,
                               retryCount := if count.Some? then count.value else e.value.retryCount,
                               nextAttempt := if next.Some? then next else e.value.nextAttempt))
  {
    SamePositions(list, Updated(list, id, status, count, next), other);
  }

  lemma StoredEnqueued(list: Entries, m: Mutation, id: MutationId)
    requires Stored(list, id).Some?
    ensures Stored(Enqueued(list, m), id) == Stored(list, id)
  {
    var k := IndexOf(list, id);
    if IndexOf(list + [m], id) != k {
      assert (list + [m])[k].id == id;
    }
  }

  lemma {:induction false} StoredArrivals(list: Entries, arrivals: Entries, id: MutationId)
    requires Stored(list, id).Some?
    ensures Stored(AllEnqueued(list, arrivals), id) == Stored(list, id)
  {
    if arrivals != [] {
      StoredArrivals(list, arrivals[..|arrivals| - 1], id);
      StoredEnqueued(AllEnqueued(list, arrivals[..|arrivals| - 1]), arrivals[|arrivals| - 1], id);
    }
  }

  // ----- the outcome of one attempt -----

  /** 2, 4, 8 and 16 seconds after the first to the fourth failure. */
  function Delay(failures: int): int {
    if failures == 1 then 2000 else if failures == 2 then 4000 else if failures == 3 then 8000 else 16000
  }

  /** The attempt of `m` failed for good: nothing is scheduled anew, and the pass goes on. */
  predicate FailsForGood(e: Mutation, e': Option<Mutation>, count: int, stopped: bool) {
    e' == Some(e.(status := MutationStatus.Failed, retryCount := count)) && !stopped
  }

  /** It may be tried again, later; below five failures. */
  predicate IsScheduledAgain(e: Mutation, e': Option<Mutation>, count: int, clock: Time) {
    e' == Some(e.(status := MutationStatus.Pending, retryCount := count, nextAttempt := Some(clock + Delay(count))))
  }

  /** From the stored entry before the answer to the one after it, and whether the pass is stopped. */
  predicate EndsAs(e: Mutation, failures: int, x: Exchange, e': Option<Mutation>, stopped: bool) {
    match x.outcome
    case Response(code, _) =>
      if 200 <= code <= 299 then e'.None? && !stopped
      else if code == 409 || failures >= 5 then FailsForGood(e, e', failures, stopped)
      else IsScheduledAgain(e, e', failures, x.clock) && !stopped
    case DioError(status) =>
      if status in {Some(400), Some(404), Some(409), Some(422)} || failures >= 5 then
        FailsForGood(e, e', failures, stopped)
      else
        IsScheduledAgain(e, e', failures, x.clock) && stopped
    case OtherError => FailsForGood(e, e', e.retryCount, stopped)
  }

  lemma DelayIsBackoff(failures: int)
    requires 1 <= failures <= 4
    ensures 1000 * BackoffSeconds(failures) == Delay(failures)
  {
    assert Pow2(1) == 2 && Pow2(2) == 4 && Pow2(3) == 8 && Pow2(4) == 16;
  }

  lemma FailureEndsAs(list: Entries, m: Mutation, x: Exchange)
    requires Stored(list, m.id).Some? && m.retryCount >= 0 && !IsSuccess(x.outcome)
    ensures EndsAs(Stored(list, m.id).value, m.retryCount + 1, x, Stored(Settle(list, m, x.outcome, x.clock), m.id),
                   EndsPass(m, x.outcome))
  {
    hide Stored, Updated, BackoffSeconds;
    var retry := m.retryCount + 1;
    if retry <= 4 {
      DelayIsBackoff(retry);
    }
    StoredUpdated(list, m.id, MutationStatus.Failed, Some(retry), None, m.id);
    StoredUpdated(list, m.id, MutationStatus.Pending, Some(retry), Some(x.clock + 1000 * BackoffSeconds(retry)), m.id);
    StoredUpdated(list, m.id, MutationStatus.Failed, None, None, m.id);
  }

  lemma SuccessEndsAs(list: Entries, m: Mutation, x: Exchange)
    requires IsSuccess(x.outcome)
    ensures Stored(Handled(list, m, x), m.id).None? && !EndsPass(m, x.outcome)
  {
    RemovedCount(AllEnqueued(Relinked(list, m, x.outcome), x.late), m.id, m.id);
  }

  /** The next answer of the network, when entry k is sent. */
  lemma SentVisit(start: Entries, pending: Entries, now: Time, network: Network, k: nat)
    requires k < |pending|
    requires |RunPass(start, pending[..k + 1], now, network).sends| ==
             |RunPass(start, pending[..k], now, network).sends| + 1
    ensures var before := RunPass(start, pending[..k], now, network);
      var after := RunPass(start, pending[..k + 1], now, network);
      var m, x := pending[k], network.answer(|before.sends|);
      && after.list ==
           Handled(
             AllEnqueued(
               Updated(AllEnqueued(before.list, network.quiet(k)), m.id, MutationStatus.Syncing, None, None),
               x.arrivals),
             m, x)
      && after.stopped == EndsPass(m, x.outcome)
  {
    hide Handled, Updated, AllEnqueued, Judge, EndsPass;
    assert pending[..k + 1][..k] == pending[..k];
  }

  /** One attempt of a pass, exactly: 2xx removes the entry; 400, 404, 409, 422 and a response of 409 fail it
      and let the pass go on; any other failure schedules it again below five failures and gives it up at
      the fifth, and a connection failure scheduled again stops the pass. */
  lemma AttemptIsExact(start: Entries, pending: Entries, now: Time, network: Network, k: nat)
    requires k < |pending| && pending[k].retryCount >= 0
    requires |RunPass(start, pending[..k + 1], now, network).sends| ==
             |RunPass(start, pending[..k], now, network).sends| + 1
    requires Stored(RunPass(start, pending[..k], now, network).list, pending[k].id).Some?
    ensures var before := RunPass(start, pending[..k], now, network);
      var after := RunPass(start, pending[..k + 1], now, network);
      var m := pending[k];
      EndsAs(Stored(before.list, m.id).value.(status := MutationStatus.Syncing), m.retryCount + 1,
             network.answer(|before.sends|), Stored(after.list, m.id), after.stopped)
  {
    hide Stored, Settle, Updated, AllEnqueued, RunPass, Relinked, EndsAs, EndsPass;
    var before, m := RunPass(start, pending[..k], now, network), pending[k];
    var x := network.answer(|before.sends|);
    SentVisit(start, pending, now, network, k);
    StoredArrivals(before.list, network.quiet(k), m.id);
    var list := AllEnqueued(before.list, network.quiet(k));
    StoredUpdated(list, m.id, MutationStatus.Syncing, None, None, m.id);
    var marked := Updated(list, m.id, MutationStatus.Syncing, None, None);
    StoredArrivals(marked, x.arrivals, m.id);
    var inFlight := AllEnqueued(marked, x.arrivals);
    if IsSuccess(x.outcome) {
      SuccessEndsAs(inFlight, m, x);
      SuccessIs2xx(Stored(inFlight, m.id).value, m.retryCount + 1, x);
    } else {
      FailureEndsAs(inFlight, m, x);
    }
  }

  lemma SuccessIs2xx(e: Mutation, failures: int, x: Exchange)
    requires IsSuccess(x.outcome)
    ensures EndsAs(e, failures, x, None, false)
  {
  }

  // ----- entries that are passed over -----

  /** The first entry that creates the order is given up after five failures. */
  predicate ParentGivenUp(list: Entries, temp: string) {
    exists p :: 0 <= p < |list| && list[p].temp == Some(temp) &&
                (forall q :: 0 <= q < p ==> list[q].temp != Some(temp)) &&
                list[p].status == MutationStatus.Failed && list[p].retryCount >= 5
  }

  lemma {:induction false} ParentIsFirst(list: Entries, temp: string)
    ensures var parent := ParentOf(list, temp);
      parent.Some? && parent.value.status == MutationStatus.Failed && parent.value.retryCount >= 5 <==>
      ParentGivenUp(list, temp)
  {
    if list != [] {
      if list[0].temp == Some(temp) {
        if ParentGivenUp(list, temp) {
          var p :| 0 <= p < |list| && list[p].temp == Some(temp) &&
            (forall q :: 0 <= q < p ==> list[q].temp != Some(temp));
          assert p == 0;
        }
      } else {
        ParentIsFirst(list[1..], temp);
        FirstParentMoves(list, temp);
      }
    }
  }

  lemma FirstParentMoves(list: Entries, temp: string)
    requires list != [] && list[0].temp != Some(temp)
    ensures ParentGivenUp(list, temp) <==> ParentGivenUp(list[1..], temp)
  {
    if ParentGivenUp(list, temp) {
      var p :| 0 <= p < |list| && list[p].temp == Some(temp) &&
        (forall q :: 0 <= q < p ==> list[q].temp != Some(temp)) &&
        list[p].status == MutationStatus.Failed && list[p].retryCount >= 5;
      assert list[1..][p - 1] == list[p];
      assert forall q :: 0 <= q < p - 1 ==> list[1..][q] == list[q + 1];
    }
    if ParentGivenUp(list[1..], temp) {
      var p :| 0 <= p < |list[1..]| && list[1..][p].temp == Some(temp) &&
        (forall q :: 0 <= q < p ==> list[1..][q].temp != Some(temp)) &&
        list[1..][p].status == MutationStatus.Failed && list[1..][p].retryCount >= 5;
      assert list[p + 1] == list[1..][p];
      assert forall q :: 1 <= q < p + 1 ==> list[q] == list[1..][q - 1];
    }
  }

  /** An entry that is not sent, exactly: it is marked failed if its time has come and the creation it waits
      for has been given up, and left as it is otherwise; the pass goes on as before. */
  lemma PassingOverIsExact(start: Entries, pending: Entries, now: Time, network: Network, k: nat)
    requires k < |pending|
    requires RunPass(start, pending[..k + 1], now, network).sends == RunPass(start, pending[..k], now, network).sends
    ensures var before := RunPass(start, pending[..k], now, network);
      var after := RunPass(start, pending[..k + 1], now, network);
      var m, list := pending[k], AllEnqueued(before.list, network.quiet(k));
      && after.temps == before.temps && after.stopped == before.stopped && after.synced == before.synced
      && after.list ==
           if before.stopped then before.list
           else if && (m.nextAttempt.Some? ==> m.nextAttempt.value <= now)
                   && m.dependsOn.Some? && ParentGivenUp(list, m.dependsOn.value)
           then Updated(list, m.id, MutationStatus.Failed, None, None)
           else list
  {
    hide Handled, Updated, AllEnqueued, ParentGivenUp;
    assert pending[..k + 1][..k] == pending[..k];
    if pending[k].dependsOn.Some? {
      ParentIsFirst(AllEnqueued(RunPass(start, pending[..k], now, network).list, network.quiet(k)),
          pending[k].dependsOn.value);
    }
  }

  // ----- the count reported -----

  /** How many of the first n answers are 2xx. */
  function SuccessesAmong(network: Network, n: nat): nat {
    if n == 0 then
      0
    else
      var o := network.answer(n - 1).outcome;
      SuccessesAmong(network, n - 1) + (if o.Response? && 200 <= o.code <= 299 then 1 else 0)
  }

  /** A pass reports as many entries as were answered 2xx. */
  lemma {:induction false} ReportedCountIsExact(start: Entries, pending: Entries, now: Time, network: Network)
    ensures var s := RunPass(start, pending, now, network); s.synced == SuccessesAmong(network, |s.sends|)
  {
    hide Handled, Updated, AllEnqueued, Judge;
    if pending != [] {
      ReportedCountIsExact(start, pending[..|pending| - 1], now, network);
    }
  }
}
