/** Where an offline mutation enters the queue (lib/core/network/offline_interceptor.dart). */
module Interceptor {
  import opened Outcomes
  import opened Schema
  import opened Queue
  import opened Paths

  /** A request that failed, with what the interceptors attached to it. `retryable` says that the
      failure was a connection error or a timeout. */
  datatype FailedRequest = FailedRequest(
    verb: string, path: string, body: Payload, key: Option<string>, tenant: Option<Id>, owner: Option<Id>,
    skipsQueue: bool, temp: Option<Id>, dependsOn: Option<Id>, retryable: bool)

  /** The clock readings of onError, and the key it would make up. */
  datatype Clock = Clock(stamp: int, createdAt: Time, spareKey: string)

  predicate EndsWith(s: string, suffix: string) {
    |suffix| <= |s| && s[|s| - |suffix|..] == suffix
  }

  predicate IsQueued(r: FailedRequest) {
    && !r.skipsQueue && r.retryable
    && Queueable(r.path) && !EndsWith(r.path, "/settle")
    && r.verb in {"POST", "PATCH", "PUT", "DELETE"}
    && r.tenant.Some? && r.owner.Some?
  }

  /** The entry carries the request over unchanged: verb, path, body, key, tenant, owner and links. */
  function EntryOf(r: FailedRequest, clock: Clock): Mutation
    requires IsQueued(r)
  {
    var key := r.key.GetOr(clock.spareKey);
    Mutation(MutationId(clock.stamp, key), key, r.verb, r.path, r.body, r.tenant.value, r.owner.value, clock.createdAt,
             MutationStatus.Pending, 0, r.temp, r.dependsOn, None)
  }

  datatype Handled = Queued202(temp: Option<Id>) | PassedOn

  class OfflineInterceptor {
    const queue: MutationQueueStorage

    constructor (queue: MutationQueueStorage)
      ensures this.queue == queue
    {
      this.queue := queue;
    }

    /** onError, for requests that are not cached reads. */
    method OnError(r: FailedRequest, clock: Clock) returns (handled: Handled)
      modifies queue
      ensures queue.stored == if IsQueued(r) then Enqueued(old(queue.stored), EntryOf(r, clock)) else old(queue.stored)
      ensures handled == if IsQueued(r) then Queued202(r.temp) else PassedOn
      ensures queue.stored != old(queue.stored) ==>
                && |queue.stored| > 0 && queue.stored[..|queue.stored| - 1] == old(queue.stored)
                && var m := queue.stored[|queue.stored| - 1];
                   && m.key == (if r.key.Some? then r.key.value else clock.spareKey)
                   && m.id == MutationId(clock.stamp, m.key) && m.createdAt == clock.createdAt
                   && m.verb == r.verb && m.path == r.path && m.body == r.body
                   && Some(m.tenant) == r.tenant && Some(m.user) == r.owner
                   && m.temp == r.temp && m.dependsOn == r.dependsOn
                   && m.status == MutationStatus.Pending && m.retryCount == 0 && m.nextAttempt.None?
    {
      if r.skipsQueue {
        return PassedOn;
      }
      if r.retryable && Queueable(r.path) && !EndsWith(r.path, "/settle") &&
          r.verb in {"POST", "PATCH", "PUT", "DELETE"} {
        if r.tenant.Some? && r.owner.Some? {
          queue.Enqueue(EntryOf(r, clock));
          return Queued202(r.temp);
        }
      }
      return PassedOn;
    }
  }

  // ----- which paths may be queued -----

  predicate IsWord(s: string) {
    s != "" && forall i :: 0 <= i < |s| ==> IsWordChar(s[i])
  }

  lemma WordHasNoSlash(s: string)
    requires IsWord(s)
    ensures '/' !in s
  {
  }

  /** The test accepts exactly the paths the client renders for creating an order, adding an item,
      changing the status and closing: settling, previewing, transferring and charging are never queued. */
  lemma QueueableExactly(path: string)
    ensures Queueable(path) <==> exists e :: path == Render(e) && (e.Sub? ==> IsWord(e.order))
  {
    if e: Endpoint :| path == Render(e) && (e.Sub? ==> IsWord(e.order)) {
      if e.Sub? {
        WordHasNoSlash(e.order);
        RenderSplits(e);
      }
    }
    if Queueable(path) && path != "/orders" {
      var parts := Split(path, '/');
      var action := if parts[3] == "items" then Items else if parts[3] == "status" then StatusChange else Close;
      var e := Sub(parts[2], action);
      WordHasNoSlash(e.order);
      RenderSplits(e);
      assert Split(Render(e), '/') == parts;
      SplitDetermines(path, Render(e), '/');
    } else if path == "/orders" {
      assert path == Render(Orders);
    }
  }

  lemma {:induction false} SplitDetermines(a: string, b: string, c: char)
    requires Split(a, c) == Split(b, c)
    ensures a == b
  {
    if a != "" && b != "" {
      var x, y := Split(a[1..], c), Split(b[1..], c);
      assert (Split(a, c)[0] == "") <==> a[0] == c;
      assert (Split(b, c)[0] == "") <==> b[0] == c;
      if a[0] == c {
        assert Split(a, c)[1..] == x && Split(b, c)[1..] == y;
      } else {
        assert Split(a, c)[0][1..] == x[0] && Split(b, c)[0][1..] == y[0];
        assert Split(a, c)[1..] == x[1..] && Split(b, c)[1..] == y[1..];
        assert x == [x[0]] + x[1..] && y == [y[0]] + y[1..];
      }
      assert x == y;
      SplitDetermines(a[1..], b[1..], c);
      assert a[0] == b[0];
      assert a == [a[0]] + a[1..] && b == [b[0]] + b[1..];
    } else {
      SplitLength(a, c);
      SplitLength(b, c);
    }
  }

  lemma SplitLength(a: string, c: char)
    ensures a != "" ==> Split(a, c) != [""]
  {
    if a != "" {
      assert Split(a, c)[0] == "" ==> |Split(a, c)| >= 2;
    }
  }

  // ----- what is queued -----

  lemma SettleSuffix(path: string)
    requires EndsWith(path, "/settle")
    ensures |path| >= 2 && path[|path| - 2] == 'l'
  {
    assert path[|path| - 7..][5] == 'l';
  }

  lemma QueueableSuffix(path: string)
    requires Queueable(path)
    ensures |path| >= 2 && path[|path| - 2] != 'l'
  {
    QueueableExactly(path);
    var e :| path == Render(e) && (e.Sub? ==> IsWord(e.order));
    if e.Sub? {
      assert path[|path| - 2] == Name(e.action)[|Name(e.action)| - 2];
    }
  }

  lemma QueueableIsNoSettle(path: string)
    requires Queueable(path)
    ensures !EndsWith(path, "/settle")
  {
    hide EndsWith, Queueable;
    if EndsWith(path, "/settle") {
      SettleSuffix(path);
    }
    QueueableSuffix(path);
  }

  /** A failed request is queued exactly when it is a write to one of the four endpoints, by a signed-in
      user of a tenant, that may be tried again and was not sent by a pass. */
  lemma QueuedExactlyWhen(r: FailedRequest)
    ensures IsQueued(r) <==>
            && !r.skipsQueue && r.retryable && r.tenant.Some? && r.owner.Some?
            && (r.verb == "POST" || r.verb == "PATCH" || r.verb == "PUT" || r.verb == "DELETE")
            && exists e :: r.path == Render(e) && (e.Sub? ==> IsWord(e.order))
  {
    QueueableExactly(r.path);
    if Queueable(r.path) {
      QueueableIsNoSettle(r.path);
    }
  }
}
