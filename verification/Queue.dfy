/** The durable mutation queue (lib/core/network/mutation_queue_storage.dart) and its entries
    (lib/core/network/queued_mutation.dart). */
module Queue {
  import opened Outcomes
  import opened Schema
  import opened Text

  datatype MutationStatus = Pending | Syncing | Failed | Synced

  /** The identifier is built from the enqueue time and the idempotency key. */
  datatype MutationId = MutationId(stamp: int, key: string)

  datatype Payload =
    | CreatePayload(create: CreateBody)
    | ItemPayload(item: AddItemBody)
    | StatusPayload(next: StatusBody)
    | ClosePayload(close: SettleBody)

  datatype Mutation = Mutation(
    id: MutationId, key: string, verb: string, path: string, body: Payload, tenant: Id, user: Id, createdAt: Time,
    status: MutationStatus, retryCount: int, temp: Option<string>, dependsOn: Option<string>, nextAttempt: Option<Time>)

  type Entries = seq<Mutation>

  /** copyWith as updateStatus uses it: an absent retry count or attempt time keeps the old one. */
  function WithStatus(m: Mutation, status: MutationStatus, retryCount: Option<int>, nextAttempt: Option<Time>,
      clear: bool): Mutation {
    m.(status := status,
       retryCount := retryCount.GetOr(m.retryCount),
       nextAttempt := if clear then None else if nextAttempt.Some? then nextAttempt else m.nextAttempt)
  }

  /** copyWith as remapTempOrderId uses it. A null dependency means "keep the old one", so the
      dependency of an entry can never be cleared. */
  function WithTarget(m: Mutation, path: string, dependsOn: Option<string>): Mutation {
    m.(path := path, dependsOn := if dependsOn.Some? then dependsOn else m.dependsOn)
  }

  // ----- the operations as functions of the stored list -----

  predicate HasKey(list: Entries, key: string) {
    exists i :: 0 <= i < |list| && list[i].key == key
  }

  function Enqueued(list: Entries, m: Mutation): Entries {
    if HasKey(list, m.key) then list else list + [m]
  }

  /** The first position of an identifier, or the length of the list. */
  function IndexOf(list: Entries, id: MutationId): (k: nat)
    ensures k <= |list|
    ensures k < |list| ==> list[k].id == id
    ensures forall i :: 0 <= i < k ==> list[i].id != id
  {
    if list == [] || list[0].id == id then 0 else 1 + IndexOf(list[1..], id)
  }

  function Updated(list: Entries, id: MutationId, status: MutationStatus, retryCount: Option<int>,
      nextAttempt: Option<Time>): Entries {
    var k := IndexOf(list, id);
    if k == |list| then list else list[k := WithStatus(list[k], status, retryCount, nextAttempt, false)]
  }

  /** Path substitution, entry by entry. */
  function Remapped(list: Entries, temp: string, actual: string): (list': Entries)
    ensures |list'| == |list|
  {
    seq(|list|, i requires 0 <= i < |list| => list[i].(path := ReplaceAll(list[i].path, temp, actual)))
  }

  function Removed(list: Entries, id: MutationId): Entries {
    if list == [] then
      []
    else
      Removed(list[..|list| - 1], id) + (if list[|list| - 1].id == id then [] else [list[|list| - 1]])
  }

  function Recovered(list: Entries): (list': Entries)
    ensures |list'| == |list|
  {
    seq(|list|, i requires 0 <= i < |list| =>
      if list[i].status == Syncing then WithStatus(list[i], MutationStatus.Pending, None, None, false) else list[i])
  }

  // ----- getPendingFor -----

  predicate IsPendingFor(m: Mutation, tenant: Id, user: Id) {
    m.tenant == tenant && m.user == user && (m.status == MutationStatus.Pending || m.status == MutationStatus.Failed)
  }

  function Selected(list: Entries, tenant: Id, user: Id): Entries {
    if list == [] then
      []
    else
      var m := list[|list| - 1];
      Selected(list[..|list| - 1], tenant, user) + (if IsPendingFor(m, tenant, user) then [m] else [])
  }

  predicate ByTime(list: Entries) {
    forall i, j :: 0 <= i < j < |list| ==> list[i].createdAt <= list[j].createdAt
  }

  /** The selected entries, in some order of creation; the order of equal times is not promised. */
  ghost predicate IsPendingList(list: Entries, tenant: Id, user: Id, pending: Entries) {
    multiset(pending) == multiset(Selected(list, tenant, user)) && ByTime(pending)
  }

  lemma {:induction false} SelectedMembers(list: Entries, tenant: Id, user: Id, m: Mutation)
    ensures m in Selected(list, tenant, user) <==> m in list && IsPendingFor(m, tenant, user)
  {
    if list != [] {
      SelectedMembers(list[..|list| - 1], tenant, user, m);
      assert list == list[..|list| - 1] + [list[|list| - 1]];
    }
  }

  /** A pass is offered exactly the owner's pending and failed entries: an entry that has failed for
      good is offered again. */
  lemma PendingListMembers(list: Entries, tenant: Id, user: Id, pending: Entries, m: Mutation)
    requires IsPendingList(list, tenant, user, pending)
    ensures m in pending <==> m in list && IsPendingFor(m, tenant, user)
    ensures m in pending <==> m in list && m.tenant == tenant && m.user == user &&
                              m.status in {MutationStatus.Pending, MutationStatus.Failed}
  {
    SelectedMembers(list, tenant, user, m);
    assert m in pending <==> m in multiset(pending);
    assert m in Selected(list, tenant, user) <==> m in multiset(Selected(list, tenant, user));
  }

  function InsertedByTime(sorted: Entries, m: Mutation): Entries {
    if sorted == [] || sorted[|sorted| - 1].createdAt <= m.createdAt then
      sorted + [m]
    else
      InsertedByTime(sorted[..|sorted| - 1], m) + [sorted[|sorted| - 1]]
  }

  lemma {:induction false} InsertionKeepsEntries(sorted: Entries, m: Mutation)
    ensures multiset(InsertedByTime(sorted, m)) == multiset(sorted) + multiset{m}
  {
    if sorted != [] {
      InsertionKeepsEntries(sorted[..|sorted| - 1], m);
      assert sorted == sorted[..|sorted| - 1] + [sorted[|sorted| - 1]];
    }
  }

  lemma {:induction false} InsertionKeepsOrder(sorted: Entries, m: Mutation, bound: Time)
    requires ByTime(sorted) && m.createdAt <= bound && forall i :: 0 <= i < |sorted| ==> sorted[i].createdAt <= bound
    ensures ByTime(InsertedByTime(sorted, m))
    ensures forall i :: 0 <= i < |InsertedByTime(sorted, m)| ==> InsertedByTime(sorted, m)[i].createdAt <= bound
  {
    if sorted != [] && sorted[|sorted| - 1].createdAt > m.createdAt {
      InsertionKeepsOrder(sorted[..|sorted| - 1], m, sorted[|sorted| - 1].createdAt);
    }
  }

  lemma InsertionIsSound(sorted: Entries, m: Mutation)
    requires ByTime(sorted)
    ensures ByTime(InsertedByTime(sorted, m)) && multiset(InsertedByTime(sorted, m)) == multiset(sorted) + multiset{m}
  {
    InsertionKeepsEntries(sorted, m);
    var last := if sorted == [] then m.createdAt else sorted[|sorted| - 1].createdAt;
    InsertionKeepsOrder(sorted, m, if last < m.createdAt then m.createdAt else last);
  }

  lemma SelectedNext(list: Entries, i: nat, tenant: Id, user: Id)
    requires i < |list|
    ensures Selected(list[..i + 1], tenant, user) ==
            Selected(list[..i], tenant, user) + (if IsPendingFor(list[i], tenant, user) then [list[i]] else [])
  {
    assert list[..i + 1][..i] == list[..i];
  }

  /** The storage object. Its methods run one at a time, under the lock of the source. */
  class MutationQueueStorage {
    var stored: Entries

    constructor (raw: Entries)
      ensures stored == Recovered(raw)
    {
      stored := raw;
      new;
      RecoverState();
    }

    /** _recoverState */
    method RecoverState()
      modifies this
      ensures stored == Recovered(old(stored))
    {
      var list, modified := stored, false;
      for i := 0 to |list|
        invariant |list| == |old(stored)|
        invariant forall k :: 0 <= k < i ==> list[k] == Recovered(old(stored))[k]
        invariant forall k :: i <= k < |list| ==> list[k] == old(stored)[k]
        invariant !modified ==> list == old(stored)
      {
        if list[i].status == Syncing {
          list := list[i := WithStatus(list[i], MutationStatus.Pending, None, None, false)];
          modified := true;
        }
      }
      assert list == Recovered(old(stored));
      if modified {
        stored := list;
      }
    }

    method Enqueue(m: Mutation)
      modifies this
      ensures stored == Enqueued(old(stored), m)
      ensures stored == if exists e :: e in old(stored) && e.key == m.key then old(stored) else old(stored) + [m]
    {
      if exists i :: 0 <= i < |stored| && stored[i].key == m.key {
        return;
      }
      stored := stored + [m];
    }

    method GetPendingFor(tenant: Id, user: Id) returns (pending: Entries)
      ensures IsPendingList(stored, tenant, user, pending)
    {
      pending := [];
      assert ByTime(pending);
      for i := 0 to |stored|
        invariant ByTime(pending) && multiset(pending) == multiset(Selected(stored[..i], tenant, user))
      {
        hide ByTime, InsertedByTime;
        SelectedNext(stored, i, tenant, user);
        if IsPendingFor(stored[i], tenant, user) {
          InsertionIsSound(pending, stored[i]);
          pending := InsertedByTime(pending, stored[i]);
        }
      }
      assert stored[..|stored|] == stored;
    }

    method UpdateStatus(id: MutationId, status: MutationStatus, retryCount: Option<int>, nextAttempt: Option<Time>)
      modifies this
      ensures stored == Updated(old(stored), id, status, retryCount, nextAttempt)
    {
      var index := IndexOf(stored, id);
      if index < |stored| {
        stored := stored[index := WithStatus(stored[index], status, retryCount, nextAttempt, false)];
      }
    }

    /** remapTempOrderId. The flag `modified` stays set once an entry has changed, so later entries
        are copied too; the copies equal the originals. */
    method RemapTempOrderId(temp: string, actual: string)
      modifies this
      ensures stored == Remapped(old(stored), temp, actual)
    {
      var list, modified := stored, false;
      for i := 0 to |list|
        invariant stored == old(stored) && |list| == |stored|
        invariant forall k :: 0 <= k < i ==> list[k] == Remapped(old(stored), temp, actual)[k]
        invariant forall k :: i <= k < |list| ==> list[k] == old(stored)[k]
        invariant !modified ==> list == old(stored)
      {
        var m := list[i];
        var newPath, newDepends := m.path, m.dependsOn;
        if Contains(m.path, temp) {
          newPath := ReplaceAll(m.path, temp, actual);
          modified := true;
        } else {
          AbsentOrEmpty(m.path, temp, actual);
        }
        if m.dependsOn == Some(temp) {
          newDepends := None;
          modified := true;
        }
        if modified {
          list := list[i := WithTarget(m, newPath, newDepends)];
        }
      }
      assert list == Remapped(old(stored), temp, actual);
      if modified {
        stored := list;
      }
    }

    method Remove(id: MutationId)
      modifies this
      ensures stored == Removed(old(stored), id)
      ensures forall m :: m in stored <==> m in old(stored) && m.id != id
    {
      var list: Entries := [];
      for i := 0 to |stored|
        invariant stored == old(stored) && list == Removed(stored[..i], id)
        invariant forall m :: m in list <==> m in stored[..i] && m.id != id
      {
        assert stored[..i + 1] == stored[..i] + [stored[i]] && stored[..i + 1][..i] == stored[..i];
        if stored[i].id != id {
          list := list + [stored[i]];
        }
      }
      assert stored[..|stored|] == stored;
      stored := list;
    }
  }

  /** A path that does not contain the pattern is left as it is; no path lacks the empty pattern. */
  lemma AbsentOrEmpty(s: string, pat: string, rep: string)
    requires !Contains(s, pat)
    ensures ReplaceAll(s, pat, rep) == s
  {
    assert "" <= s;
    ReplaceAbsent(s, pat, rep);
  }

  // ----- what an operation keeps -----

  /** The part of an entry that no operation may change. */
  datatype Ident = Ident(
    id: MutationId, key: string, verb: string, body: Payload, tenant: Id, user: Id, createdAt: Time,
    temp: Option<string>, dependsOn: Option<string>)

  function IdentOf(m: Mutation): Ident {
    Ident(m.id, m.key, m.verb, m.body, m.tenant, m.user, m.createdAt, m.temp, m.dependsOn)
  }

  function Idents(list: Entries): (idents: seq<Ident>)
    ensures |idents| == |list|
  {
    seq(|list|, i requires 0 <= i < |list| => IdentOf(list[i]))
  }

  /** Status updates, remapping and recovery change no entry's identity and no order. */
  lemma EditsKeepIdents(list: Entries, id: MutationId, status: MutationStatus, retryCount: Option<int>,
      nextAttempt: Option<Time>, temp: string, actual: string)
    ensures Idents(Updated(list, id, status, retryCount, nextAttempt)) == Idents(list)
    ensures Idents(Remapped(list, temp, actual)) == Idents(list)
    ensures Idents(Recovered(list)) == Idents(list)
  {
  }

  /** After recovery no entry is in flight. */
  lemma RecoveryLeavesNothingInFlight(list: Entries, i: nat)
    requires i < |list|
    ensures Recovered(list)[i].status != Syncing
    ensures Recovered(list)[i] ==
            if list[i].status == Syncing then list[i].(status := MutationStatus.Pending) else list[i]
  {
  }

  predicate DistinctKeys(list: Entries) {
    forall i, j :: 0 <= i < j < |list| ==> list[i].key != list[j].key
  }

  // ----- stored retry counts -----

  /** The stored retry count of an entry, if it is queued. */
  function CountOf(list: Entries, id: MutationId): Option<int> {
    var k := IndexOf(list, id);
    if k < |list| then Some(list[k].retryCount) else None
  }

  lemma {:induction false} SamePositions(a: Entries, b: Entries, id: MutationId)
    requires |a| == |b| && forall i :: 0 <= i < |a| ==> a[i].id == b[i].id
    ensures IndexOf(a, id) == IndexOf(b, id)
  {
    if a != [] && a[0].id != id {
      SamePositions(a[1..], b[1..], id);
    }
  }

  lemma SameCounts(a: Entries, b: Entries, id: MutationId)
    requires |a| == |b| && forall i :: 0 <= i < |a| ==> a[i].id == b[i].id && a[i].retryCount == b[i].retryCount
    ensures CountOf(a, id) == CountOf(b, id)
  {
    SamePositions(a, b, id);
  }

  lemma UpdatedCount(list: Entries, id: MutationId, status: MutationStatus, count: Option<int>, next: Option<Time>,
      other: MutationId)
    ensures CountOf(Updated(list, id, status, count, next), other) ==
            if other == id && count.Some? && CountOf(list, id).Some? then count else CountOf(list, other)
  {
    SamePositions(list, Updated(list, id, status, count, next), other);
  }

  lemma EnqueuedCount(list: Entries, m: Mutation, id: MutationId)
    requires CountOf(list, id).Some?
    ensures CountOf(Enqueued(list, m), id) == CountOf(list, id)
  {
    var k := IndexOf(list, id);
    if IndexOf(list + [m], id) != k {
      assert (list + [m])[k].id == id;
    }
  }

  lemma {:induction false} RemovedCount(list: Entries, id: MutationId, other: MutationId)
    ensures CountOf(Removed(list, id), other) == if other == id then None else CountOf(list, other)
  {
    if list == [] {
      assert Removed(list, id) == [];
    } else {
      var init, m := list[..|list| - 1], list[|list| - 1];
      assert list == init + [m];
      assert Removed(list, id) == if m.id == id then Removed(init, id) else Removed(init, id) + [m];
      RemovedCount(init, id, other);
      LastCounts(init, m, other);
      LastCounts(Removed(init, id), m, other);
    }
  }

  lemma LastCounts(init: Entries, m: Mutation, id: MutationId)
    ensures CountOf(init + [m], id) ==
            if CountOf(init, id).Some? then CountOf(init, id) else if m.id == id then Some(m.retryCount) else None
  {
    var k, n := IndexOf(init, id), IndexOf(init + [m], id);
    if k < |init| {
      assert (init + [m])[k].id == id && k == n;
    } else {
      forall i | 0 <= i < |init| ensures (init + [m])[i].id != id {
        assert (init + [m])[i] == init[i];
      }
      assert (init + [m])[|init|] == m;
    }
  }
}
