/** Which queued entries a pass can send at all, whatever the clock and the network do. */
module Sendable {
  import opened Outcomes
  import opened Schema
  import opened Queue
  import Sync

  /** Entry `c` creates the order that `m` waits for, and a pass of the owner of `m` may visit it
      before `m`. */
  predicate Creates(c: Mutation, m: Mutation) {
    && c.temp.Some? && c.temp == m.dependsOn
    && c.tenant == m.tenant && c.user == m.user
    && c.createdAt <= m.createdAt
  }

  /** Creations wait for nothing. */
  predicate CreationsAreFree(list: Entries) {
    forall m :: m in list && m.temp.Some? ==> m.dependsOn.None?
  }

  predicate Sends(s: Sync.PassState, m: Mutation) {
    exists i :: 0 <= i < |s.sends| && s.sends[i].mutation == m
  }

  /** Some pass over the list, in an admissible order, at some time and with some network, sends `m`. */
  ghost predicate SomePassSends(list: Entries, m: Mutation) {
    exists pending, now, network ::
      IsPendingList(list, m.tenant, m.user, pending) && Sends(Sync.RunPass(list, pending, now, network), m)
  }

  // ----- a network that answers everything -----

  function AllGood(): Sync.Network {
    Sync.Network((n: nat) => Sync.Exchange([], Sync.Response(201, Some("id")), [], 0), (k: nat) => [])
  }

  predicate AllDue(pending: Entries, now: Time) {
    forall m :: m in pending && m.nextAttempt.Some? ==> m.nextAttempt.value <= now
  }

  function LatestAttempt(pending: Entries): Time {
    if pending == [] then
      0
    else
      var rest, m := LatestAttempt(pending[1..]), pending[0];
      if m.nextAttempt.Some? && m.nextAttempt.value > rest then m.nextAttempt.value else rest
  }

  lemma {:induction false} AllDueEventually(pending: Entries)
    ensures AllDue(pending, LatestAttempt(pending))
  {
    if pending != [] {
      AllDueEventually(pending[1..]);
      assert pending == [pending[0]] + pending[1..];
    }
  }

  lemma {:induction false} GoodPassNeverStops(start: Entries, pending: Entries, now: Time)
    ensures !Sync.RunPass(start, pending, now, AllGood()).stopped
  {
    if pending != [] {
      GoodPassNeverStops(start, pending[..|pending| - 1], now);
    }
  }

  /** A good pass sends every entry that waits for nothing, and knows the orders it creates. */
  lemma {:induction false} FreeEntryIsSent(start: Entries, pending: Entries, now: Time, i: nat)
    requires i < |pending| && AllDue(pending, now) && pending[i].dependsOn.None?
    ensures var s := Sync.RunPass(start, pending, now, AllGood());
      Sends(s, pending[i]) && (pending[i].temp.Some? ==> pending[i].temp.value in s.temps)
    decreases |pending|
  {
    var init, m := pending[..|pending| - 1], pending[|pending| - 1];
    var before, s := Sync.RunPass(start, init, now, AllGood()), Sync.RunPass(start, pending, now, AllGood());
    GoodPassNeverStops(start, init, now);
    assert m in pending && pending == init + [m];
    if i < |init| {
      FreeEntryIsSent(start, init, now, i);
      var j :| 0 <= j < |before.sends| && before.sends[j].mutation == pending[i];
      assert s.sends[j].mutation == pending[i];
    } else {
      assert s.sends[|before.sends|].mutation == m;
    }
  }

  /** And every entry whose order it created before. */
  lemma {:induction false} DependentIsSent(start: Entries, pending: Entries, now: Time, i: nat, j: nat)
    requires i < j < |pending| && AllDue(pending, now) && pending[i].dependsOn.None?
    requires pending[i].temp.Some? && pending[j].dependsOn == pending[i].temp
    ensures Sends(Sync.RunPass(start, pending, now, AllGood()), pending[j])
    decreases |pending|
  {
    hide Sync.Settle, Sync.AllEnqueued, Updated;
    var init, m := pending[..|pending| - 1], pending[|pending| - 1];
    var before, s := Sync.RunPass(start, init, now, AllGood()), Sync.RunPass(start, pending, now, AllGood());
    GoodPassNeverStops(start, init, now);
    assert m in pending && pending == init + [m];
    if j < |init| {
      DependentIsSent(start, init, now, i, j);
      var k :| 0 <= k < |before.sends| && before.sends[k].mutation == pending[j];
      assert s.sends[k].mutation == pending[j];
    } else {
      FreeEntryIsSent(start, init, now, i);
      assert s.sends[|before.sends|].mutation == m;
    }
  }

  // ----- an admissible order that puts the creation first -----

  function Sorted(list: Entries): Entries {
    if list == [] then [] else InsertedByTime(Sorted(list[..|list| - 1]), list[|list| - 1])
  }

  lemma {:induction false} SortedKeepsEntries(list: Entries)
    ensures multiset(Sorted(list)) == multiset(list)
  {
    if list != [] {
      SortedKeepsEntries(list[..|list| - 1]);
      InsertionKeepsEntries(Sorted(list[..|list| - 1]), list[|list| - 1]);
      assert list == list[..|list| - 1] + [list[|list| - 1]];
    }
  }

  lemma {:induction false} SortedIsByTime(list: Entries)
    ensures ByTime(Sorted(list))
  {
    if list != [] {
      var sorted, m := Sorted(list[..|list| - 1]), list[|list| - 1];
      SortedIsByTime(list[..|list| - 1]);
      var last := if sorted == [] then m.createdAt else sorted[|sorted| - 1].createdAt;
      InsertionKeepsOrder(sorted, m, if last < m.createdAt then m.createdAt else last);
    }
  }

  /** An entry is inserted after all entries that are not younger. */
  lemma {:induction false} InsertedAfter(sorted: Entries, m: Mutation, c: Mutation) returns (i: nat, j: nat)
    requires c in sorted && c.createdAt <= m.createdAt
    ensures var list := InsertedByTime(sorted, m); i < j < |list| && list[i] == c && list[j] == m
  {
    if sorted[|sorted| - 1].createdAt <= m.createdAt {
      i :| 0 <= i < |sorted| && sorted[i] == c;
      j := |sorted|;
    } else {
      assert sorted == sorted[..|sorted| - 1] + [sorted[|sorted| - 1]];
      i, j := InsertedAfter(sorted[..|sorted| - 1], m, c);
    }
  }

  lemma CreationCanComeFirst(list: Entries, c: Mutation, m: Mutation) returns (pending: Entries, i: nat, j: nat)
    requires c in Selected(list, m.tenant, m.user) && m in Selected(list, m.tenant, m.user)
    requires c != m && c.createdAt <= m.createdAt
    ensures IsPendingList(list, m.tenant, m.user, pending)
    ensures i < j < |pending| && pending[i] == c && pending[j] == m
  {
    var all := Selected(list, m.tenant, m.user);
    var q :| 0 <= q < |all| && all[q] == m;
    var rest := all[..q] + all[q + 1..];
    assert all == all[..q] + [m] + all[q + 1..];
    assert multiset(all) == multiset(rest + [m]);
    assert c in rest;
    assert (rest + [m])[..|rest|] == rest;
    pending := Sorted(rest + [m]);
    SortedKeepsEntries(rest + [m]);
    SortedIsByTime(rest + [m]);
    SortedKeepsEntries(rest);
    assert c in multiset(Sorted(rest));
    i, j := InsertedAfter(Sorted(rest), m, c);
  }

  lemma PendingExists(list: Entries, tenant: Id, user: Id) returns (pending: Entries)
    ensures IsPendingList(list, tenant, user, pending)
  {
    pending := Sorted(Selected(list, tenant, user));
    SortedKeepsEntries(Selected(list, tenant, user));
    SortedIsByTime(Selected(list, tenant, user));
  }

  // ----- the exact condition -----

  /** What a pass needs to be able to send the entry: the entry is pending or failed, and, if it waits
      for an order, so is an entry of the same owner that creates the order and is not younger. */
  predicate CanBeSent(list: Entries, m: Mutation) {
    && IsPendingFor(m, m.tenant, m.user)
    && (m.dependsOn.Some? ==> exists c :: c in list && IsPendingFor(c, m.tenant, m.user) && Creates(c, m))
  }

  lemma SentMeansSendable(list: Entries, m: Mutation, pending: Entries, now: Time, network: Sync.Network)
    requires IsPendingList(list, m.tenant, m.user, pending) && Sends(Sync.RunPass(list, pending, now, network), m)
    ensures CanBeSent(list, m)
  {
    var s := Sync.RunPass(list, pending, now, network);
    var i :| 0 <= i < |s.sends| && s.sends[i].mutation == m;
    Sync.SendsAreDue(list, pending, now, network, i);
    PendingListMembers(list, m.tenant, m.user, pending, m);
    if m.dependsOn.Some? {
      Sync.DependentsWaitForTheirParent(list, pending, now, network, i);
      var j: nat :| j < i && Sync.LearnedFrom(s, network, j, m.dependsOn.value);
      var c := s.sends[j].mutation;
      Sync.SendsAreDue(list, pending, now, network, j);
      Sync.SendsAreOldestFirst(list, pending, now, network, j, i);
      PendingListMembers(list, m.tenant, m.user, pending, c);
      assert Creates(c, m);
    }
  }

  lemma SendableIsSent(list: Entries, m: Mutation)
    requires m in list && CreationsAreFree(list) && CanBeSent(list, m)
    ensures SomePassSends(list, m)
  {
    SelectedMembers(list, m.tenant, m.user, m);
    if m.dependsOn.None? {
      var pending := PendingExists(list, m.tenant, m.user);
      PendingListMembers(list, m.tenant, m.user, pending, m);
      var i :| 0 <= i < |pending| && pending[i] == m;
      AllDueEventually(pending);
      FreeEntryIsSent(list, pending, LatestAttempt(pending), i);
    } else {
      var c :| c in list && IsPendingFor(c, m.tenant, m.user) && Creates(c, m);
      SelectedMembers(list, m.tenant, m.user, c);
      var pending, i, j := CreationCanComeFirst(list, c, m);
      AllDueEventually(pending);
      DependentIsSent(list, pending, LatestAttempt(pending), i, j);
    }
  }

  /** The exact condition for a queued entry to be sent by some pass over its queue, for some order of
      equal times, clock and network. */
  lemma SentBySomePassExactlyWhen(list: Entries, m: Mutation)
    requires m in list && CreationsAreFree(list)
    ensures SomePassSends(list, m) <==> CanBeSent(list, m)
  {
    if SomePassSends(list, m) {
      var pending, now, network :|
        IsPendingList(list, m.tenant, m.user, pending) && Sends(Sync.RunPass(list, pending, now, network), m);
      SentMeansSendable(list, m, pending, now, network);
    }
    if CanBeSent(list, m) {
      SendableIsSent(list, m);
    }
  }
}
