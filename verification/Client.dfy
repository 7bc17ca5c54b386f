/** Everything that happens on the device keeps it in step with the server, so every reachable system is good. */
module Client {
  import opened Outcomes
  import opened Schema
  import opened Runs
  import opened Queue
  import opened Paths
  import opened Interceptor
  import opened EndToEnd
  import opened Delivery
  import opened Exchange
  import Sync

  // ----- edits of the stored list -----

  /** Statuses, retry counts and attempt times may differ, nothing else. */
  predicate SameWork(list: Entries, list': Entries) {
    && |list| == |list'|
    && (forall i :: 0 <= i < |list| ==>
          && IdentOf(list'[i]) == IdentOf(list[i]) && list'[i].path == list[i].path
          && (list'[i].status == MutationStatus.Synced ==> list[i].status == MutationStatus.Synced))
  }

  lemma SameWorkKeeps(issued: Issued, keys: Keys, accepted: seq<Ident>, list: Entries, list': Entries)
    requires SameWork(list, list') && EntriesOk(issued, keys, accepted, list)
    ensures EntriesOk(issued, keys, accepted, list') && Idents(list') == Idents(list)
  {
    forall i | 0 <= i < |list'|
      ensures EntryOk(issued, keys, accepted, list'[i]) && Idents(list')[i] == Idents(list)[i]
    {
      assert EntryOk(issued, keys, accepted, list[i]);
      assert IdentOf(list'[i]).key == IdentOf(list[i]).key;
    }
  }

  lemma FailureKeepsWork(list: Entries, m: Mutation, o: Sync.Outcome, at: Time)
    requires !Sync.IsSuccess(o)
    ensures SameWork(list, Sync.Settle(list, m, o, at))
  {
  }

  lemma RemapKeepsEntries(issued: Issued, keys: Keys, accepted: seq<Ident>, list: Entries, t: Id, actual: Id)
    requires IssuedOk(issued) && Resolves(issued, keys, t, actual) && EntriesOk(issued, keys, accepted, list)
    ensures EntriesOk(issued, keys, accepted, Remapped(list, t, actual)) &&
            Idents(Remapped(list, t, actual)) == Idents(list)
  {
    forall i | 0 <= i < |list| ensures EntryOk(issued, keys, accepted, Remapped(list, t, actual)[i]) {
      assert EntryOk(issued, keys, accepted, list[i]);
      RemapKeepsPaths(issued, keys, list[i].key, list[i].path, t, actual);
      assert IdentOf(Remapped(list, t, actual)[i]) == IdentOf(list[i]);
    }
    EditsKeepIdents(list, MutationId(0, ""), MutationStatus.Pending, None, None, t, actual);
  }

  // ----- bookkeeping of the queue -----

  function Without(idents: seq<Ident>, id: MutationId): seq<Ident> {
    if idents == [] then
      []
    else
      Without(idents[..|idents| - 1], id) + (if idents[|idents| - 1].id == id then [] else [idents[|idents| - 1]])
  }

  lemma {:induction false} RemovedKeeps(issued: Issued, keys: Keys, accepted: seq<Ident>, list: Entries, id: MutationId)
    requires EntriesOk(issued, keys, accepted, list)
    ensures EntriesOk(issued, keys, accepted, Removed(list, id))
    ensures Idents(Removed(list, id)) == Without(Idents(list), id)
  {
    hide EntryOk;
    if list != [] {
      var init := list[..|list| - 1];
      RemovedKeeps(issued, keys, accepted, init, id);
      assert Idents(list)[..|list| - 1] == Idents(init);
      assert EntryOk(issued, keys, accepted, list[|list| - 1]);
      assert Idents(Removed(list, id)) == Without(Idents(list), id);
    }
  }

  /** Removing one accepted entry by its identifier is dropping its key. */
  lemma {:induction false} WithoutIsDropping(accepted: seq<Ident>, dropped: set<string>, id: MutationId)
    requires forall a :: a in accepted ==> (a.id == id <==> a.key == id.key)
    ensures Without(Kept(accepted, dropped), id) == Kept(accepted, dropped + {id.key})
  {
    if accepted != [] {
      var init, a := accepted[..|accepted| - 1], accepted[|accepted| - 1];
      assert accepted == init + [a];
      WithoutIsDropping(init, dropped, id);
      if a.key !in dropped {
        assert (Kept(init, dropped) + [a])[..|Kept(init, dropped)|] == Kept(init, dropped);
      } else {
        assert Kept(accepted, dropped) == Kept(init, dropped);
      }
    }
  }

  lemma {:induction false} KeptMembers(accepted: seq<Ident>, dropped: set<string>, a: Ident)
    ensures a in Kept(accepted, dropped) <==> a in accepted && a.key !in dropped
  {
    if accepted != [] {
      var last := accepted[|accepted| - 1];
      assert accepted == accepted[..|accepted| - 1] + [last];
      KeptMembers(accepted[..|accepted| - 1], dropped, a);
    }
  }

  // ----- first attempts -----

  lemma IssueKeeps(keys: Keys, dev: Device, key: string, r: Request)
    requires Tidy(keys, dev) && Possible(keys, dev, Issue(key, r))
    ensures Tidy(keys, After(keys, dev, Issue(key, r)))
  {
    var issued', w := dev.issued[key := r], FirstWire(key, r);
    IssuedGrows(dev.issued, key, r);
    WiresGrow(dev.issued, issued', keys, keys, dev.wires);
    WiresPlus(issued', keys, dev.wires, w);
    AcceptedStays(dev.issued, issued', dev.awaiting, dev.accepted, key);
    DependentsGrow(dev.issued, issued', dev.accepted, dev.accepted, key);
    EntriesGrow(dev.issued, issued', keys, keys, dev.accepted, dev.accepted, dev.queue);
    PassesGrow(dev.issued, issued', keys, keys, dev.wires, dev.wires + {w}, dev.replies, dev.replies, dev.accepted,
        dev.accepted, dev.passes);
  }

  lemma WiresPlus(issued: Issued, keys: Keys, wires: set<Wire>, w: Wire)
    requires WiresOk(issued, keys, wires) && WireOk(issued, keys, w)
    ensures WiresOk(issued, keys, wires + {w})
  {
  }

  lemma AcceptedStays(issued: Issued, issued': Issued, awaiting: set<string>, accepted: seq<Ident>, key: string)
    requires AcceptedOk(issued, awaiting, accepted) && IssuedLater(issued, issued') && key !in issued && key in issued'
    ensures AcceptedOk(issued', awaiting + {key}, accepted)
  {
    assert forall a :: a in accepted ==> IdentOk(issued, a);
  }

  lemma DependentsGrow(issued: Issued, issued': Issued, accepted: seq<Ident>, accepted': seq<Ident>, key: string)
    requires DependentsOk(issued, accepted) && accepted <= accepted' && key in issued'
    requires forall k :: k in issued' && k != key ==> k in issued && issued'[k] == issued[k]
    requires DependsOn(issued'[key].target).Some? ==> OffersTemp(accepted', issued'[key].target.order)
    ensures DependentsOk(issued', accepted')
  {
    forall k | k in issued' && DependsOn(issued'[k].target).Some?
      ensures OffersTemp(accepted', issued'[k].target.order)
    {
      if k != key {
        OfferStays(accepted, accepted', issued'[k].target.order);
      }
    }
  }

  lemma OfferStays(accepted: seq<Ident>, accepted': seq<Ident>, t: Id)
    requires OffersTemp(accepted, t) && accepted <= accepted'
    ensures OffersTemp(accepted', t)
  {
    var i :| 0 <= i < |accepted| && accepted[i].temp == Some(t);
    assert accepted'[i] == accepted[i];
  }

  lemma IssuedGrows(issued: Issued, key: string, r: Request)
    requires IssuedOk(issued) && key !in issued && RequestOk(issued, key, r)
    requires r.temp.Some? ==> !IsIssuedTemp(issued, r.temp.value)
    ensures IssuedOk(issued[key := r])
  {
    var issued' := issued[key := r];
    forall k | k in issued' ensures RequestOk(issued', k, issued'[k]) {
      RequestStaysOk(issued, issued', k, issued'[k]);
    }
  }

  lemma RequestStaysOk(issued: Issued, issued': Issued, k: string, r: Request)
    requires IssuedLater(issued, issued') &&
             (RequestOk(issued, k, r) || (k in issued && IssuedOk(issued) && r == issued[k]))
    ensures RequestOk(issued', k, r)
  {
    assert RequestOk(issued, k, r);
    if r.target.Sub? && IsIssuedTemp(issued, r.target.order) {
      var l :| l in issued && issued[l].temp == Some(r.target.order);
      assert l in issued' && issued'[l].temp == Some(r.target.order);
    }
  }

  lemma FirstLostKeeps(keys: Keys, dev: Device, key: string, clock: Clock)
    requires Tidy(keys, dev) && Possible(keys, dev, FirstLost(key, clock))
    ensures Tidy(keys, After(keys, dev, FirstLost(key, clock)))
  {
    var lost := LostRequest(key, dev.issued[key]);
    if IsQueued(lost) {
      var m := EntryOf(lost, clock);
      var accepted' := dev.accepted + [IdentOf(m)];
      AcceptedGrows(dev.issued, dev.awaiting, dev.accepted, m);
      QueueGrows(dev.issued, keys, dev.accepted, dev.dropped, dev.queue, m);
      if DependsOn(dev.issued[key].target).Some? {
        OfferStays(dev.accepted, accepted', dev.issued[key].target.order);
      }
      DependentsGrow(dev.issued, dev.issued, dev.accepted, accepted', key);
      PassesGrow(dev.issued, dev.issued, keys, keys, dev.wires, dev.wires, dev.replies, dev.replies, dev.accepted,
          accepted', dev.passes);
    }
  }

  lemma AcceptedGrows(issued: Issued, awaiting: set<string>, accepted: seq<Ident>, m: Mutation)
    requires AcceptedOk(issued, awaiting, accepted) && m.key in awaiting && IdentOk(issued, IdentOf(m))
    ensures AcceptedOk(issued, awaiting - {m.key}, accepted + [IdentOf(m)])
    ensures forall a :: a in accepted ==> a.key != m.key
  {
  }

  lemma QueueGrows(issued: Issued, keys: Keys, accepted: seq<Ident>, dropped: set<string>, list: Entries, m: Mutation)
    requires EntriesOk(issued, keys, accepted, list) && Idents(list) == Kept(accepted, dropped)
    requires m.key in issued && m.path == Render(issued[m.key].target) && m.status == MutationStatus.Pending
    requires m.key !in dropped && forall a :: a in accepted ==> a.key != m.key
    ensures EntriesOk(issued, keys, accepted + [IdentOf(m)], Enqueued(list, m))
    ensures Idents(Enqueued(list, m)) == Kept(accepted + [IdentOf(m)], dropped)
  {
    var accepted' := accepted + [IdentOf(m)];
    forall i | 0 <= i < |list| ensures list[i].key != m.key {
      assert EntryOk(issued, keys, accepted, list[i]);
    }
    EntriesGrow(issued, issued, keys, keys, accepted, accepted', list);
    assert accepted'[|accepted|] == IdentOf(m);
    assert accepted'[..|accepted|] == accepted;
    assert Idents(list + [m]) == Idents(list) + [IdentOf(m)];
  }

  // ----- passes -----

  lemma PassReplaced(issued: Issued, keys: Keys, wires: set<Wire>, wires': set<Wire>, replies: set<(Wire, Verdict)>,
                     accepted: seq<Ident>, passes: map<nat, Pass>, p: nat, pass: Pass)
    requires PassesOk(issued, keys, wires, replies, accepted, passes) && wires <= wires'
    requires PassOk(issued, keys, wires', replies, accepted, pass)
    ensures PassesOk(issued, keys, wires', replies, accepted, passes[p := pass])
  {
    PassesGrow(issued, issued, keys, keys, wires, wires', replies, replies, accepted, accepted, passes);
  }

  /** What a pass knows about the entry it is at. */
  lemma CurrentFacts(keys: Keys, dev: Device, p: nat)
    requires Tidy(keys, dev) && Underway(dev, p)
    ensures PassOk(dev.issued, keys, dev.wires, dev.replies, dev.accepted, dev.passes[p])
    ensures var m := Current(dev, p);
      && IdentOf(m) in dev.accepted && IdentOk(dev.issued, IdentOf(m)) && m.key in dev.issued
      && PathFits(dev.issued, keys, dev.issued[m.key].target, m.path)
  {
    var pass := dev.passes[p];
    assert EntryOk(dev.issued, keys, dev.accepted, pass.pending[pass.pos]);
  }

  lemma BeginKeeps(keys: Keys, dev: Device, e: Local)
    requires Tidy(keys, dev) && Possible(keys, dev, e) && e.Begin?
    ensures Tidy(keys, After(keys, dev, e))
  {
    PendingEntriesOk(dev.issued, keys, dev.accepted, dev.queue, e.tenant, e.user, e.pending);
    PassReplaced(dev.issued, keys, dev.wires, dev.wires, dev.replies, dev.accepted, dev.passes, e.pass,
        Pass(e.pending, 0, e.now, map[], Ready));
  }

  lemma PendingEntriesOk(issued: Issued, keys: Keys, accepted: seq<Ident>, list: Entries, tenant: Id, user: Id,
      pending: Entries)
    requires EntriesOk(issued, keys, accepted, list) && IsPendingList(list, tenant, user, pending)
    ensures EntriesOk(issued, keys, accepted, pending)
  {
    forall i | 0 <= i < |pending| ensures EntryOk(issued, keys, accepted, pending[i]) {
      PendingListMembers(list, tenant, user, pending, pending[i]);
      var j :| 0 <= j < |list| && list[j] == pending[i];
      assert EntryOk(issued, keys, accepted, list[j]);
    }
  }

  lemma PassOverKeeps(keys: Keys, dev: Device, p: nat)
    requires Tidy(keys, dev) && Possible(keys, dev, PassOver(p))
    ensures Tidy(keys, After(keys, dev, PassOver(p)))
  {
    hide EntriesOk, PassesOk, WiresOk, AcceptedOk, IssuedOk, DependentsOk, DroppedOk;
    CurrentFacts(keys, dev, p);
    SameWorkKeeps(dev.issued, keys, dev.accepted, dev.queue, After(keys, dev, PassOver(p)).queue);
    PassReplaced(dev.issued, keys, dev.wires, dev.wires, dev.replies, dev.accepted, dev.passes, p,
        Moved(dev.passes[p]));
  }

  /** A dispatched path names a real order, the one meant. */
  lemma DispatchedPathIsFinal(keys: Keys, dev: Device, p: nat)
    requires Tidy(keys, dev) && Possible(keys, dev, Dispatch(p))
    ensures Current(dev, p).key in dev.issued
    ensures Final(dev.issued, keys, dev.issued[Current(dev, p).key].target, VerdictFor(dev, p).path)
  {
    var m, pass := Current(dev, p), dev.passes[p];
    CurrentFacts(keys, dev, p);
    var target := dev.issued[m.key].target;
    if m.dependsOn.Some? {
      var t := m.dependsOn.value;
      assert Resolves(dev.issued, keys, t, pass.temps[t]);
      RemapKeepsPaths(dev.issued, keys, m.key, m.path, t, pass.temps[t]);
    } else if m.path == Render(target) {
      assert target == Retarget(target, if target.Sub? then target.order else "");
      assert Names(dev.issued, keys, target, if target.Sub? then target.order else "");
    }
  }

  lemma DispatchKeeps(keys: Keys, dev: Device, p: nat)
    requires Tidy(keys, dev) && Possible(keys, dev, Dispatch(p))
    ensures Tidy(keys, After(keys, dev, Dispatch(p)))
  {
    hide EntriesOk, PassesOk, WiresOk, AcceptedOk, IssuedOk, DependentsOk, DroppedOk, Final, Sync.Judge;
    var m := Current(dev, p);
    var w := ReplayWire(m, VerdictFor(dev, p).path);
    CurrentFacts(keys, dev, p);
    DispatchedPathIsFinal(keys, dev, p);
    SameWorkKeeps(dev.issued, keys, dev.accepted, dev.queue,
        Updated(dev.queue, m.id, MutationStatus.Syncing, None, None));
    WiresPlus(dev.issued, keys, dev.wires, w);
    PassReplaced(dev.issued, keys, dev.wires, dev.wires + {w}, dev.replies, dev.accepted, dev.passes, p,
        dev.passes[p].(stage := InFlight(w)));
  }

  lemma FailingKeeps(keys: Keys, dev: Device, e: Local)
    requires Tidy(keys, dev) && Possible(keys, dev, e) && e.Failing?
    ensures Tidy(keys, After(keys, dev, e))
  {
    var m := Current(dev, e.pass);
    CurrentFacts(keys, dev, e.pass);
    FailureKeepsWork(dev.queue, m, e.outcome, e.at);
    SameWorkKeeps(dev.issued, keys, dev.accepted, dev.queue, Sync.Settle(dev.queue, m, e.outcome, e.at));
    PassReplaced(dev.issued, keys, dev.wires, dev.wires, dev.replies, dev.accepted, dev.passes, e.pass,
        Moved(dev.passes[e.pass]));
  }

  predicate ConfirmResolves(keys: Keys, dev: Device, e: Local)
    requires e.Confirm? && Underway(dev, e.pass)
  {
    var m := Current(dev, e.pass);
    m.temp.Some? ==> IdIn(e.response).Some? && Resolves(dev.issued, keys, m.temp.value, IdIn(e.response).value)
  }

  /** The identifier in the answer to a creation is the order its temporary identifier stands for. */
  lemma AnswerResolves(states: seq<Db>, steps: seq<Step>, dev: Device, e: Local)
    requires states != [] && InStep(states, steps, dev) && e.Confirm? && Possible(Last(states).keys, dev, e)
    ensures ConfirmResolves(Last(states).keys, dev, e)
  {
    var m, keys, w, v := Current(dev, e.pass), Last(states).keys, dev.passes[e.pass].stage.wire,
        FromApi(Answered(e.response, e.replayed));
    CurrentFacts(keys, dev, e.pass);
    if m.temp.Some? {
      assert RequestOk(dev.issued, m.key, dev.issued[m.key]) && RowOk(states, steps, dev.issued, m.key);
      assert (w, v) in dev.replies && ReplyOk(states, w, v) && WireOk(dev.issued, keys, w);
      if i: nat :| AlreadySo(states, w, e.response, i) {
        WireRoutes(dev.issued, keys, w);
      }
      assert CreatedAs(dev.issued, keys, m.key, e.response.id);
    }
  }

  lemma LearnedKeeps(issued: Issued, keys: Keys, wires: set<Wire>, replies: set<(Wire, Verdict)>, accepted: seq<Ident>,
                     pass: Pass, response: Response, v: Verdict)
    requires PassOk(issued, keys, wires, replies, accepted, pass) && pass.stage.InFlight?
    requires (pass.stage.wire, v) in replies && Succeeded(v)
    requires var m := pass.pending[pass.pos];
             m.temp.Some? && IdIn(response).Some? ==> Resolves(issued, keys, m.temp.value, IdIn(response).value)
    ensures PassOk(issued, keys, wires, replies, accepted,
                   pass.(temps := Sync.Learned(pass.temps, pass.pending[pass.pos], SuccessOf(response)),
                       stage := Confirmed(pass.stage.wire)))
  {
  }

  lemma ConfirmKeeps(keys: Keys, dev: Device, e: Local)
    requires Tidy(keys, dev) && Possible(keys, dev, e) && e.Confirm?
    requires ConfirmResolves(keys, dev, e)
    ensures Tidy(keys, After(keys, dev, e))
  {
    var p, m, pass := e.pass, Current(dev, e.pass), dev.passes[e.pass];
    CurrentFacts(keys, dev, p);
    if m.temp.Some? {
      RemapKeepsEntries(dev.issued, keys, dev.accepted, dev.queue, m.temp.value, IdIn(e.response).value);
    }
    LearnedKeeps(dev.issued, keys, dev.wires, dev.replies, dev.accepted, pass, e.response,
        FromApi(Answered(e.response, e.replayed)));
    PassReplaced(dev.issued, keys, dev.wires, dev.wires, dev.replies, dev.accepted, dev.passes, p,
        After(keys, dev, e).passes[p]);
  }

  lemma DropKeeps(keys: Keys, dev: Device, p: nat)
    requires Tidy(keys, dev) && Possible(keys, dev, Drop(p))
    ensures Tidy(keys, After(keys, dev, Drop(p)))
  {
    hide EntriesOk, PassesOk, WiresOk, AcceptedOk, IssuedOk, DependentsOk, DroppedOk, AnsweredFor, PassOk;
    var m, pass := Current(dev, p), dev.passes[p];
    CurrentFacts(keys, dev, p);
    RemovedKeeps(dev.issued, keys, dev.accepted, dev.queue, m.id);
    AcceptedWithId(dev.issued, dev.awaiting, dev.accepted, IdentOf(m));
    WithoutIsDropping(dev.accepted, dev.dropped, m.id);
    ConfirmedIsAnswered(dev.issued, keys, dev.wires, dev.replies, dev.accepted, pass);
    DroppedGrows(dev.issued, dev.awaiting, dev.replies, dev.accepted, dev.dropped, IdentOf(m));
    PassReplaced(dev.issued, keys, dev.wires, dev.wires, dev.replies, dev.accepted, dev.passes, p, Moved(pass));
  }

  lemma AcceptedWithId(issued: Issued, awaiting: set<string>, accepted: seq<Ident>, b: Ident)
    requires AcceptedOk(issued, awaiting, accepted) && b in accepted
    ensures b.id.key == b.key
    ensures forall a :: a in accepted ==> (a.id == b.id <==> a.key == b.id.key)
  {
    SameKeySameIdent(issued, awaiting, accepted, b, b);
    forall a | a in accepted ensures a.id == b.id <==> a.key == b.id.key {
      SameKeySameIdent(issued, awaiting, accepted, a, b);
    }
  }

  lemma DroppedGrows(issued: Issued, awaiting: set<string>, replies: set<(Wire, Verdict)>, accepted: seq<Ident>,
      dropped: set<string>, a: Ident)
    requires AcceptedOk(issued, awaiting, accepted) && DroppedOk(issued, awaiting, replies, dropped)
    requires a in accepted && AnsweredFor(replies, a.key)
    ensures DroppedOk(issued, awaiting, replies, dropped + {a.key})
  {
    assert IdentOk(issued, a);
  }

  lemma ConfirmedIsAnswered(issued: Issued, keys: Keys, wires: set<Wire>, replies: set<(Wire, Verdict)>,
      accepted: seq<Ident>, pass: Pass)
    requires PassOk(issued, keys, wires, replies, accepted, pass) && pass.stage.Confirmed?
    ensures AnsweredFor(replies, pass.pending[pass.pos].key)
  {
    var v :| (pass.stage.wire, v) in replies && Succeeded(v);
    var r := (pass.stage.wire, v);
    assert r in replies && r.0.key == pass.pending[pass.pos].key && Succeeded(r.1);
  }

  lemma SameKeySameIdent(issued: Issued, awaiting: set<string>, accepted: seq<Ident>, a: Ident, b: Ident)
    requires AcceptedOk(issued, awaiting, accepted) && a in accepted && b in accepted
    ensures a.id == b.id <==> a.key == b.key
    ensures a.key == b.key ==> a == b
    ensures b.id.key == b.key
  {
    assert IdentOk(issued, a) && IdentOk(issued, b);
    var i, j :| 0 <= i < |accepted| && 0 <= j < |accepted| && accepted[i] == a && accepted[j] == b;
  }

  lemma RestartKeeps(keys: Keys, dev: Device)
    requires Tidy(keys, dev)
    ensures Tidy(keys, After(keys, dev, Restart))
  {
    SameWorkKeeps(dev.issued, keys, dev.accepted, dev.queue, Recovered(dev.queue));
  }

  /** The rows and the answers known to the device, after a local event. */
  lemma LocalKeepsServerSide(states: seq<Db>, steps: seq<Step>, dev: Device, e: Local)
    requires states != [] && RowsOk(states, steps, dev.issued) && RepliesOk(states, dev.wires, dev.replies)
    requires Possible(Last(states).keys, dev, e)
    ensures var dev' := After(Last(states).keys, dev, e);
      RowsOk(states, steps, dev'.issued) && RepliesOk(states, dev'.wires, dev'.replies)
  {
    if e.Issue? {
      var issued' := dev.issued[e.key := e.request];
      forall k | k in issued' ensures RowOk(states, steps, issued', k) {
        if k != e.key {
          assert RowOk(states, steps, dev.issued, k);
          RowGrows(states, steps, dev.issued, issued', k);
        }
      }
    }
  }

  lemma TurnAwayKeeps(keys: Keys, dev: Device, w: Wire, code: int)
    requires Tidy(keys, dev) && Possible(keys, dev, TurnAway(w, code))
    ensures Tidy(keys, After(keys, dev, TurnAway(w, code)))
  {
    TidyWithReply(keys, dev, w, FromGate(code));
  }

  lemma LocalKeepsTidy(keys: Keys, dev: Device, e: Local)
    requires Tidy(keys, dev) && Possible(keys, dev, e) && (e.Confirm? ==> ConfirmResolves(keys, dev, e))
    ensures Tidy(keys, After(keys, dev, e))
  {
    match e
    case Issue(key, r) => IssueKeeps(keys, dev, key, r);
    case FirstAnswered(_) =>
    case FirstLost(key, clock) => FirstLostKeeps(keys, dev, key, clock);
    case TurnAway(w, code) => TurnAwayKeeps(keys, dev, w, code);
    case Begin(_, _, _, _, _) => BeginKeeps(keys, dev, e);
    case PassOver(p) => PassOverKeeps(keys, dev, p);
    case Dispatch(p) => DispatchKeeps(keys, dev, p);
    case Failing(_, _, _) => FailingKeeps(keys, dev, e);
    case Confirm(_, _, _) => ConfirmKeeps(keys, dev, e);
    case Drop(p) => DropKeeps(keys, dev, p);
    case Finish(_) =>
    case Restart => RestartKeeps(keys, dev);
  }

  lemma NextKeeps(sys: System, e: Event)
    requires sys.states != [] && Good(sys) && EndToEnd.Enabled(sys, e)
    ensures Good(Next(sys, e))
  {
    match e
    case Here(event) =>
      if event.Confirm? {
        AnswerResolves(sys.states, sys.steps, sys.dev, event);
      }
      LocalKeepsTidy(Last(sys.states).keys, sys.dev, event);
      LocalKeepsServerSide(sys.states, sys.steps, sys.dev, event);
    case Deliver(_, _, _, _, _, _) => DeliverKeeps(sys, e);
    case Elsewhere(step) => ElsewhereKeeps(sys, step);
  }

  lemma StartIsGood(sys: System)
    requires Starts(sys)
    ensures Good(sys)
  {
  }

  /** Every reachable system is good. */
  lemma {:induction false} ReachableSystemsAreGood(trace: seq<System>, events: seq<Event>, j: nat)
    requires Trace(trace, events) && j < |trace|
    ensures trace[j].states != [] && Good(trace[j])
    decreases j
  {
    if j == 0 {
      StartIsGood(trace[0]);
    } else {
      ReachableSystemsAreGood(trace, events, j - 1);
      assert Happens(trace, events[j - 1], j - 1);
      NextKeeps(trace[j - 1], events[j - 1]);
    }
  }
}
