/** Every event keeps the system good. */
module Exchange {
  import opened Outcomes
  import opened Schema
  import opened Progress
  import opened Runs
  import opened Idempotency
  import opened Queue
  import opened Paths
  import opened EndToEnd
  import opened Delivery

  type Issued = map<string, Request>
  type Keys = map<Key, KeyRow>

  // ----- components survive growth of the key table and of the requests -----

  lemma WiresGrow(issued: Issued, issued': Issued, keys: Keys, keys': Keys, wires: set<Wire>)
    requires IssuedLater(issued, issued') && KeysLater(keys, keys') && WiresOk(issued, keys, wires)
    ensures WiresOk(issued', keys', wires)
  {
    forall w | w in wires ensures WireOk(issued', keys', w) {
      assert WireOk(issued, keys, w);
      PathFitsPersists(issued, issued', keys, keys', issued[w.key].target, w.path);
      if w.replay {
        FinalPersists(issued, issued', keys, keys', issued[w.key].target, w.path);
      }
    }
  }

  lemma EntriesGrow(issued: Issued, issued': Issued, keys: Keys, keys': Keys, accepted: seq<Ident>,
      accepted': seq<Ident>, list: Entries)
    requires IssuedLater(issued, issued') && KeysLater(keys, keys') && accepted <= accepted'
    requires EntriesOk(issued, keys, accepted, list)
    ensures EntriesOk(issued', keys', accepted', list)
  {
    forall i | 0 <= i < |list| ensures EntryOk(issued', keys', accepted', list[i]) {
      assert EntryOk(issued, keys, accepted, list[i]);
      PathFitsPersists(issued, issued', keys, keys', issued[list[i].key].target, list[i].path);
    }
  }

  lemma PassesGrow(issued: Issued, issued': Issued, keys: Keys, keys': Keys, wires: set<Wire>, wires': set<Wire>,
                   replies: set<(Wire, Verdict)>, replies': set<(Wire, Verdict)>, accepted: seq<Ident>,
                       accepted': seq<Ident>,
                   passes: map<nat, Pass>)
    requires IssuedLater(issued, issued') && KeysLater(keys, keys') && wires <= wires' && replies <= replies' &&
             accepted <= accepted'
    requires PassesOk(issued, keys, wires, replies, accepted, passes)
    ensures PassesOk(issued', keys', wires', replies', accepted', passes)
  {
    forall p | p in passes ensures PassOk(issued', keys', wires', replies', accepted', passes[p]) {
      assert PassOk(issued, keys, wires, replies, accepted, passes[p]);
      EntriesGrow(issued, issued', keys, keys', accepted, accepted', passes[p].pending);
      forall t | t in passes[p].temps ensures Resolves(issued', keys', t, passes[p].temps[t]) {
        ResolvesPersists(issued, issued', keys, keys', t, passes[p].temps[t]);
      }
    }
  }

  lemma RowGrows(states: seq<Db>, steps: seq<Step>, issued: Issued, issued': Issued, k: string)
    requires states != [] && IssuedLater(issued, issued') && k in issued && RowOk(states, steps, issued, k)
    ensures RowOk(states, steps, issued', k)
  {
    var keys, key := states[|states| - 1].keys, (issued[k].tenant, k);
    if key in keys && issued[k].target.Sub? {
      NamesPersists(issued, issued', keys, keys, issued[k].target, keys[key].response.value.id);
    }
  }

  lemma ReplyGrows(states: seq<Db>, db: Db, w: Wire, v: Verdict)
    requires states != [] && KeysLater(states[|states| - 1].keys, db.keys) && ReplyOk(states, w, v)
    ensures ReplyOk(states + [db], w, v)
  {
    var keys, key := states[|states| - 1].keys, (w.tenant, w.key);
    if Succeeded(v) && !(key in keys && keys[key].response == Some(v.reply.response)) {
      var i: nat :| AlreadySo(states, w, v.reply.response, i);
      assert AlreadySo(states + [db], w, v.reply.response, i);
    }
  }

  lemma RepliesGrow(states: seq<Db>, db: Db, wires: set<Wire>, replies: set<(Wire, Verdict)>)
    requires states != [] && KeysLater(states[|states| - 1].keys, db.keys) && RepliesOk(states, wires, replies)
    ensures RepliesOk(states + [db], wires, replies)
  {
    forall r | r in replies ensures ReplyOk(states + [db], r.0, r.1) {
      ReplyGrows(states, db, r.0, r.1);
    }
  }

  // ----- the server takes a step -----

  /** A step that does not carry a key of this device leaves its row as it is. */
  lemma UncarriedRowStays(states: seq<Db>, steps: seq<Step>, issued: Issued, db: Db, step: Step, k: string)
    requires states != [] && k in issued && RowOk(states, steps, issued, k) && KeysLater(Last(states).keys, db.keys)
    requires (issued[k].tenant, k) in db.keys ==> (issued[k].tenant, k) in Last(states).keys
    ensures RowOk(states + [db], steps + [step], issued, k)
  {
    var was, key := Last(states), (issued[k].tenant, k);
    if key in db.keys {
      var i: nat :| CommitsAt(states, steps, i, key)
        && CommitShows(states[i].orders, states[i + 1].orders, issued[k], was.keys[key].response.value);
      CommitsPersist(states, steps, db, step, i, key);
      if issued[k].target.Sub? {
        NamesPersists(issued, issued, was.keys, db.keys, issued[k].target, was.keys[key].response.value.id);
      }
    }
  }

  lemma TidyAfter(keys: Keys, keys': Keys, dev: Device)
    requires Tidy(keys, dev) && KeysLater(keys, keys')
    ensures Tidy(keys', dev)
  {
    WiresGrow(dev.issued, dev.issued, keys, keys', dev.wires);
    EntriesGrow(dev.issued, dev.issued, keys, keys', dev.accepted, dev.accepted, dev.queue);
    PassesGrow(dev.issued, dev.issued, keys, keys', dev.wires, dev.wires, dev.replies, dev.replies, dev.accepted,
        dev.accepted, dev.passes);
  }

  lemma InStepAfter(states: seq<Db>, steps: seq<Step>, dev: Device, db: Db, step: Step)
    requires states != [] && InStep(states, steps, dev) && KeysLater(Last(states).keys, db.keys)
    requires RowsOk(states + [db], steps + [step], dev.issued)
    ensures InStep(states + [db], steps + [step], dev)
  {
    TidyAfter(Last(states).keys, db.keys, dev);
    RepliesGrow(states, db, dev.wires, dev.replies);
  }

  lemma TidyWithReply(keys: Keys, dev: Device, w: Wire, v: Verdict)
    requires Tidy(keys, dev)
    ensures Tidy(keys, dev.(replies := dev.replies + {(w, v)}))
  {
    var replies' := dev.replies + {(w, v)};
    PassesGrow(dev.issued, dev.issued, keys, keys, dev.wires, dev.wires, dev.replies, replies', dev.accepted,
        dev.accepted, dev.passes);
    AnswersPersist(dev.issued, dev.awaiting, dev.dropped, dev.replies, replies');
  }

  lemma InStepWithReply(states: seq<Db>, steps: seq<Step>, dev: Device, w: Wire, v: Verdict)
    requires states != [] && InStep(states, steps, dev) && w in dev.wires && ReplyOk(states, w, v)
    ensures InStep(states, steps, dev.(replies := dev.replies + {(w, v)}))
  {
    TidyWithReply(Last(states).keys, dev, w, v);
  }

  lemma AnswersPersist(issued: Issued, awaiting: set<string>, dropped: set<string>, replies: set<(Wire, Verdict)>,
      replies': set<(Wire, Verdict)>)
    requires replies <= replies' && DroppedOk(issued, awaiting, replies, dropped)
    ensures DroppedOk(issued, awaiting, replies', dropped)
  {
    forall k | k in dropped ensures AnsweredFor(replies', k) {
      var r :| r in replies && r.0.key == k && Succeeded(r.1);
      assert r in replies';
    }
  }

  lemma ElsewhereKeeps(sys: System, step: Step)
    requires sys.states != [] && Good(sys) && EndToEnd.Enabled(sys, Elsewhere(step))
    ensures Good(Next(sys, Elsewhere(step)))
  {
    var states, steps, issued, db := sys.states, sys.steps, sys.dev.issued, Apply(sys.states, step);
    StepFacts(states, steps, step);
    forall k | k in issued ensures RowOk(states + [db], steps + [step], issued, k) {
      assert RowOk(states, steps, issued, k);
      UncarriedKeyStaysAway(states, steps, step, (issued[k].tenant, k));
      UncarriedRowStays(states, steps, issued, db, step, k);
    }
    InStepAfter(states, steps, sys.dev, db, step);
  }

  /** The heart of the protocol: a message of this device has been delivered, for the first or the
      n-th time. Its row and its answer are right. */
  lemma DeliveredRow(states: seq<Db>, steps: seq<Step>, dev: Device, w: Wire, call: Call, step: Step, db: Db,
      reply: Reply)
    requires |states| == |steps| + 1 && InStep(states, steps, dev) && w in dev.wires
    requires forall o :: o in Last(states).orders ==> IsRealId(o)
    requires Route(w.verb, w.path, w.body) == Some(call) && step.Api? && step.read < |states|
    requires step == StepFor(w, call, step.read, step.sight, step.ctx.role, step.env, step.picked) &&
             IsRealId(step.env.newId)
    requires HandledCall(states[step.read], Last(states), db, reply, (w.tenant, w.key), HashFor(dev.issued[w.key]),
             call, step.env.newId)
    requires Carries(step, (w.tenant, w.key))
    ensures w.key in dev.issued
    ensures RowOk(states + [db], steps + [step], dev.issued, w.key)
    ensures ReplyOk(states + [db], w, FromApi(reply))
  {
    var issued, was, key := dev.issued, Last(states), (w.tenant, w.key);
    assert WireOk(issued, was.keys, w) && RequestOk(issued, w.key, issued[w.key]) &&
        RowOk(states, steps, issued, w.key);
    WireRoutes(issued, was.keys, w);
    if key in was.keys {
      UncarriedRowStays(states, steps, issued, db, step, w.key);
    } else if key in db.keys {
      assert CommitsAt(states + [db], steps + [step], |steps|, key);
      assert CommitShows(was.orders, db.orders, issued[w.key], reply.response);
      if !call.CreateOrder? {
        if IsTempId(call.id) { TempIsNotReal(call.id); }
        NamesPersists(issued, issued, was.keys, db.keys, issued[w.key].target, call.id);
      }
    }
    if reply.Answered? && NothingToDo(was, db, call, reply.response) {
      assert AlreadySo(states + [db], w, reply.response, |states|);
    }
  }

  lemma CarriesOnlyItsKey(issued: Issued, w: Wire, call: Call, step: Step, k: string)
    requires IssuedOk(issued) && w.key in issued && k in issued
    requires step.Api? && step.call == call && IsQueuedCall(call) && step.ctx.header == Some(w.key) &&
             step.ctx.tenant == w.tenant
    ensures k != w.key ==> !Carries(step, (issued[k].tenant, k))
    ensures Carries(step, (w.tenant, w.key))
  {
    assert RequestOk(issued, w.key, issued[w.key]);
  }

  /** The rows of all keys of the device, after one of its messages is delivered. */
  lemma DeliveredRows(states: seq<Db>, steps: seq<Step>, dev: Device, w: Wire, call: Call, step: Step)
    requires Run(states, steps) && Runs.Enabled(states, step) && InStep(states, steps, dev) && w in dev.wires
    requires forall o :: o in Last(states).orders ==> IsRealId(o)
    requires Route(w.verb, w.path, w.body) == Some(call) && step.Api?
    requires step == StepFor(w, call, step.read, step.sight, step.ctx.role, step.env, step.picked) &&
             IsRealId(step.env.newId)
    ensures KeysLater(Last(states).keys, Apply(states, step).keys)
    ensures RowsOk(states + [Apply(states, step)], steps + [step], dev.issued)
    ensures ReplyOk(states + [Apply(states, step)], w, FromApi(ReplyTo(states, step)))
  {
    var issued, db := dev.issued, Apply(states, step);
    assert WireOk(issued, Last(states).keys, w);
    WireRoutes(issued, Last(states).keys, w);
    CarriesOnlyItsKey(issued, w, call, step, w.key);
    DeliveryFacts(states, steps, step, (w.tenant, w.key));
    DeliveredRow(states, steps, dev, w, call, step, db, ReplyTo(states, step));
    forall k | k in issued ensures RowOk(states + [db], steps + [step], issued, k) {
      assert RowOk(states, steps, issued, k);
      if k != w.key {
        CarriesOnlyItsKey(issued, w, call, step, k);
        UncarriedKeyStaysAway(states, steps, step, (issued[k].tenant, k));
        UncarriedRowStays(states, steps, issued, db, step, k);
      }
    }
  }

  lemma DeliverKeeps(sys: System, e: Event)
    requires sys.states != [] && Good(sys) && EndToEnd.Enabled(sys, e) && e.Deliver?
    ensures Good(Next(sys, e))
  {
    var call := Route(e.wire.verb, e.wire.path, e.wire.body).value;
    var step := StepFor(e.wire, call, e.read, e.sight, e.role, e.env, e.picked);
    var db, reply := Apply(sys.states, step), ReplyTo(sys.states, step);
    StepFacts(sys.states, sys.steps, step);
    DeliveredRows(sys.states, sys.steps, sys.dev, e.wire, call, step);
    InStepAfter(sys.states, sys.steps, sys.dev, db, step);
    InStepWithReply(sys.states + [db], sys.steps + [step], sys.dev, e.wire, FromApi(reply));
  }
}
