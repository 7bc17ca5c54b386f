/** Histories of the whole system, as a relation between its states. */
module Histories {
  import opened Runs
  import opened EndToEnd
  import opened Client

  /** Some history leads from one system to another. */
  ghost predicate Leads(a: System, b: System) {
    exists trace, events :: History(trace, events) && trace[0] == a && trace[|trace| - 1] == b
  }

  /** Some history from the very start ends in `sys`. */
  ghost predicate Reaches(sys: System) {
    exists start :: Starts(start) && Leads(start, sys)
  }

  lemma LeadsToItself(a: System)
    ensures Leads(a, a)
  {
    assert History([a], []);
  }

  lemma LeadsOn(a: System, b: System, e: Event)
    requires Leads(a, b) && b.states != [] && EndToEnd.Enabled(b, e)
    ensures Leads(a, Next(b, e))
  {
    hide EndToEnd.Enabled, Next;
    var trace, events :| History(trace, events) && trace[0] == a && trace[|trace| - 1] == b;
    var trace', events' := trace + [Next(b, e)], events + [e];
    forall i | 0 <= i < |events'| ensures Happens(trace', events'[i], i) {
      if i < |events| {
        assert Happens(trace, events[i], i);
      }
    }
    assert History(trace', events');
  }

  lemma LeadsTransitive(a: System, b: System, c: System)
    requires Leads(a, b) && Leads(b, c)
    ensures Leads(a, c)
  {
    hide EndToEnd.Enabled, Next;
    var x, e :| History(x, e) && x[0] == a && x[|x| - 1] == b;
    var y, f :| History(y, f) && y[0] == b && y[|y| - 1] == c;
    var trace, events := x + y[1..], e + f;
    forall i | 0 <= i < |events| ensures Happens(trace, events[i], i) {
      if i < |e| {
        assert Happens(x, e[i], i);
      } else {
        assert Happens(y, f[i - |e|], i - |e|);
        assert trace[i] == y[i - |e|] && trace[i + 1] == y[i + 1 - |e|];
      }
    }
    assert History(trace, events);
  }

  /** An event on the device. */
  lemma LeadsLocally(a: System, b: System, e: Local)
    requires Leads(a, b) && b.states != [] && Possible(Last(b.states).keys, b.dev, e)
    ensures Leads(a, b.(dev := After(Last(b.states).keys, b.dev, e)))
  {
    LeadsOn(a, b, Here(e));
  }

  lemma {:induction false} HistoryKeepsGood(trace: seq<System>, events: seq<Event>, j: nat)
    requires History(trace, events) && j < |trace| && trace[0].states != [] && Good(trace[0])
    ensures trace[j].states != [] && Good(trace[j])
    decreases j
  {
    hide EndToEnd.Enabled;
    if j > 0 {
      HistoryKeepsGood(trace, events, j - 1);
      assert Happens(trace, events[j - 1], j - 1);
      NextKeeps(trace[j - 1], events[j - 1]);
    }
  }

  lemma LeadsKeepsGood(a: System, b: System)
    requires Leads(a, b) && a.states != [] && Good(a)
    ensures b.states != [] && Good(b)
  {
    var trace, events :| History(trace, events) && trace[0] == a && trace[|trace| - 1] == b;
    HistoryKeepsGood(trace, events, |trace| - 1);
  }

  lemma ReachedIsGood(sys: System)
    requires Reaches(sys)
    ensures sys.states != [] && Good(sys)
  {
    var start :| Starts(start) && Leads(start, sys);
    StartIsGood(start);
    LeadsKeepsGood(start, sys);
  }
}
