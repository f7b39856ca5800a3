/**
 * The observer registry of the booking facade (oop.cpp, BookingFacade's
 * vector of Observer pointers and the three Subject operations on it), and
 * the trace of what the program makes visible.
 *
 * Observers are compared by pointer identity only, so an id stands for each
 * one. Every call of an observer's update is recorded as an Update event, in
 * call order; console lines are recorded as Say (a line ended by endl) and
 * Prompt (text written without a line end) events.
 */
module Registry {

  /** The identity of an observer: what the registry compares pointers by. */
  type ObserverId = nat

  datatype Event =
    | Say(line: string)
    | Prompt(text: string)
    | Update(observer: ObserverId, message: string)

  /** One update call per registry entry, in registry order, all with message m. */
  function Broadcast(observers: seq<ObserverId>, m: string): seq<Event>
  {
    seq(|observers|, i requires 0 <= i < |observers| => Update(observers[i], m))
  }

  /** The registry with every entry equal to o filtered out, the rest in order. */
  function Removed(observers: seq<ObserverId>, o: ObserverId): seq<ObserverId>
  {
    if observers == [] then []
    else if observers[0] == o then Removed(observers[1..], o)
    else [observers[0]] + Removed(observers[1..], o)
  }

  /** The update calls of a trace, in order, without the console lines. */
  function Notified(events: seq<Event>): seq<Event>
  {
    if events == [] then []
    else if events[0].Update? then [events[0]] + Notified(events[1..])
    else Notified(events[1..])
  }

  /** A stretch of trace made of console text only, with no update call. */
  predicate ConsoleOnly(events: seq<Event>)
  {
    events == [] || (!events[0].Update? && ConsoleOnly(events[1..]))
  }

  /** x is obtained from y by deleting entries, without reordering the rest. */
  ghost predicate IsSubsequence(x: seq<ObserverId>, y: seq<ObserverId>)
  {
    if x == [] then true
    else if y == [] then false
    else if x[0] == y[0] then IsSubsequence(x[1..], y[1..])
    else IsSubsequence(x, y[1..])
  }

  // ---------------------------------------------------------------------
  // removeObserver
  // ---------------------------------------------------------------------

  /** After removal, o is gone and every other observer keeps its multiplicity. */
  lemma {:induction false} RemovedCounts(observers: seq<ObserverId>, o: ObserverId)
    ensures o !in Removed(observers, o)
    ensures multiset(Removed(observers, o))[o] == 0
    ensures forall x :: x != o ==> multiset(Removed(observers, o))[x] == multiset(observers)[x]
  {
    if observers != [] {
      RemovedCounts(observers[1..], o);
      assert observers == [observers[0]] + observers[1..];
    }
  }

  /** Removal keeps the remaining observers in their relative order. */
  lemma {:induction false} RemovedIsSubsequence(observers: seq<ObserverId>, o: ObserverId)
    ensures IsSubsequence(Removed(observers, o), observers)
  {
    if observers != [] {
      RemovedIsSubsequence(observers[1..], o);
      RemovedCounts(observers[1..], o);
    }
  }

  /** Removing an observer that is not registered leaves the registry as it was. */
  lemma {:induction false} RemovedAbsent(observers: seq<ObserverId>, o: ObserverId)
    requires o !in observers
    ensures Removed(observers, o) == observers
  {
    if observers != [] {
      RemovedAbsent(observers[1..], o);
      assert observers == [observers[0]] + observers[1..];
    }
  }

  /** Removing twice is removing once. */
  lemma RemovedIdempotent(observers: seq<ObserverId>, o: ObserverId)
    ensures Removed(Removed(observers, o), o) == Removed(observers, o)
  {
    RemovedCounts(observers, o);
    RemovedAbsent(Removed(observers, o), o);
  }

  /** Removal works entry by entry: it distributes over concatenation. */
  lemma {:induction false} RemovedAppend(x: seq<ObserverId>, y: seq<ObserverId>, o: ObserverId)
    ensures Removed(x + y, o) == Removed(x, o) + Removed(y, o)
  {
    if x != [] {
      RemovedAppend(x[1..], y, o);
      TailOfAppend(x, y);
    } else {
      assert x + y == y;
    }
  }

  /** Removing one more entry from the end of a prefix. */
  lemma RemovedSnoc(x: seq<ObserverId>, e: ObserverId, o: ObserverId)
    ensures Removed(x + [e], o) == Removed(x, o) + (if e == o then [] else [e])
  {
    RemovedAppend(x, [e], o);
    assert Removed([e], o) == (if e == o then [] else [e]) by {
      assert [e][1..] == [];
    }
  }

  // ---------------------------------------------------------------------
  // addObserver and notifyObservers
  // ---------------------------------------------------------------------

  /** Broadcasting to a registry with one more entry at the end adds one update at the end. */
  lemma BroadcastSnoc(observers: seq<ObserverId>, o: ObserverId, m: string)
    ensures Broadcast(observers + [o], m) == Broadcast(observers, m) + [Update(o, m)]
  {
  }

  /**
   * Each observer receives m exactly as often as it is registered, and no
   * update carries any other message: an observer added twice hears every
   * event twice.
   */
  lemma {:induction false} BroadcastCounts(observers: seq<ObserverId>, m: string, o: ObserverId)
    ensures multiset(Broadcast(observers, m))[Update(o, m)] == multiset(observers)[o]
    ensures forall m' :: m' != m ==> multiset(Broadcast(observers, m))[Update(o, m')] == 0
  {
    if observers != [] {
      var n := |observers| - 1;
      var init, last := observers[..n], observers[n];
      BroadcastCounts(init, m, o);
      BroadcastSnoc(init, last, m);
      assert observers == init + [last];
      assert multiset(observers) == multiset(init) + multiset{last};
      assert multiset(Broadcast(observers, m)) == multiset(Broadcast(init, m)) + multiset{Update(last, m)};
    }
  }

  /** After o is removed, a broadcast reaches every remaining entry and never o. */
  lemma BroadcastAfterRemove(observers: seq<ObserverId>, o: ObserverId, m: string)
    ensures forall m' :: Update(o, m') !in Broadcast(Removed(observers, o), m)
    ensures |Broadcast(Removed(observers, o), m)| == |observers| - multiset(observers)[o]
  {
    RemovedCounts(observers, o);
    forall m' ensures Update(o, m') !in Broadcast(Removed(observers, o), m) {
      BroadcastCounts(Removed(observers, o), m, o);
    }
    var r := Removed(observers, o);
    assert |r| == |multiset(r)|;
    assert multiset(r) == multiset(observers)[o := 0] by {
      forall x ensures multiset(r)[x] == multiset(observers)[o := 0][x] { }
    }
    assert |multiset(observers)| == |multiset(observers)[o := 0]| + multiset(observers)[o] by {
      assert multiset(observers) == multiset(observers)[o := 0] + multiset{}[o := multiset(observers)[o]];
    }
  }

  // ---------------------------------------------------------------------
  // Reading the update calls out of a trace
  // ---------------------------------------------------------------------

  lemma {:induction false} NotifiedAppend(x: seq<Event>, y: seq<Event>)
    ensures Notified(x + y) == Notified(x) + Notified(y)
  {
    if x != [] {
      NotifiedAppend(x[1..], y);
      var z := x + y;
      TailOfAppend(x, y);
      if x[0].Update? {
        assert Notified(z) == [x[0]] + Notified(x[1..] + y);
        assert Notified(x) == [x[0]] + Notified(x[1..]);
      } else {
        assert Notified(z) == Notified(x[1..] + y);
        assert Notified(x) == Notified(x[1..]);
      }
    } else {
      assert x + y == y;
    }
  }

  lemma TailOfAppend<T>(x: seq<T>, y: seq<T>)
    requires x != []
    ensures x + y != [] && (x + y)[0] == x[0] && (x + y)[1..] == x[1..] + y
  {
  }

  /** Console lines carry no update calls. */
  lemma {:induction false} NotifiedConsole(events: seq<Event>)
    requires ConsoleOnly(events)
    ensures Notified(events) == []
  {
    if events != [] {
      NotifiedConsole(events[1..]);
    }
  }

  /** Console text written before two stretches of a trace adds no update calls. */
  lemma NotifiedAfterConsole(console: seq<Event>, x: seq<Event>, y: seq<Event>)
    requires ConsoleOnly(console)
    ensures Notified(console + x + y) == Notified(x) + Notified(y)
  {
    calc {
      Notified(console + x + y);
      { NotifiedAppend(console + x, y); }
      Notified(console + x) + Notified(y);
      { NotifiedAppend(console, x); }
      Notified(console) + Notified(x) + Notified(y);
      { NotifiedConsole(console); }
      Notified(x) + Notified(y);
    }
  }

  /** Console text followed by a broadcast: the update calls are exactly the broadcast. */
  lemma NotifiedConsoleThenBroadcast(console: seq<Event>, observers: seq<ObserverId>, m: string)
    requires ConsoleOnly(console)
    ensures Notified(console + Broadcast(observers, m)) == Broadcast(observers, m)
  {
    calc {
      Notified(console + Broadcast(observers, m));
      { NotifiedAppend(console, Broadcast(observers, m)); }
      Notified(console) + Notified(Broadcast(observers, m));
      { NotifiedConsole(console); NotifiedBroadcast(observers, m); }
      Broadcast(observers, m);
    }
  }

  /** A broadcast consists of update calls only. */
  lemma {:induction false} NotifiedBroadcast(observers: seq<ObserverId>, m: string)
    ensures Notified(Broadcast(observers, m)) == Broadcast(observers, m)
  {
    if observers != [] {
      NotifiedBroadcast(observers[1..], m);
      assert Broadcast(observers, m) == [Update(observers[0], m)] + Broadcast(observers[1..], m);
    }
  }
}
