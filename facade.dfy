/**
 * The booking facade itself (oop.cpp, class BookingFacade) and the program's
 * entry point. The facade's only state is its registry of observers, a
 * vector updated in place; everything it makes visible goes to the trace
 * `output`. Console input arrives as parameters.
 */
module Facade {
  import opened Wrappers
  import opened Airlines
  import opened Registry
  import opened Booking

  class BookingFacade {
    /** The registered observers, in registration order; duplicates allowed. */
    var observers: seq<ObserverId>
    /** Everything written so far: console lines and observer update calls, in order. */
    var output: seq<Event>

    constructor ()
      ensures observers == [] && output == []
    {
      observers := [];
      output := [];
    }

    /** Appends o at the end, even when it is registered already. */
    method AddObserver(o: ObserverId)
      modifies this
      ensures observers == old(observers) + [o]
      ensures output == old(output)
    {
      observers := observers + [o];
    }

    /**
     * Removes every entry equal to o, keeping the others in order: the kept
     * entries are moved to the front in place, then the tail is erased.
     */
    method RemoveObserver(o: ObserverId)
      modifies this
      ensures observers == Removed(old(observers), o)
      ensures output == old(output)
    {
      ghost var original := observers;
      var write := 0;
      var read := 0;
      while read < |observers|
        invariant |observers| == |original|
        invariant 0 <= write <= read <= |observers|
        invariant observers[..write] == Removed(original[..read], o)
        invariant observers[read..] == original[read..]
        invariant output == old(output)
      {
        var e := observers[read];
        SameSuffixHead(observers, original, read);
        RemovedSnoc(original[..read], e, o);
        assert original[..read + 1] == original[..read] + [e];
        if e != o {
          UpdateKeepsSuffix(observers, write, e, read + 1);
          UpdateExtendsPrefix(observers, write, e);
          observers := observers[write := e];
          write := write + 1;
        } else {
          assert observers[read + 1..] == observers[read..][1..];
        }
        read := read + 1;
      }
      assert original[..read] == original;
      observers := observers[..write];
    }

    /** Calls update(m) on every registered observer, in registry order. */
    method NotifyObservers(m: string)
      modifies this
      ensures observers == old(observers)
      ensures output == old(output) + Broadcast(observers, m)
    {
      var i := 0;
      while i < |observers|
        invariant 0 <= i <= |observers|
        invariant observers == old(observers)
        invariant output == old(output) + Broadcast(observers[..i], m)
      {
        BroadcastSnoc(observers[..i], observers[i], m);
        assert observers[..i + 1] == observers[..i] + [observers[i]];
        output := output + [Update(observers[i], m)];
        i := i + 1;
      }
      assert observers[..i] == observers;
    }

    /**
     * Searches and books with the selected airline, then notifies every
     * observer. The summary is built from the same pieces BookingMessage
     * uses, with the branch's own flight id.
     */
    method SearchAndBook(fromCity: string, toCity: string, choice: string)
      modifies this
      ensures observers == old(observers)
      ensures output == old(output) + SearchAndBookEvents(observers, fromCity, toCity, choice)
    {
      var message: string;
      ghost var written: seq<Event>;
      if choice == "A" {
        var flightInfo := SearchFlights(A, fromCity, toCity);
        output := output + [Say(flightInfo)];
        var flightId := "A123";
        var bookingInfo := BookTicket(A, flightId);
        output := output + [Say(bookingInfo)];
        message := BookedHead + Name(A) + " на рейс " + flightId;
        written := [Say(flightInfo), Say(bookingInfo)];
        BookingEventsKnown(observers, fromCity, toCity, choice, A, flightId, message);
      } else if choice == "B" {
        var flightInfo := SearchFlights(B, fromCity, toCity);
        output := output + [Say(flightInfo)];
        var flightId := "B456";
        var bookingInfo := BookTicket(B, flightId);
        output := output + [Say(bookingInfo)];
        message := BookedHead + Name(B) + " на рейс " + flightId;
        written := [Say(flightInfo), Say(bookingInfo)];
        BookingEventsKnown(observers, fromCity, toCity, choice, B, flightId, message);
      } else {
        output := output + [Say(InvalidChoiceLine)];
        return;
      }
      assert output == old(output) + written;
      NotifyObservers(message);
      AppendAssociates(old(output), written, Broadcast(observers, message));
    }

    /** Asks for confirmation (the answer is `input`) and on yes refunds and notifies every observer. */
    method RefundTicket(choice: string, input: string)
      modifies this
      ensures observers == old(observers)
      ensures output == old(output) + RefundEvents(observers, choice, input)
    {
      output := output + [Prompt(RefundPrompt)];
      if input == "Да" || input == "да" {
        output := output + [Say(RefundingLine)];
        var message := "";
        if choice == "A" {
          message := Airlines.RefundTicket(A, "A123");
        } else if choice == "B" {
          message := Airlines.RefundTicket(B, "B456");
        }
        output := output + [Say(message)];
        ghost var written := [Prompt(RefundPrompt), Say(RefundingLine), Say(message)];
        assert output == old(output) + written;
        RefundEventsConfirmed(observers, choice, input, message);
        NotifyObservers(message);
        AppendAssociates(old(output), written, Broadcast(observers, message));
      } else if input == "Нет" || input == "нет" {
        output := output + [Say(FarewellLine)];
      } else {
        output := output + [Say(InvalidInputLine)];
      }
    }
  }

  lemma SameSuffixHead<T>(s: seq<T>, t: seq<T>, r: nat)
    requires r < |s| == |t| && s[r..] == t[r..]
    ensures s[r] == t[r] && s[r + 1..] == t[r + 1..]
  {
    assert s[r..][0] == t[r..][0];
    assert s[r + 1..] == s[r..][1..];
    assert t[r + 1..] == t[r..][1..];
  }

  lemma AppendAssociates<T>(x: seq<T>, y: seq<T>, z: seq<T>)
    ensures x + y + z == x + (y + z)
  {
  }

  lemma UpdateKeepsSuffix<T>(s: seq<T>, i: nat, v: T, j: nat)
    requires i < j <= |s|
    ensures s[i := v][j..] == s[j..]
  {
  }

  lemma UpdateExtendsPrefix<T>(s: seq<T>, i: nat, v: T)
    requires i < |s|
    ensures s[i := v][..i + 1] == s[..i] + [v]
  {
  }

  /** The registry ids of the program's two observers. */
  const UserObserver: ObserverId := 0
  const LoggerObserver: ObserverId := 1

  const MainPrompts := [
    Prompt("Введите город отправления: "),
    Prompt("Введите город назначения: "),
    Prompt("Выберите авиакомпанию (A или B): ")
  ]

  /** What the program run writes, as a function of the four console tokens it reads. */
  function MainEvents(fromCity: string, toCity: string, choice: string, answer: string): seq<Event>
  {
    MainPrompts
    + SearchAndBookEvents([UserObserver, LoggerObserver], fromCity, toCity, choice)
    + RefundEvents([UserObserver, LoggerObserver], choice, answer)
  }

  lemma MainNotified(fromCity: string, toCity: string, choice: string, answer: string)
    ensures Notified(MainEvents(fromCity, toCity, choice, answer))
            == Notified(SearchAndBookEvents([UserObserver, LoggerObserver], fromCity, toCity, choice))
               + Notified(RefundEvents([UserObserver, LoggerObserver], choice, answer))
  {
    var registry := [UserObserver, LoggerObserver];
    var booking := SearchAndBookEvents(registry, fromCity, toCity, choice);
    var refund := RefundEvents(registry, choice, answer);
    NotifiedAfterConsole(MainPrompts, booking, refund);
  }

  /**
   * Booking and confirming with airline A: the user and then the logger hear
   * of the booking, then the user and then the logger hear of the refund.
   */
  lemma MainBookAndRefund(fromCity: string, toCity: string)
    ensures Notified(MainEvents(fromCity, toCity, "A", "Да"))
            == [Update(UserObserver, BookingMessage(A)),
                Update(LoggerObserver, BookingMessage(A)),
                Update(UserObserver, Airlines.RefundTicket(A, "A123")),
                Update(LoggerObserver, Airlines.RefundTicket(A, "A123"))]
  {
    var registry := [UserObserver, LoggerObserver];
    var booked, refunded := BookingMessage(A), Airlines.RefundTicket(A, FlightId(A));
    MainNotified(fromCity, toCity, "A", "Да");
    BookingWithKnownAirline(registry, fromCity, toCity, "A", A);
    RefundConfirmed(registry, "A", "Да", A);
    assert Broadcast(registry, booked) == [Update(UserObserver, booked), Update(LoggerObserver, booked)];
    assert Broadcast(registry, refunded) == [Update(UserObserver, refunded), Update(LoggerObserver, refunded)];
  }

  /** An unknown selector and no yes: nobody is notified. */
  lemma MainSilent(fromCity: string, toCity: string, choice: string, answer: string)
    requires choice != "A" && choice != "B"
    requires answer != "Да" && answer != "да"
    ensures Notified(MainEvents(fromCity, toCity, choice, answer)) == []
  {
    var registry := [UserObserver, LoggerObserver];
    MainNotified(fromCity, toCity, choice, answer);
    BookingWithUnknownAirline(registry, fromCity, toCity, choice);
    if answer == "Нет" || answer == "нет" {
      RefundDeclined(registry, choice, answer);
    } else {
      RefundUnrecognised(registry, choice, answer);
    }
  }

  /**
   * The program run: register the user and logger observers, read the two
   * cities and the selector, book, then offer a refund. The inputs are the
   * tokens the console reads would return.
   */
  method Session(fromCity: string, toCity: string, choice: string, answer: string)
    returns (out: seq<Event>)
    ensures out == MainEvents(fromCity, toCity, choice, answer)
  {
    ghost var registry := [UserObserver, LoggerObserver];
    ghost var booking := SearchAndBookEvents(registry, fromCity, toCity, choice);
    ghost var refund := RefundEvents(registry, choice, answer);
    var facade := new BookingFacade();
    facade.AddObserver(UserObserver);
    facade.AddObserver(LoggerObserver);
    assert facade.observers == registry && facade.output == [];
    facade.SearchAndBook(fromCity, toCity, choice);
    assert facade.output == booking;
    facade.RefundTicket(choice, answer);
    assert facade.output == booking + refund;
    out := MainPrompts + facade.output;
  }
}
