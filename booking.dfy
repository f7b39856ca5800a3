/**
 * What the booking facade's two transactions do (oop.cpp, BookingFacade's
 * searchAndBook and refundTicket), as functions from the registry and the
 * inputs to the events they add to the trace. The class in module Facade
 * is proved to produce exactly these events; the lemmas here say what they
 * mean.
 */
module Booking {
  import opened Wrappers
  import opened Airlines
  import opened Registry

  /** The airline a selector picks: "A" or "B", compared exactly; anything else picks none. */
  function Dispatch(choice: string): (r: Option<AirlineId>)
    ensures r.Some? ==> choice == Selector(r.value)
    ensures r.None? ==> choice != Selector(A) && choice != Selector(B)
  {
    if choice == "A" then Some(A)
    else if choice == "B" then Some(B)
    else None
  }

  /** The selector that picks an airline. */
  function Selector(a: AirlineId): string
  {
    match a
    case A => "A"
    case B => "B"
  }

  /**
   * The fixed flight id the facade books with each airline, and later refunds:
   * the airline's selector letter followed by three digits, one console token.
   */
  function FlightId(a: AirlineId): (r: string)
    ensures |r| == 4 && r[..1] == Selector(a)
    ensures forall i :: 1 <= i < |r| ==> '0' <= r[i] <= '9'
  {
    match a
    case A => "A123"
    case B => "B456"
  }

  const BookedHead := "Бронирование успешно завершено в "
  const InvalidChoiceLine := "Неверный выбор авиакомпании"
  const RefundPrompt := "Вы хотите вернуть билет? (Да/Нет): "
  const RefundingLine := "Возврат билета..."
  const FarewellLine := "Хорошего полёта!"
  const InvalidInputLine := "Неверный ввод. Пожалуйста, введите 'Да' или 'Нет'."

  /** The summary broadcast after a booking: it names the airline and ends with the booked flight id. */
  function BookingMessage(a: AirlineId): (m: string)
    ensures Embeds(m, 0, BookedHead)
    ensures Embeds(m, |BookedHead|, Name(a))
    ensures EndsWith(m, FlightId(a))
  {
    BookedHead + Name(a) + " на рейс " + FlightId(a)
  }

  /** The answer to the refund prompt, in three ways. */
  datatype Confirmation = Yes | No | Unrecognised

  /** The spellings of each answer the refund prompt accepts. */
  function Spellings(c: Confirmation): set<string>
  {
    match c
    case Yes => {"Да", "да"}
    case No => {"Нет", "нет"}
    case Unrecognised => {}
  }

  /** An answer is recognised exactly when it is one of the accepted spellings, compared exactly. */
  function ParseConfirmation(input: string): (r: Confirmation)
    ensures r != Unrecognised ==> input in Spellings(r)
    ensures r == Unrecognised ==> forall c :: input !in Spellings(c)
  {
    if input == "Да" || input == "да" then Yes
    else if input == "Нет" || input == "нет" then No
    else Unrecognised
  }

  /**
   * The refund text of the selected airline for its fixed id; for an unknown
   * selector the message is never assigned and stays empty.
   */
  function RefundMessage(choice: string): (r: string)
    ensures r == [] <==> Dispatch(choice).None?
    ensures r != [] ==> EndsWith(r, Trailer(Dispatch(choice).value))
  {
    match Dispatch(choice)
    case Some(a) => RefundTicket(a, FlightId(a))
    case None => ""
  }

  /** The events of searchAndBook(fromCity, toCity, choice) with the given registry. */
  function SearchAndBookEvents(observers: seq<ObserverId>, fromCity: string, toCity: string,
                               choice: string): seq<Event>
  {
    match Dispatch(choice)
    case None => [Say(InvalidChoiceLine)]
    case Some(a) =>
      [Say(SearchFlights(a, fromCity, toCity)), Say(BookTicket(a, FlightId(a)))]
      + Broadcast(observers, BookingMessage(a))
  }

  /** The events of refundTicket(choice) with the given registry, when the user answers input. */
  function RefundEvents(observers: seq<ObserverId>, choice: string, input: string): seq<Event>
  {
    [Prompt(RefundPrompt)] +
    match ParseConfirmation(input)
    case Yes =>
      [Say(RefundingLine), Say(RefundMessage(choice))] + Broadcast(observers, RefundMessage(choice))
    case No => [Say(FarewellLine)]
    case Unrecognised => [Say(InvalidInputLine)]
  }

  // ---------------------------------------------------------------------
  // Selectors and identifiers
  // ---------------------------------------------------------------------

  /** Dispatch recognises exactly the two selectors, one per airline. */
  lemma DispatchSelector(choice: string, a: AirlineId)
    ensures Dispatch(choice) == Some(a) <==> choice == Selector(a)
    ensures Dispatch(choice).None? <==> choice != "A" && choice != "B"
  {
  }

  /** The summaries of the two airlines differ, so every observer can tell them apart. */
  lemma BookingMessagesDiffer()
    ensures BookingMessage(A) != BookingMessage(B)
  {
    var m, n := BookingMessage(A), BookingMessage(B);
    assert m[|BookedHead|..|BookedHead| + 9][8] != n[|BookedHead|..|BookedHead| + 9][8];
  }

  /** The refund refers to the very flight id the booking used. */
  lemma RefundUsesBookedFlight(choice: string, a: AirlineId)
    requires Dispatch(choice) == Some(a)
    ensures ParseBooking(BookTicket(a, FlightId(a))) == Some((a, FlightId(a)))
    ensures ParseRefund(RefundMessage(choice)) == Some((a, FlightId(a)))
  {
    BookingRoundTrip(a, FlightId(a));
    RefundRoundTrip(a, FlightId(a));
  }

  // ---------------------------------------------------------------------
  // searchAndBook
  // ---------------------------------------------------------------------

  /**
   * A known selector searches once with the given cities, books once with the
   * airline's fixed flight id, and then notifies every registry entry of the
   * booking summary, in registry order.
   */
  lemma BookingWithKnownAirline(observers: seq<ObserverId>, fromCity: string, toCity: string,
                                choice: string, a: AirlineId)
    requires Dispatch(choice) == Some(a)
    ensures var ev := SearchAndBookEvents(observers, fromCity, toCity, choice);
      && |ev| == 2 + |observers|
      && ev[0] == Say(SearchFlights(a, fromCity, toCity))
      && ev[1] == Say(BookTicket(a, FlightId(a)))
      && Notified(ev) == Broadcast(observers, BookingMessage(a))
      && ev[2..] == Broadcast(observers, BookingMessage(a))
  {
    var lines := [Say(SearchFlights(a, fromCity, toCity)), Say(BookTicket(a, FlightId(a)))];
    assert SearchAndBookEvents(observers, fromCity, toCity, choice)
           == lines + Broadcast(observers, BookingMessage(a));
    NotifiedConsoleThenBroadcast(lines, observers, BookingMessage(a));
  }

  /** The events of a booking with a known selector, in the form the facade writes them. */
  lemma BookingEventsKnown(observers: seq<ObserverId>, fromCity: string, toCity: string,
                           choice: string, a: AirlineId, flightId: string, message: string)
    requires Dispatch(choice) == Some(a)
    requires flightId == FlightId(a)
    requires message == BookedHead + Name(a) + " на рейс " + flightId
    ensures SearchAndBookEvents(observers, fromCity, toCity, choice)
            == [Say(SearchFlights(a, fromCity, toCity)), Say(BookTicket(a, flightId))]
               + Broadcast(observers, message)
  {
  }

  /** Each observer hears of a booking as many times as it is registered. */
  lemma BookingDeliveries(observers: seq<ObserverId>, fromCity: string, toCity: string,
                          choice: string, a: AirlineId, o: ObserverId)
    requires Dispatch(choice) == Some(a)
    ensures var ev := SearchAndBookEvents(observers, fromCity, toCity, choice);
      multiset(ev)[Update(o, BookingMessage(a))] == multiset(observers)[o]
  {
    BroadcastCounts(observers, BookingMessage(a), o);
  }

  /** An unknown selector makes no airline call and notifies nobody. */
  lemma BookingWithUnknownAirline(observers: seq<ObserverId>, fromCity: string, toCity: string,
                                  choice: string)
    requires choice != "A" && choice != "B"
    ensures SearchAndBookEvents(observers, fromCity, toCity, choice) == [Say(InvalidChoiceLine)]
    ensures Notified(SearchAndBookEvents(observers, fromCity, toCity, choice)) == []
  {
  }

  // ---------------------------------------------------------------------
  // refundTicket
  // ---------------------------------------------------------------------

  /**
   * A yes with a known selector refunds the fixed flight id with that airline
   * and notifies every registry entry of the refund text, in registry order.
   */
  lemma RefundConfirmed(observers: seq<ObserverId>, choice: string, input: string, a: AirlineId)
    requires input == "Да" || input == "да"
    requires Dispatch(choice) == Some(a)
    ensures var ev := RefundEvents(observers, choice, input);
      && ev == [Prompt(RefundPrompt), Say(RefundingLine), Say(RefundTicket(a, FlightId(a)))]
               + Broadcast(observers, RefundTicket(a, FlightId(a)))
      && Notified(ev) == Broadcast(observers, RefundTicket(a, FlightId(a)))
  {
    var lines := [Prompt(RefundPrompt), Say(RefundingLine), Say(RefundMessage(choice))];
    assert RefundEvents(observers, choice, input) == lines + Broadcast(observers, RefundMessage(choice));
    assert ConsoleOnly(lines[2..]) && ConsoleOnly(lines[1..]);
    NotifiedConsoleThenBroadcast(lines, observers, RefundMessage(choice));
  }

  /**
   * A yes with an unknown selector still notifies every registry entry, with
   * the empty message the facade never assigned.
   */
  lemma RefundConfirmedUnknownAirline(observers: seq<ObserverId>, choice: string, input: string)
    requires input == "Да" || input == "да"
    requires choice != "A" && choice != "B"
    ensures RefundEvents(observers, choice, input)
            == [Prompt(RefundPrompt), Say(RefundingLine), Say("")] + Broadcast(observers, "")
    ensures Notified(RefundEvents(observers, choice, input)) == Broadcast(observers, "")
  {
    var lines := [Prompt(RefundPrompt), Say(RefundingLine), Say("")];
    assert RefundEvents(observers, choice, input) == lines + Broadcast(observers, "");
    assert ConsoleOnly(lines[2..]) && ConsoleOnly(lines[1..]);
    NotifiedConsoleThenBroadcast(lines, observers, "");
  }

  /** The events of a confirmed refund, in the form the facade writes them. */
  lemma RefundEventsConfirmed(observers: seq<ObserverId>, choice: string, input: string, message: string)
    requires input == "Да" || input == "да"
    requires message == RefundMessage(choice)
    ensures RefundEvents(observers, choice, input)
            == [Prompt(RefundPrompt), Say(RefundingLine), Say(message)] + Broadcast(observers, message)
  {
  }

  /** A no refunds nothing and notifies nobody. */
  lemma RefundDeclined(observers: seq<ObserverId>, choice: string, input: string)
    requires input == "Нет" || input == "нет"
    ensures RefundEvents(observers, choice, input) == [Prompt(RefundPrompt), Say(FarewellLine)]
    ensures Notified(RefundEvents(observers, choice, input)) == []
  {
    NotifiedConsole(RefundEvents(observers, choice, input));
  }

  /** Any other answer reports invalid input, refunds nothing and notifies nobody. */
  lemma RefundUnrecognised(observers: seq<ObserverId>, choice: string, input: string)
    requires input != "Да" && input != "да" && input != "Нет" && input != "нет"
    ensures RefundEvents(observers, choice, input) == [Prompt(RefundPrompt), Say(InvalidInputLine)]
    ensures Notified(RefundEvents(observers, choice, input)) == []
  {
    NotifiedConsole(RefundEvents(observers, choice, input));
  }
}
