/**
 * The two airline back ends behind the booking facade (oop.cpp, classes
 * AirlineA and AirlineB). Each offers search, book and refund, and each is
 * a single string concatenation over its arguments: total on every input,
 * the empty string included. The two variants differ only in the name
 * embedded in their texts.
 *
 * Beside the builders stand parsers that read a text back into the airline
 * and the arguments it was built from. Every booking and refund text reads
 * back to its airline and id; a search text reads back to its airline and
 * cities when the departure city holds no space, and SearchRouteAmbiguous
 * shows two routes with one text when it does.
 */
module Airlines {
  import opened Wrappers

  /** The airline variant. The classes hold no state, so the value stands for the instance. */
  datatype AirlineId = A | B

  /** The airline's name as every one of its texts spells it. */
  function Name(a: AirlineId): string
  {
    match a
    case A => "Airline A"
    case B => "Airline B"
  }

  /** x occurs in s starting at index i. */
  predicate Embeds(s: string, i: nat, x: string)
  {
    i + |x| <= |s| && s[i..i + |x|] == x
  }

  /** s ends with x. */
  predicate EndsWith(s: string, x: string)
  {
    |x| <= |s| && s[|s| - |x|..] == x
  }

  const SearchHead := "Поиск рейсов в "
  const BookHead := "Бронирование билета на рейс "
  const RefundHead := "Возврат билета с номером "

  /** What follows the flight or ticket id in a booking or refund text. */
  function Trailer(a: AirlineId): string
  {
    " в " + Name(a)
  }

  /** What precedes the departure city in a search text. */
  function SearchLead(a: AirlineId): string
  {
    SearchHead + Name(a) + " из "
  }

  /**
   * AirlineA::searchFlights / AirlineB::searchFlights: the airline's search
   * lead, then the departure city, then the destination at the very end.
   */
  function SearchFlights(a: AirlineId, fromCity: string, toCity: string): (r: string)
    ensures Embeds(r, 0, SearchLead(a))
    ensures Embeds(r, |SearchLead(a)|, fromCity)
    ensures EndsWith(r, toCity)
  {
    SearchHead + Name(a) + " из " + fromCity + " в " + toCity
  }

  /** AirlineA::bookTicket / AirlineB::bookTicket: the flight id, followed by the airline's trailer. */
  function BookTicket(a: AirlineId, flightId: string): (r: string)
    ensures Embeds(r, 0, BookHead)
    ensures Embeds(r, |BookHead|, flightId)
    ensures EndsWith(r, Trailer(a))
  {
    BookHead + flightId + " в " + Name(a)
  }

  /** AirlineA::refundTicket / AirlineB::refundTicket: the ticket id, followed by the airline's trailer. */
  function RefundTicket(a: AirlineId, ticketId: string): (r: string)
    ensures Embeds(r, 0, RefundHead)
    ensures Embeds(r, |RefundHead|, ticketId)
    ensures EndsWith(r, Trailer(a))
  {
    RefundHead + ticketId + " в " + Name(a)
  }

  // ---------------------------------------------------------------------
  // Reading the texts back
  // ---------------------------------------------------------------------

  /** Index of the first space in s, or |s| when there is none. */
  function SpaceIndex(s: string): (k: nat)
    ensures k <= |s|
    ensures k < |s| ==> s[k] == ' '
    ensures forall i :: 0 <= i < k ==> s[i] != ' '
  {
    if s == [] || s[0] == ' ' then 0 else 1 + SpaceIndex(s[1..])
  }

  /** The airline whose trailer ends s, if any. */
  function TrailerOf(s: string): (r: Option<AirlineId>)
    ensures r.Some? ==> |Trailer(r.value)| <= |s| && s[|s| - |Trailer(r.value)|..] == Trailer(r.value)
    ensures r.None? ==> forall a: AirlineId ::
              !(|Trailer(a)| <= |s| && s[|s| - |Trailer(a)|..] == Trailer(a))
  {
    if |Trailer(A)| <= |s| && s[|s| - |Trailer(A)|..] == Trailer(A) then Some(A)
    else if |Trailer(B)| <= |s| && s[|s| - |Trailer(B)|..] == Trailer(B) then Some(B)
    else None
  }

  /** Reads head + id + Trailer(a) back into (a, id). */
  function ParseTrailed(head: string, s: string): Option<(AirlineId, string)>
  {
    match TrailerOf(s)
    case None => None
    case Some(a) =>
      if |head| + |Trailer(a)| <= |s| && s[..|head|] == head
      then Some((a, s[|head|..|s| - |Trailer(a)|]))
      else None
  }

  /** Reads a booking text back into its airline and flight id. */
  function ParseBooking(s: string): Option<(AirlineId, string)>
  {
    ParseTrailed(BookHead, s)
  }

  /** Reads a refund text back into its airline and ticket id. */
  function ParseRefund(s: string): Option<(AirlineId, string)>
  {
    ParseTrailed(RefundHead, s)
  }

  /** The airline whose search lead starts s, if any. */
  function SearchLeadOf(s: string): (r: Option<AirlineId>)
    ensures r.Some? ==> |SearchLead(r.value)| <= |s| && s[..|SearchLead(r.value)|] == SearchLead(r.value)
  {
    if |SearchLead(A)| <= |s| && s[..|SearchLead(A)|] == SearchLead(A) then Some(A)
    else if |SearchLead(B)| <= |s| && s[..|SearchLead(B)|] == SearchLead(B) then Some(B)
    else None
  }

  /**
   * Reads fromCity + " в " + toCity back into the two cities. The departure
   * city ends at the first space, as a city read by a whitespace-delimited
   * console read always does.
   */
  function ParseRoute(route: string): Option<(string, string)>
  {
    var k := SpaceIndex(route);
    if k + 3 <= |route| && route[k..k + 3] == " в "
    then Some((route[..k], route[k + 3..]))
    else None
  }

  /** Reads a search text back into airline, departure and destination. */
  function ParseSearch(s: string): Option<(AirlineId, string, string)>
  {
    match SearchLeadOf(s)
    case None => None
    case Some(a) =>
      match ParseRoute(s[|SearchLead(a)|..])
      case None => None
      case Some(cities) => Some((a, cities.0, cities.1))
  }

  // ---------------------------------------------------------------------
  // Lemmas
  // ---------------------------------------------------------------------

  lemma TrailedRoundTrip(head: string, a: AirlineId, id: string)
    ensures ParseTrailed(head, head + id + Trailer(a)) == Some((a, id))
  {
    var s := head + id + Trailer(a);
    assert s[|s| - |Trailer(a)|..] == Trailer(a);
    TrailerOfEnd(s, a);
    assert s[..|head|] == head;
    assert s[|head|..|s| - |Trailer(a)|] == id;
  }

  lemma TrailerOfEnd(s: string, a: AirlineId)
    requires |Trailer(a)| <= |s| && s[|s| - |Trailer(a)|..] == Trailer(a)
    ensures TrailerOf(s) == Some(a)
  {
    TrailersDiffer();
  }

  lemma TrailersDiffer()
    ensures |Trailer(A)| == |Trailer(B)| && Trailer(A) != Trailer(B)
  {
    assert Trailer(A)[11] != Trailer(B)[11];
  }

  lemma TrailedExact(head: string, s: string, a: AirlineId, id: string)
    requires ParseTrailed(head, s) == Some((a, id))
    ensures s == head + id + Trailer(a)
  {
    assert s == s[..|head|] + s[|head|..|s| - |Trailer(a)|] + s[|s| - |Trailer(a)|..];
  }

  /** A booking text reads back to its airline and flight id. */
  lemma BookingRoundTrip(a: AirlineId, flightId: string)
    ensures ParseBooking(BookTicket(a, flightId)) == Some((a, flightId))
  {
    assert BookTicket(a, flightId) == BookHead + flightId + Trailer(a);
    TrailedRoundTrip(BookHead, a, flightId);
  }

  /** Only the booking text of an airline and flight id reads back to them. */
  lemma BookingParseExact(s: string, a: AirlineId, flightId: string)
    requires ParseBooking(s) == Some((a, flightId))
    ensures s == BookTicket(a, flightId)
  {
    TrailedExact(BookHead, s, a, flightId);
  }

  /** A refund text reads back to its airline and ticket id. */
  lemma RefundRoundTrip(a: AirlineId, ticketId: string)
    ensures ParseRefund(RefundTicket(a, ticketId)) == Some((a, ticketId))
  {
    assert RefundTicket(a, ticketId) == RefundHead + ticketId + Trailer(a);
    TrailedRoundTrip(RefundHead, a, ticketId);
  }

  /** Only the refund text of an airline and ticket id reads back to them. */
  lemma RefundParseExact(s: string, a: AirlineId, ticketId: string)
    requires ParseRefund(s) == Some((a, ticketId))
    ensures s == RefundTicket(a, ticketId)
  {
    TrailedExact(RefundHead, s, a, ticketId);
  }

  lemma SearchLeadsDiffer()
    ensures |SearchLead(A)| == |SearchLead(B)| && SearchLead(A) != SearchLead(B)
  {
    assert SearchLead(A)[|SearchHead| + 8] != SearchLead(B)[|SearchHead| + 8];
  }

  lemma SearchLeadOfLead(a: AirlineId, route: string)
    ensures SearchLeadOf(SearchLead(a) + route) == Some(a)
  {
    var s := SearchLead(a) + route;
    assert s[..|SearchLead(a)|] == SearchLead(a);
    SearchLeadsDiffer();
  }

  lemma SpaceIndexOfRoute(fromCity: string, rest: string)
    requires ' ' !in fromCity
    requires rest != [] && rest[0] == ' '
    ensures SpaceIndex(fromCity + rest) == |fromCity|
  {
    var route := fromCity + rest;
    assert route[|fromCity|] == ' ';
    assert forall i :: 0 <= i < |fromCity| ==> route[i] == fromCity[i];
  }

  lemma RouteRoundTrip(fromCity: string, toCity: string)
    requires ' ' !in fromCity
    ensures ParseRoute(fromCity + " в " + toCity) == Some((fromCity, toCity))
  {
    var route := fromCity + (" в " + toCity);
    assert fromCity + " в " + toCity == route;
    SpaceIndexOfRoute(fromCity, " в " + toCity);
    var k := |fromCity|;
    assert route[k..k + 3] == " в ";
    assert route[..k] == fromCity;
    assert route[k + 3..] == toCity;
  }

  lemma RouteExact(route: string, fromCity: string, toCity: string)
    requires ParseRoute(route) == Some((fromCity, toCity))
    ensures route == fromCity + " в " + toCity
    ensures ' ' !in fromCity
  {
    var k := SpaceIndex(route);
    assert route == route[..k] + route[k..k + 3] + route[k + 3..];
    assert ' ' !in fromCity by {
      forall i | 0 <= i < |fromCity| ensures fromCity[i] != ' ' {
        assert fromCity[i] == route[i];
      }
    }
  }

  /**
   * A search text names its airline and both cities, provided the departure
   * city holds no space.
   */
  lemma SearchRoundTrip(a: AirlineId, fromCity: string, toCity: string)
    requires ' ' !in fromCity
    ensures ParseSearch(SearchFlights(a, fromCity, toCity)) == Some((a, fromCity, toCity))
  {
    SearchFlightsShape(a, fromCity, toCity);
    RouteRoundTrip(fromCity, toCity);
    SearchOfRoute(a, fromCity + " в " + toCity, fromCity, toCity);
  }

  lemma SearchFlightsShape(a: AirlineId, fromCity: string, toCity: string)
    ensures SearchFlights(a, fromCity, toCity) == SearchLead(a) + (fromCity + " в " + toCity)
  {
  }

  lemma SearchOfRoute(a: AirlineId, route: string, fromCity: string, toCity: string)
    requires ParseRoute(route) == Some((fromCity, toCity))
    ensures ParseSearch(SearchLead(a) + route) == Some((a, fromCity, toCity))
  {
    var s := SearchLead(a) + route;
    SearchLeadOfLead(a, route);
    assert s[|SearchLead(a)|..] == route;
  }

  /** Only search texts read back, and only with a departure city free of spaces. */
  lemma SearchParseExact(s: string, a: AirlineId, fromCity: string, toCity: string)
    requires ParseSearch(s) == Some((a, fromCity, toCity))
    ensures s == SearchFlights(a, fromCity, toCity)
    ensures ' ' !in fromCity
  {
    assert SearchLeadOf(s) == Some(a);
    var n := |SearchLead(a)|;
    RouteExact(s[n..], fromCity, toCity);
    assert s == s[..n] + s[n..];
    SearchFlightsShape(a, fromCity, toCity);
  }

  /**
   * Without the no-space condition a search text does not determine the
   * cities: two different routes give the same text.
   */
  lemma SearchRouteAmbiguous()
    ensures SearchFlights(A, "X в Y", "Z") == SearchFlights(A, "X", "Y в Z")
  {
  }

  /** Replacing the label letter of "Airline A" by 'B' gives "Airline B", and nothing else changes. */
  lemma SwapLabel(prefix: string, suffix: string)
    ensures |prefix + Name(A) + suffix| == |prefix + Name(B) + suffix|
    ensures prefix + Name(B) + suffix == (prefix + Name(A) + suffix)[|prefix| + 8 := 'B']
    ensures (prefix + Name(A) + suffix)[|prefix| + 8] == 'A'
  {
    var x := prefix + Name(A) + suffix;
    var y := prefix + Name(B) + suffix;
    forall i | 0 <= i < |y|
      ensures y[i] == x[|prefix| + 8 := 'B'][i]
    {
      if i < |prefix| {
      } else if i < |prefix| + 9 {
        assert y[i] == Name(B)[i - |prefix|];
        assert x[i] == Name(A)[i - |prefix|];
      } else {
        assert y[i] == suffix[i - |prefix| - 9];
        assert x[i] == suffix[i - |prefix| - 9];
      }
    }
  }

  /** The search texts of A and B differ exactly in the label letter. */
  lemma SearchVariantsDifferOnlyInLabel(fromCity: string, toCity: string)
    ensures var k := |SearchHead| + 8;
      && SearchFlights(A, fromCity, toCity)[k] == 'A'
      && SearchFlights(B, fromCity, toCity) == SearchFlights(A, fromCity, toCity)[k := 'B']
  {
    var tail := " из " + fromCity + " в " + toCity;
    SwapLabel(SearchHead, tail);
    assert SearchFlights(A, fromCity, toCity) == SearchHead + Name(A) + tail;
    assert SearchFlights(B, fromCity, toCity) == SearchHead + Name(B) + tail;
  }

  /** The booking texts of A and B differ exactly in the label letter. */
  lemma BookVariantsDifferOnlyInLabel(flightId: string)
    ensures var k := |BookHead| + |flightId| + 3 + 8;
      && BookTicket(A, flightId)[k] == 'A'
      && BookTicket(B, flightId) == BookTicket(A, flightId)[k := 'B']
  {
    SwapLabel(BookHead + flightId + " в ", []);
    assert BookTicket(A, flightId) == BookHead + flightId + " в " + Name(A) + [];
    assert BookTicket(B, flightId) == BookHead + flightId + " в " + Name(B) + [];
  }

  /** The refund texts of A and B differ exactly in the label letter. */
  lemma RefundVariantsDifferOnlyInLabel(ticketId: string)
    ensures var k := |RefundHead| + |ticketId| + 3 + 8;
      && RefundTicket(A, ticketId)[k] == 'A'
      && RefundTicket(B, ticketId) == RefundTicket(A, ticketId)[k := 'B']
  {
    SwapLabel(RefundHead + ticketId + " в ", []);
    assert RefundTicket(A, ticketId) == RefundHead + ticketId + " в " + Name(A) + [];
    assert RefundTicket(B, ticketId) == RefundHead + ticketId + " в " + Name(B) + [];
  }
}
