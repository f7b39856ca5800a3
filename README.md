# Booking facade: a verified model

The program is a console demonstration of the Observer and Facade patterns
over a toy flight booking. `BookingFacade` holds two stateless airline back
ends (`AirlineA`, `AirlineB`) and an ordered registry of observers. It offers
search-and-book and refund operations: each picks an airline by a selector
string ("A" or "B"), calls the airline, and broadcasts a summary message to
every registered observer.

This project models that core in Dafny:

- `Airlines` (airlines.dfy): the three text builders of each airline as pure
  functions over an `AirlineId`. Their contracts say where each argument sits
  in the text. Parsers read back every booking and refund text, and every
  search text whose departure city holds no space; round-trip lemmas prove
  this in both directions. `SearchRouteAmbiguous` shows that a departure city
  with a space cannot always be recovered. Label lemmas show that the A and B
  texts differ in exactly one character, the label letter.
- `Registry` (registry.dfy): observer ids, the event trace, and the
  specification functions `Broadcast` (notify every entry, in order) and
  `Removed` (erase every occurrence). Lemmas cover multiplicity, order, the
  no-op on an absent id, idempotence, and the effect of removal on later
  broadcasts.
- `Booking` (booking.dfy): the two transactions as functions from the
  registry and the inputs to the events they produce. Lemmas cover each
  branch: known selector, unknown selector, yes, no, unrecognised answer.
- `Facade` (facade.dfy): class `BookingFacade`. Its `observers` field is a
  sequence updated in place, and its `output` field is the trace. Every method
  is proved to produce exactly the events of its specification function and to
  leave the registry unchanged, or to change it as `addObserver`/
  `removeObserver` do. `Session` models `main`.

Observers are compared by pointer identity only, so each is an id
(`ObserverId`, a `nat`). The program's visible effects form one trace of
events:
- `Say(line)`: a console line ended by `endl`;
- `Prompt(text)`: console text written without a line end;
- `Update(observer, message)`: one call of an observer's `update`.

Console input (`cin`) arrives as parameters, one per token read.

Two behaviours of the code are kept as written:
- the confirmation tokens are "Да"/"да" and "Нет"/"нет", compared exactly;
- a confirmed refund with a selector other than "A"/"B" prints and
  broadcasts the empty string, because the message is never assigned
  (`RefundConfirmedUnknownAirline`).

## Model

| member | source | states |
|---|---|---|
| Facade.BookingFacade.constructor | oop.cpp:85-89 | a new facade has an empty observer registry and has written nothing |
| Facade.BookingFacade.AddObserver | oop.cpp:143-145 | the registry becomes the old registry plus the observer at the end, with no duplicate check; nothing is written |
| Facade.BookingFacade.RemoveObserver | oop.cpp:147-149 | the erase/remove loop, which compacts in place and then truncates, leaves exactly `Removed(old registry, o)`; nothing is written |
| Facade.BookingFacade.NotifyObservers | oop.cpp:151-155 | the indexed loop appends one update call per registry entry, in registry order, all with the message; the registry is unchanged |
| Facade.BookingFacade.SearchAndBook | oop.cpp:93-116 | writes exactly `SearchAndBookEvents` for the current registry and leaves the registry unchanged |
| Facade.BookingFacade.RefundTicket | oop.cpp:119-140 | writes exactly `RefundEvents` for the current registry and the confirmation token, and leaves the registry unchanged |
| Facade.Session | oop.cpp:158-185 | the program run, with the user and logger observers registered in that order, writes the three prompts, then the booking events, then the refund events |
| Facade.MainBookAndRefund | oop.cpp:163-182 | with selector "A" and answer "Да", the update calls are: user and then logger get the booking summary, then user and then logger get the refund text for A123 |
| Facade.MainSilent | oop.cpp:170-182 | with an unknown selector and no "Да"/"да", no observer is notified during the run |
| Registry.RemovedCounts | oop.cpp:147-149 | after removal o does not occur, and every other id keeps its exact multiplicity |
| Registry.RemovedIsSubsequence | oop.cpp:147-149 | the remaining entries keep their relative order: the result is a subsequence of the old registry |
| Registry.RemovedAbsent | oop.cpp:147-149 | removing an id that is not registered leaves the registry unchanged |
| Registry.RemovedIdempotent | oop.cpp:147-149 | removing the same id twice equals removing it once |
| Registry.RemovedAppend | oop.cpp:147-149 | removal distributes over concatenation, so it is decided entry by entry |
| Registry.BroadcastSnoc | oop.cpp:143-155 | registering one more observer at the end adds exactly one update call at the end of every later broadcast |
| Registry.BroadcastCounts | oop.cpp:151-155 | each observer receives the message exactly as often as it is registered (twice if added twice) and receives no other message |
| Registry.BroadcastAfterRemove | oop.cpp:147-155 | after removing o, a broadcast never reaches o, and it makes one call for each remaining entry |
| Booking.DispatchSelector | oop.cpp:95-111 | exactly "A" selects airline A and exactly "B" selects airline B; every other string selects none |
| Booking.FlightId | oop.cpp:98-130 | the fixed flight id of an airline (A123, B456, used at lines 98, 105, 128 and 130) is the airline's selector letter followed by three digits |
| Booking.BookingMessage | oop.cpp:101-108 | the booking summary starts with its fixed head, holds the airline's name right after it, and ends with the booked flight id |
| Booking.RefundMessage | oop.cpp:126-131 | the refund message is empty exactly when the selector is neither "A" nor "B" (it is never assigned); otherwise it ends with the selected airline's trailer |
| Booking.Dispatch | oop.cpp:95-111 | a selected airline is one whose selector equals the choice exactly; no airline is selected when the choice is neither "A" nor "B" |
| Booking.ParseConfirmation | oop.cpp:124-139 | a yes or no is returned only for one of its exact spellings ("Да"/"да", "Нет"/"нет"); every other answer is unrecognised |
| Booking.BookingMessagesDiffer | oop.cpp:101-108 | the summaries of A and B differ |
| Booking.RefundUsesBookedFlight | oop.cpp:98-130 | the refund text reads back to the same airline and the same fixed id (A123/B456) that the booking used |
| Booking.BookingWithKnownAirline | oop.cpp:95-115 | a known selector gives one search line with the given cities, then one booking line with the fixed flight id, then one update call per registry entry, in order, carrying the booking summary |
| Booking.BookingDeliveries | oop.cpp:101-115 | during a booking each observer receives the summary as many times as it is registered |
| Booking.BookingWithUnknownAirline | oop.cpp:109-111 | any other selector writes only the invalid-choice line: no airline call and no notification |
| Booking.RefundConfirmed | oop.cpp:124-134 | "Да"/"да" with a known selector writes exactly the prompt, the refunding line and the refund text for the booked id, then one update call per registry entry, in order, carrying that text, and nothing else |
| Booking.RefundConfirmedUnknownAirline | oop.cpp:124-134 | "Да"/"да" with an unknown selector writes exactly the prompt, the refunding line and an empty line, then notifies every entry, in order, with the empty message |
| Booking.RefundDeclined | oop.cpp:135-136 | "Нет"/"нет" writes the prompt and the farewell line, and notifies nobody |
| Booking.RefundUnrecognised | oop.cpp:137-139 | any other answer writes the prompt and the invalid-input line, and notifies nobody |
| Airlines.SearchFlights | oop.cpp:39-57 | the search text starts with the airline's search lead, holds the departure city right after it, and ends with the destination city |
| Airlines.BookTicket | oop.cpp:43-61 | the booking text starts with its fixed head, holds the flight id right after it, and ends with " в " and the airline's name |
| Airlines.RefundTicket | oop.cpp:47-65 | the refund text starts with its fixed head, holds the ticket id right after it, and ends with " в " and the airline's name |
| Airlines.SearchRoundTrip | oop.cpp:39-57 | a search text reads back to its airline and both cities when the departure city has no space (as every console token does) |
| Airlines.SearchParseExact | oop.cpp:39-57 | only a search text reads back: a parse result rebuilds the text exactly |
| Airlines.SearchRouteAmbiguous | oop.cpp:39-57 | without that condition two different city pairs give the same search text |
| Airlines.BookingRoundTrip | oop.cpp:43-61 | a booking text reads back to its airline and flight id, for every id including the empty one |
| Airlines.BookingParseExact | oop.cpp:43-61 | only a booking text reads back: a parse result rebuilds the text exactly |
| Airlines.RefundRoundTrip | oop.cpp:47-65 | a refund text reads back to its airline and ticket id, for every id including the empty one |
| Airlines.RefundParseExact | oop.cpp:47-65 | only a refund text reads back: a parse result rebuilds the text exactly |
| Airlines.SearchVariantsDifferOnlyInLabel | oop.cpp:39-57 | the B search text is the A search text with the label letter 'A' replaced by 'B', and no other change |
| Airlines.BookVariantsDifferOnlyInLabel | oop.cpp:43-61 | the B booking text is the A booking text with the label letter replaced, and no other change |
| Airlines.RefundVariantsDifferOnlyInLabel | oop.cpp:47-65 | the B refund text is the A refund text with the label letter replaced, and no other change |

## Left out

- Console I/O: every `cout` write becomes an event in the trace. The `cin` reads in `refundTicket` and `main` become parameters holding the token read. Whitespace splitting by `cin >>` is not modelled; it appears only as the no-space condition in `SearchRoundTrip`.
- `srand(time(0))` in `main`: the seed is never used, and a clock is not modellable.
- The bodies of `UserObserver::update` and `LoggerObserver::update`: they only print the message with a prefix. Each call is recorded as an `Update` event, without the prefixed line.
- Object lifetime: raw `Observer*` ownership, virtual destructors and pointer validity. Observers are ids compared by equality.
- The `AirlineA`/`AirlineB` member objects of the facade: they hold no state, so an `AirlineId` value stands for each.
- The `Subject`, `Observer` and `Airline` interfaces: they declare operations only. Virtual dispatch over them is resolved statically in the model.
- Concurrency: the program has none.
- Character encoding: strings are sequences of Unicode characters, while the C++ compares `std::string` bytes. The model assumes the console tokens and the literals share one encoding, so that exact comparison agrees; positions in the text contracts (`|BookHead|`, the label index) count characters, not bytes.
