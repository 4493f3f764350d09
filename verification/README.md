# CodeBrew Airways admin console — a Dafny model

This project models the logic of the CodeBrew Airways React front end. The
rendering, the network and the clock are left out.

- **Admin tabs.** There are seven: Flights, Passengers, Airports, Airlines,
  Gates, Cities and Aircraft. Each holds:
  - a full list and its searched view;
  - the related lists its selects offer;
  - a form whose selects hold ids as strings (`""` for none);
  - the id being edited;
  - a message banner.

  Each tab is a `class` whose fields are that state. Its methods are the
  handlers: load, search, submit, start edit, reset, delete. Every method
  keeps the invariant `Valid()`: the displayed list is the search view of
  the full list, as the search effect re-derives it. Every method also
  states what becomes of each fetched list (`Data()`: the full list and the
  lists the selects offer): replaced by a successful reload, kept otherwise.
- **Home page board.** It covers:
  - the generated flight number, as airline code + first digit pair + id;
  - the 12-hour clock;
  - the search filter;
  - the fall-back to sample flights when the fetch fails, times out or
    returns nothing.
- **Flight page.** The flight-time text, the flight-number label, the
  placeholder for a missing date, and the defaults each card field falls
  back to.
- **REST client.** Each call is modelled as the request it issues: verb,
  path, body and query parameters. Paths are proved to route back to
  their target.
- **Session.** `login`/`logout`/`isAdmin` act on a `Storage` class that
  models `localStorage`. The header derives its admin flag from it, along
  with its active links, its dashboard link and its logout.

The backend's behaviour is passed in as parameters:
- `backendOk` says whether a create, update or delete succeeded;
- a reload is an `Option` of the fetched data, where `None` means the load
  failed;
- a passenger fetch is an `Option`;
- unbooking is an oracle `(flightId, passengerId) -> bool`.

Locale-dependent date rendering is passed in as a function parameter.

`Number(field)` on a select value is `Text.ToNumber`. A string of digits
reads as its value and anything else reads as 0. `ToNumber(NatToString(n))
== n` is proved, so an id written into a select by `startEdit` comes back
unchanged on submit. The `EditThenSubmit` lemmas rely on this: editing a
record and submitting the form unchanged updates that record and keeps its
relations.

The generated home-page flight number appends the flight id to make the
number unique. It is unique whenever the airline code holds no
digit (`HomePage.GeneratedNumbersUnique`). An airline name whose second
word starts with a digit breaks this: `HomePage.GeneratedNumbersCollide`
exhibits two different flights that both get "A1234".

## Model

| member | source | states |
|---|---|---|
| Text.Lower | src/components/adminTabs/FlightsAdmin.jsx:71 | `toLowerCase`: same length, each character lower-cased, no upper-case ASCII letter remains |
| Text.Upper | src/components/adminTabs/AirportsAdmin.jsx:114 | `toUpperCase`: same length, each character upper-cased, no lower-case ASCII letter remains |
| Text.LowerIdempotent | src/components/adminTabs/FlightsAdmin.jsx:71 | lower-casing twice is lower-casing once, so a lower-cased term is searched as typed |
| Text.ContainsLower | src/components/adminTabs/FlightsAdmin.jsx:81 | if `s` includes `t` then `s.toLowerCase()` includes `t.toLowerCase()` |
| Text.ContainsInfix | src/components/adminTabs/FlightsAdmin.jsx:78 | `includes` holds for every infix, in particular for the empty string (`Contains` models `includes`) |
| Text.TrimStart | src/components/adminTabs/AirportsAdmin.jsx:113 | drops exactly the leading white space: a suffix of the input, everything dropped is white space, and the result does not start with white space |
| Text.TrimEnd | src/components/adminTabs/AirportsAdmin.jsx:113 | drops exactly the trailing white space |
| Text.Trim | src/components/adminTabs/AirportsAdmin.jsx:113 | `trim`: no white space at either end, empty exactly when the input is blank, never longer |
| Text.TrimKeepsTrimmed | src/components/adminTabs/GatesAdmin.jsx:110 | trimming text whose ends are not white space changes nothing |
| Text.TrimIdempotent | src/components/adminTabs/FlightsAdmin.jsx:130 | trimming twice is trimming once |
| Text.NatToString | src/components/adminTabs/FlightsAdmin.jsx:78 | `id.toString()` is a non-empty string of digits |
| Text.ToNumberNatToString | src/components/adminTabs/AircraftAdmin.jsx:105-130 | `Number(n.toString()) == n`, the round trip between `startEdit` and submit (`ToNumber` models `Number` on digit strings) |
| Text.NatToStringInjective | src/components/adminTabs/FlightsAdmin.jsx:78 | different ids render differently |
| Text.Pad2 | src/pages/HomePage.jsx:31 | `padStart(2, "0")` of a number below 100 is two digits reading back as the number |
| Text.Split | src/pages/HomePage.jsx:43 | `split(" ")` gives at least one part and no part contains the separator |
| Text.JoinSplit | src/pages/HomePage.jsx:43 | joining the split parts with the separator gives the string back |
| Text.SplitJoin | src/pages/HomePage.jsx:43 | splitting a join of separator-free parts gives the parts back |
| ListView.Filter | src/components/adminTabs/FlightsAdmin.jsx:241-242 | `filter` never lengthens a list |
| ListView.FilterIsSubsequence | src/components/adminTabs/FlightsAdmin.jsx:241-242 | a filtered list keeps the remaining elements in their original order |
| ListView.FilterMembership | src/components/adminTabs/CitiesAdmin.jsx:171-173 | an element is in the filtered list exactly when it is in the list and kept |
| ListView.FilterLoop | src/components/adminTabs/FlightsAdmin.jsx:74-98 | the search effect's push loop computes `Filter` |
| ListView.First | src/components/adminTabs/FlightsAdmin.jsx:228 | `find`: none exactly when no element satisfies the test, otherwise an element that does |
| ListView.SearchViewSpec | src/components/adminTabs/FlightsAdmin.jsx:67-102 | the searched view is the full list for an empty term, otherwise the entries matching the lower-cased term, in order |
| ListView.SearchViewAfterRemoval | src/components/adminTabs/FlightsAdmin.jsx:241-242 | removing from the view and from the full list keeps the view equal to the search of the full list |
| ListView.Search | src/components/adminTabs/FlightsAdmin.jsx:67-102 | the search effect's result is `SearchView(all, term)` |
| Entities.SelectedIdRoundTrip | src/components/adminTabs/AirportsAdmin.jsx:133-139 | an id written into a select (`id.toString()` or `""`) is empty exactly for no id and reads back as the id |
| Entities.CodeInput | src/components/adminTabs/AirportsAdmin.jsx:236-246 | the code input keeps at most three characters (`maxLength="3"`), each upper-cased |
| Api.ParseResourceName | src/api/api.js:29-208 | each resource's path name reads back as that resource |
| Api.ParseTargetSegments | src/api/api.js:29-221 | the segments of every target read back as that target |
| Api.SegmentsHaveNoSlash | src/api/api.js:29-221 | no path segment contains `/` |
| Api.DigitsHaveNoSlash | src/api/api.js:38 | a rendered id contains no `/` |
| Api.CollectionPath | src/api/api.js:29-34 | a collection lives at `/{resource}` |
| Api.ItemPath | src/api/api.js:37-42 | an item lives at `/{resource}/{id}` |
| Api.BookingPath | src/api/api.js:212-218 | a booking is `/flights/{flightId}/passengers/{passengerId}` |
| Api.FlightPassengersPath | src/api/api.js:220-221 | a flight's passenger list is `/flights/{flightId}/passengers` |
| Api.ParseTargetPath | src/api/api.js:29-221 | every path the client builds parses back to the target it was built for (`TargetPath` builds the path) |
| Api.PathsAreDistinct | src/api/api.js:29-221 | different targets never share a path |
| Api.FetchAll | src/api/api.js:29-31 | a GET of the collection, with no body and no parameters |
| Api.GetFlightPassengers | src/api/api.js:220-222 | a GET of the flight's passenger list |
| Api.CreateCity | src/api/api.js:33-35 | a POST of the body to `/cities`, with no parameters |
| Api.UpdateCity | src/api/api.js:37-39 | a PUT of the body to the city, with no parameters |
| Api.DeleteCity | src/api/api.js:41-43 | a DELETE of the city |
| Api.CreatePassenger | src/api/api.js:51-63 | a POST carrying `city_id` and `flight_id` each exactly when given, with the given value (`WithOptional` adds the key only for a value) |
| Api.UpdatePassenger | src/api/api.js:65-73 | a PUT carrying `city_id` exactly when given (`WithOptional` adds the key only for a value) |
| Api.DeletePassenger | src/api/api.js:75-77 | a DELETE of the passenger |
| Api.CreateAirport | src/api/api.js:85-89 | a POST that always carries `city_id`, null or not |
| Api.UpdateAirport | src/api/api.js:91-99 | a PUT carrying `city_id` exactly when given (`WithOptional` adds the key only for a value) |
| Api.DeleteAirport | src/api/api.js:101-103 | a DELETE of the airport |
| Api.CreateGate | src/api/api.js:111-115 | a POST that always carries `airport_id` |
| Api.UpdateGate | src/api/api.js:117-125 | a PUT carrying `airport_id` exactly when given (`WithOptional` adds the key only for a value) |
| Api.DeleteGate | src/api/api.js:127-129 | a DELETE of the gate |
| Api.CreateAircraft | src/api/api.js:142-146 | a POST that always carries `airline_id` |
| Api.UpdateAircraft | src/api/api.js:148-156 | a PUT carrying `airline_id` exactly when given (`WithOptional` adds the key only for a value) |
| Api.DeleteAircraft | src/api/api.js:158-160 | a DELETE of the aircraft |
| Api.CreateAirline | src/api/api.js:168-176 | a POST carrying `city_id` exactly when given (`WithOptional` adds the key only for a value) |
| Api.UpdateAirline | src/api/api.js:178-186 | a PUT carrying `city_id` exactly when given (`WithOptional` adds the key only for a value) |
| Api.DeleteAirline | src/api/api.js:188-190 | a DELETE of the airline |
| Api.CreateFlight | src/api/api.js:198-200 | a POST of the body with the caller's parameters |
| Api.UpdateFlight | src/api/api.js:202-204 | a PUT of the body with the caller's parameters |
| Api.DeleteFlight | src/api/api.js:206-208 | a DELETE of the flight |
| Api.AddPassengerToFlight | src/api/api.js:212-214 | a POST to the booking path |
| Api.RemovePassengerFromFlight | src/api/api.js:216-218 | a DELETE of the booking path |
| Auth.Storage.constructor | src/services/auth.js:6 | storage starts with the given items |
| Auth.Storage.GetItem | src/services/auth.js:14 | `getItem`: present exactly for a stored key, with its value |
| Auth.Storage.SetItem | src/services/auth.js:6 | `setItem` stores the value under the key and changes nothing else |
| Auth.Storage.RemoveItem | src/services/auth.js:12 | `removeItem` drops the key and changes nothing else |
| Auth.LoginGrantsAdmin | src/services/auth.js:4-8 | logging in with the admin password makes the session an admin one |
| Auth.WrongPasswordChangesNothing | src/services/auth.js:4-10 | any other password leaves storage, and so the admin flag, unchanged |
| Auth.LogoutRevokesAdmin | src/services/auth.js:12 | after logout the session is not an admin one and every other key is kept |
| Auth.LogoutIdempotent | src/services/auth.js:12 | logging out twice is logging out once |
| Auth.Login | src/services/auth.js:4-10 | returns true exactly for the admin password; storage becomes `AfterLogin` of the old storage (`AfterLogin`, whose meaning `LoginGrantsAdmin` and `WrongPasswordChangesNothing` state) |
| Auth.Logout | src/services/auth.js:12 | storage becomes `AfterLogout` of the old storage (`AfterLogout`, whose meaning `LogoutRevokesAdmin` and `LogoutIdempotent` state) |
| Auth.IsAdmin | src/services/auth.js:14 | true exactly when `isAdmin` is stored as "true" |
| Header.AdminFlag | src/components/Header.jsx:8-13 | the header's flag is true exactly when the stored value is "true" |
| Header.AdminFlagAgreesWithAuth | src/components/Header.jsx:8-13 | the header's flag equals `isAdmin()` for every storage |
| Header.IsActive | src/components/Header.jsx:15-29 | "/" is active only on "/"; any other path is active on every pathname it prefixes (`StartsWith` models `startsWith`) |
| Header.ActiveBelow | src/components/Header.jsx:23-27 | a non-root path stays active on every pathname below it |
| Header.AdminActiveOnDashboard | src/components/Header.jsx:67-70 | on the admin dashboard the Admin link is active and Home is not |
| Header.NavItems | src/components/Header.jsx:36-130 | exactly five entries in order: Home, the dashboard link (`DashboardPath`/`DashboardText`: admin or user, by mode), About Us, Contact Us, then Logout for an admin or the Admin link otherwise; every link's active flag is `IsActive` |
| Header.HandleLogout | src/components/Header.jsx:31-34 | removes the admin key, navigates to "/", and the flag is false afterwards |
| HomePage.FirstLetter | src/pages/HomePage.jsx:44 | `charAt(0).toUpperCase()`: at most one character, the upper-cased first one when there is one |
| HomePage.AirlineCode | src/pages/HomePage.jsx:43-49 | at most two characters, none a lower-case letter |
| HomePage.AirlineCodeOneWord | src/pages/HomePage.jsx:47-48 | a one-word name gives its first two letters upper-cased |
| HomePage.AirlineCodeTwoWords | src/pages/HomePage.jsx:45-46 | a name of two or more words gives the first letters of the first two words |
| HomePage.AirlineCodeOneLetter | src/pages/HomePage.jsx:42-47 | a one-letter name gives that letter alone, upper-cased |
| HomePage.AirlineCodeEmptySecondWord | src/pages/HomePage.jsx:42-45 | a first word followed by an empty second word (a trailing space or a double space) gives only the first initial |
| HomePage.FirstDigitPair | src/pages/HomePage.jsx:52 | `/\d{2}/`: no match exactly when no two adjacent digits exist, otherwise the leftmost pair |
| HomePage.NumberPart | src/pages/HomePage.jsx:52-53 | always two digits: the first digit pair, or "00" |
| HomePage.GenerateFlightNumber | src/pages/HomePage.jsx:41-57 | the number is the airline code followed by digits only: the number part's two digits, then digits reading back as the flight id |
| HomePage.GeneratedNumberLayout | src/pages/HomePage.jsx:41-57 | for a digit-free code the number starts with the code's non-digit characters, then a digit, and what follows the two-digit part reads back as the id |
| HomePage.GeneratedNumbersUnique | src/pages/HomePage.jsx:55-56 | with digit-free airline codes, equal generated numbers mean equal ids |
| HomePage.GeneratedNumbersCollide | src/pages/HomePage.jsx:55-56 | two flights with ids 4 and 34 both get "A1234" |
| HomePage.Hour12 | src/pages/HomePage.jsx:30-35 | the 12-hour hour lies in 1..12 and agrees with the 24-hour hour modulo 12 |
| HomePage.Hour12RoundTrip | src/pages/HomePage.jsx:32-35 | the 12-hour hour together with AM/PM gives the 24-hour hour back |
| HomePage.ClockText | src/pages/HomePage.jsx:36 | "h:mm AM" is 7 or 8 characters |
| HomePage.ClockTextRoundTrip | src/pages/HomePage.jsx:30-36 | the rendered time reads back as the hour and minutes (`ReadsAsClock`): hour digits in 1..12, ':', exactly two minute digits, a space, then "AM" or "PM"; the suffix and the hour give back the 24-hour hour, and the choice is `Meridiem` |
| HomePage.FormatDateTime | src/pages/HomePage.jsx:25-39 | the date part is the locale rendering; the time part is `ClockText` of the local clock, 7 or 8 characters, and reads back as that clock (`ReadsAsClock`) |
| HomePage.GetFilteredFlights | src/pages/HomePage.jsx:118-144 | nothing before data arrives; otherwise the flights matching the lower-cased term on airline, generated number, destination or origin by board, status, date or time, in order (the rule is `BoardMatches`; `Place` is the destination of a departure, the origin of an arrival) |
| HomePage.EmptySearchShowsAll | src/pages/HomePage.jsx:118-144 | an empty search shows every flight |
| HomePage.SampleFlights | src/pages/HomePage.jsx:12-23 | three sample flights for each board |
| HomePage.AfterFetch | src/pages/HomePage.jsx:63-104 | the board is never empty; error exactly when the fetch failed or timed out; received non-empty data is shown; anything else shows the samples |
| FlightPage.DurationTextRoundTrip | src/pages/Flight.jsx:36-39 | "Hh MMm" reads back as the minutes: the hours' digits, then two minute digits below 60 (`DurationText` renders it) |
| FlightPage.ComputeDuration | src/pages/Flight.jsx:28-40 | "—" exactly when a time is missing or the arrival is not after the departure; otherwise the whole minutes between them, starting with a digit |
| FlightPage.DurationWithinInterval | src/pages/Flight.jsx:36-38 | the shown hours and minutes never exceed the real interval and miss less than a minute |
| FlightPage.FlightNumberLabel | src/pages/Flight.jsx:82-84 | the airline code upper-cased and the id; "Error" and the id when the code is missing or empty |
| FlightPage.FlightNumberEndsWithId | src/pages/Flight.jsx:82-84 | the label always ends with the flight id |
| FlightPage.FormatFullDate | src/pages/Flight.jsx:13-25 | a missing or empty date renders as "—" in all three parts, any other is formatted |
| FlightPage.CardOf | src/pages/Flight.jsx:90-146 | each field shows its stored value when present and non-empty, otherwise "Unknown Airline", "?", "-", "Unknown" or "Scheduled"; no shown field is empty |
| FlightsAdmin.SearchSpec | src/components/adminTabs/FlightsAdmin.jsx:67-102 | the view is the full list for an empty term, otherwise the flights matching id, airport codes, status, aircraft type or airline name, in order (the rule is `FlightsAdmin.Matches`) |
| FlightsAdmin.StatusOrScheduled | src/components/adminTabs/FlightsAdmin.jsx:130 | the sent status is never empty and never padded: "Scheduled" for a blank status, the trimmed status otherwise |
| FlightsAdmin.NonEmpty | src/components/adminTabs/FlightsAdmin.jsx:131-132 | `value \|\| null`: null exactly for "" |
| FlightsAdmin.FlightPayload | src/components/adminTabs/FlightsAdmin.jsx:129-133 | the body carries the status or "Scheduled", and each time or null |
| FlightsAdmin.ParamKey | src/components/adminTabs/FlightsAdmin.jsx:136-141 | each relation has its own parameter key |
| FlightsAdmin.AddIfChosenStep | src/components/adminTabs/FlightsAdmin.jsx:135-141 | checking one more select keeps the parameters faithful to the selects checked so far |
| FlightsAdmin.ParamsFor | src/components/adminTabs/FlightsAdmin.jsx:135-141 | the parameters for the checked selects: only their keys, each present exactly when its select is filled, carrying `Number` of it |
| FlightsAdmin.FlightParams | src/components/adminTabs/FlightsAdmin.jsx:135-141 | over all six selects: a key exactly for each filled select, with its number, and no other key |
| FlightsAdmin.SubmitRequest | src/components/adminTabs/FlightsAdmin.jsx:143-152 | an update of the edited flight or a create, with the payload and the parameters |
| FlightsAdmin.Slice | src/components/adminTabs/FlightsAdmin.jsx:168-169 | `slice(0, n)`: the first n characters, or the whole of a shorter string |
| FlightsAdmin.EditForm | src/components/adminTabs/FlightsAdmin.jsx:159-170 | each select is empty exactly when the relation is missing; the status is copied or ""; each time is cut to its first 16 characters or is "" |
| FlightsAdmin.EditFormSelects | src/components/adminTabs/FlightsAdmin.jsx:161-166 | each select holds its relation's id as written by `toString` |
| FlightsAdmin.EditThenSubmit | src/components/adminTabs/FlightsAdmin.jsx:121-170 | editing a flight and submitting unchanged updates that flight, sending exactly the relations it has, with their ids |
| FlightsAdmin.GatesAt | src/components/adminTabs/FlightsAdmin.jsx:273-287 | the gates offered: none before an airport is chosen, then exactly the gates at it, in order |
| FlightsAdmin.AircraftOf | src/components/adminTabs/FlightsAdmin.jsx:289-295 | the aircraft offered: none before an airline is chosen, then exactly its aircraft, in order |
| FlightsAdmin.RemovalSpec | src/components/adminTabs/FlightsAdmin.jsx:241-242 | the delete keeps exactly the flights with another id, in order |
| FlightsAdmin.FlightsTab.constructor | src/components/adminTabs/FlightsAdmin.jsx:15-39 | empty lists, empty form, nothing edited, no message |
| FlightsAdmin.FlightsTab.Load | src/components/adminTabs/FlightsAdmin.jsx:45-65 | every fetched list (`Data()`: the full list and the select lists) replaced on success; all kept on failure, with the load error shown |
| FlightsAdmin.FlightsTab.SetSearchTerm | src/components/adminTabs/FlightsAdmin.jsx:67-102 | the view becomes the search of the full list for the new term |
| FlightsAdmin.FlightsTab.Submit | src/components/adminTabs/FlightsAdmin.jsx:121-157 | nothing is sent without both airports, and every list is kept; otherwise `SubmitRequest` is sent; success resets the form, announces it and installs every reloaded list (`Data() == reload.value`), or keeps every list and shows the load error when the reload fails; failure keeps the form and every list |
| FlightsAdmin.FlightsTab.Settle | src/components/adminTabs/FlightsAdmin.jsx:143-156 | success resets the form, shows the notice and installs every reloaded list, or keeps them all when the reload fails; failure keeps the form and every list |
| FlightsAdmin.FlightsTab.StartEdit | src/components/adminTabs/FlightsAdmin.jsx:159-171 | the form becomes `EditForm` of the flight and it is being edited; every fetched list and the view are kept |
| FlightsAdmin.FlightsTab.ResetForm | src/components/adminTabs/FlightsAdmin.jsx:210-225 | an empty form, nothing edited, no message; every fetched list and the view are kept |
| FlightsAdmin.FlightsTab.ChooseDepartureAirport | src/components/adminTabs/FlightsAdmin.jsx:310-311 | choosing a departure airport clears the departure gate; every fetched list, the view, the edited id and the message are kept |
| FlightsAdmin.FlightsTab.ChooseArrivalAirport | src/components/adminTabs/FlightsAdmin.jsx:349-350 | choosing an arrival airport clears the arrival gate; every fetched list, the view, the edited id and the message are kept |
| FlightsAdmin.FlightsTab.ChooseAirline | src/components/adminTabs/FlightsAdmin.jsx:387-388 | choosing an airline clears the aircraft; every fetched list, the view, the edited id and the message are kept |
| FlightsAdmin.FlightsTab.Delete | src/components/adminTabs/FlightsAdmin.jsx:227-250 | nothing happens for a flight not displayed; a flight with passengers is refused; otherwise the delete goes out and, on success, that id leaves the full and the displayed list while every select list is kept; every other path keeps all lists |
| PassengersAdmin.SearchSpec | src/components/adminTabs/PassengersAdmin.jsx:55-87 | the view is the full list for an empty term, otherwise the passengers matching id, full name, phone, city or a booked flight, in order (the rule is `PassengersAdmin.Matches`) |
| PassengersAdmin.AnyFlightMatches | src/components/adminTabs/PassengersAdmin.jsx:73-80 | the inner loop finds a match exactly when some booked flight matches |
| PassengersAdmin.PassengerMatches | src/components/adminTabs/PassengersAdmin.jsx:64-82 | the loop's flag equals the search rule |
| PassengersAdmin.SearchPassengers | src/components/adminTabs/PassengersAdmin.jsx:55-87 | the search effect's result is the search view |
| PassengersAdmin.Rejection | src/components/adminTabs/PassengersAdmin.jsx:101-109 | a submit goes out exactly when a city is chosen and, for a new passenger, a flight; a missing city is reported first |
| PassengersAdmin.PassengerPayload | src/components/adminTabs/PassengersAdmin.jsx:111-115 | names trimmed; a blank phone becomes null, any other is trimmed |
| PassengersAdmin.SubmitRequest | src/components/adminTabs/PassengersAdmin.jsx:117-126 | an update carrying `city_id`, or a create carrying `city_id` and `flight_id` |
| PassengersAdmin.EditForm | src/components/adminTabs/PassengersAdmin.jsx:136-143 | names and phone copied, the city as its id string, the flight cleared |
| PassengersAdmin.EditThenSubmit | src/components/adminTabs/PassengersAdmin.jsx:98-143 | an edited passenger without a city is refused; otherwise the update keeps its city |
| PassengersAdmin.UnbookRequests | src/components/adminTabs/PassengersAdmin.jsx:182-185 | one removal per booked flight, in booking order |
| PassengersAdmin.UnbookAll | src/components/adminTabs/PassengersAdmin.jsx:180-190 | issues every removal, and the success flag holds exactly when all of them succeeded |
| PassengersAdmin.BookedFlightLabel | src/components/adminTabs/PassengersAdmin.jsx:348-354 | "Not booked" exactly when there is no booked flight; otherwise "FROM To TO" for the first flight, each end its airport's code or "?" without one (`EndpointCode`) |
| PassengersAdmin.NoDeleteAmongUnbooking | src/components/adminTabs/PassengersAdmin.jsx:182-198 | the unbooking calls never include the passenger delete |
| PassengersAdmin.PassengersTab.constructor | src/components/adminTabs/PassengersAdmin.jsx:14-31 | empty lists, empty form, nothing edited, no message |
| PassengersAdmin.PassengersTab.Load | src/components/adminTabs/PassengersAdmin.jsx:37-53 | every fetched list (`Data()`: the full list and the select lists) replaced on success; all kept on failure, with the load error shown |
| PassengersAdmin.PassengersTab.SetSearchTerm | src/components/adminTabs/PassengersAdmin.jsx:55-87 | the view becomes the search of the full list |
| PassengersAdmin.PassengersTab.Submit | src/components/adminTabs/PassengersAdmin.jsx:98-134 | a rejected form (`Rejection`) sends nothing, keeps every list and shows why; otherwise `SubmitRequest` is sent; success resets the form, announces it and installs every reloaded list (`Data() == reload.value`), or keeps every list and shows the load error when the reload fails; failure keeps the form and every list (the notice is `SuccessMessage`: "Updated: " or "Added & booked: ", then the trimmed first and last names) |
| PassengersAdmin.PassengersTab.Settle | src/components/adminTabs/PassengersAdmin.jsx:120-133 | success resets the form, shows the notice and installs every reloaded list, or keeps them all when the reload fails; failure keeps the form and every list |
| PassengersAdmin.PassengersTab.StartEdit | src/components/adminTabs/PassengersAdmin.jsx:136-168 | the form becomes `EditForm` of the passenger and it is being edited; every fetched list and the view are kept |
| PassengersAdmin.PassengersTab.ResetForm | src/components/adminTabs/PassengersAdmin.jsx:170-175 | an empty form, nothing edited, no message; every fetched list and the view are kept |
| PassengersAdmin.PassengersTab.Delete | src/components/adminTabs/PassengersAdmin.jsx:177-204 | a displayed passenger's flights are unbooked first; if any removal fails nothing is deleted and every list is kept; otherwise the delete goes out, success installs every reloaded list and failure keeps them all |
| AirportsAdmin.SearchSpec | src/components/adminTabs/AirportsAdmin.jsx:48-85 | the view is the full list for an empty term, otherwise the airports matching id, name, code or city, in order (the rule is `AirportsAdmin.Matches`) |
| AirportsAdmin.AirportPayload | src/components/adminTabs/AirportsAdmin.jsx:112-115 | the name trimmed; the code trimmed and upper-cased |
| AirportsAdmin.SubmitRequest | src/components/adminTabs/AirportsAdmin.jsx:117-126 | an update or a create, always carrying the chosen city's number |
| AirportsAdmin.EditForm | src/components/adminTabs/AirportsAdmin.jsx:133-139 | name and code copied; the city select is empty exactly without a city and reads back as its id |
| AirportsAdmin.EditThenSubmit | src/components/adminTabs/AirportsAdmin.jsx:104-139 | an edited airport without a city is refused; otherwise the update keeps its city |
| AirportsAdmin.TypedCodeSent | src/components/adminTabs/AirportsAdmin.jsx:236-246 | a typed code reaches the backend with at most three characters and no lower-case letter |
| AirportsAdmin.AirportsTab.constructor | src/components/adminTabs/AirportsAdmin.jsx:12-26 | empty lists, empty form, nothing edited, no message |
| AirportsAdmin.AirportsTab.Load | src/components/adminTabs/AirportsAdmin.jsx:32-46 | every fetched list (`Data()`: the full list and the select lists) replaced on success; all kept on failure, with the load error shown |
| AirportsAdmin.AirportsTab.SetSearchTerm | src/components/adminTabs/AirportsAdmin.jsx:48-85 | the view becomes the search of the full list |
| AirportsAdmin.AirportsTab.TypeCode | src/components/adminTabs/AirportsAdmin.jsx:236-246 | the form's code becomes the upper-cased input, cut to three characters |
| AirportsAdmin.AirportsTab.Submit | src/components/adminTabs/AirportsAdmin.jsx:104-131 | nothing is sent without a city, and every list is kept; otherwise `SubmitRequest` is sent; success resets the form, announces it and installs every reloaded list (`Data() == reload.value`), or keeps every list and shows the load error when the reload fails; failure keeps the form and every list (the notice is `SuccessMessage`: "Successfully updated/added ...: " and the trimmed name) |
| AirportsAdmin.AirportsTab.Settle | src/components/adminTabs/AirportsAdmin.jsx:117-130 | success resets the form, shows the notice and installs every reloaded list, or keeps them all when the reload fails; failure keeps the form and every list |
| AirportsAdmin.AirportsTab.StartEdit | src/components/adminTabs/AirportsAdmin.jsx:133-139 | the form becomes `EditForm` of the airport and it is being edited; every fetched list and the view are kept |
| AirportsAdmin.AirportsTab.ResetForm | src/components/adminTabs/AirportsAdmin.jsx:175-180 | an empty form, nothing edited, no message; every fetched list and the view are kept |
| AirportsAdmin.AirportsTab.Delete | src/components/adminTabs/AirportsAdmin.jsx:182-190 | the delete goes out; success installs every reloaded list (all kept when the reload fails); failure keeps every list and shows the error |
| AirlinesAdmin.SearchSpec | src/components/adminTabs/AirlinesAdmin.jsx:48-77 | the view is the full list for an empty term, otherwise the airlines matching id, name, code or city, in order (the rule is `AirlinesAdmin.Matches`) |
| AirlinesAdmin.AirlinePayload | src/components/adminTabs/AirlinesAdmin.jsx:99-102 | the name trimmed; the code trimmed and upper-cased |
| AirlinesAdmin.ChosenCity | src/components/adminTabs/AirlinesAdmin.jsx:104-107 | no city exactly when the select is empty, otherwise its number |
| AirlinesAdmin.SubmitRequest | src/components/adminTabs/AirlinesAdmin.jsx:109-118 | an update or a create, carrying `city_id` exactly when a city is chosen |
| AirlinesAdmin.EditForm | src/components/adminTabs/AirlinesAdmin.jsx:125-131 | a missing name or code becomes ""; the city select is empty exactly without a city and reads back as its id |
| AirlinesAdmin.EditThenSubmit | src/components/adminTabs/AirlinesAdmin.jsx:96-131 | editing and submitting unchanged updates that airline, sending `city_id` exactly when it has a city |
| AirlinesAdmin.TypedCodeSent | src/components/adminTabs/AirlinesAdmin.jsx:229-239 | a typed code reaches the backend with at most three characters and no lower-case letter |
| AirlinesAdmin.AirlinesTab.constructor | src/components/adminTabs/AirlinesAdmin.jsx:12-26 | empty lists, empty form, nothing edited, no message |
| AirlinesAdmin.AirlinesTab.Load | src/components/adminTabs/AirlinesAdmin.jsx:32-46 | every fetched list (`Data()`: the full list and the select lists) replaced on success; all kept on failure, with the load error shown |
| AirlinesAdmin.AirlinesTab.SetSearchTerm | src/components/adminTabs/AirlinesAdmin.jsx:48-77 | the view becomes the search of the full list |
| AirlinesAdmin.AirlinesTab.TypeCode | src/components/adminTabs/AirlinesAdmin.jsx:229-239 | the form's code becomes the upper-cased input, cut to three characters |
| AirlinesAdmin.AirlinesTab.Submit | src/components/adminTabs/AirlinesAdmin.jsx:96-123 | `SubmitRequest` is always sent; success resets the form, announces it and installs every reloaded list (`Data() == reload.value`), or keeps every list and shows the load error when the reload fails; failure keeps the form and every list (the notice is `SuccessMessage`: "Successfully updated/added ...: " and the trimmed name) |
| AirlinesAdmin.AirlinesTab.Settle | src/components/adminTabs/AirlinesAdmin.jsx:109-122 | success resets the form, shows the notice and installs every reloaded list, or keeps them all when the reload fails; failure keeps the form and every list |
| AirlinesAdmin.AirlinesTab.StartEdit | src/components/adminTabs/AirlinesAdmin.jsx:125-131 | the form becomes `EditForm` of the airline and it is being edited; every fetched list and the view are kept |
| AirlinesAdmin.AirlinesTab.ResetForm | src/components/adminTabs/AirlinesAdmin.jsx:167-172 | an empty form, nothing edited, no message; every fetched list and the view are kept |
| AirlinesAdmin.AirlinesTab.Delete | src/components/adminTabs/AirlinesAdmin.jsx:174-182 | the delete goes out; success installs every reloaded list (all kept when the reload fails); failure keeps every list and shows the error |
| GatesAdmin.SearchSpec | src/components/adminTabs/GatesAdmin.jsx:48-82 | the view is the full list for an empty term, otherwise the gates matching id, number, status or airport, in order (the rule is `GatesAdmin.Matches`) |
| GatesAdmin.GatePayload | src/components/adminTabs/GatesAdmin.jsx:109-112 | the number trimmed; the status null exactly when blank, otherwise trimmed and non-empty |
| GatesAdmin.SubmitRequest | src/components/adminTabs/GatesAdmin.jsx:114-123 | an update or a create, always carrying the chosen airport's number |
| GatesAdmin.EditForm | src/components/adminTabs/GatesAdmin.jsx:130-136 | a missing number or status becomes ""; the airport select is empty exactly without an airport and reads back as its id |
| GatesAdmin.EditThenSubmit | src/components/adminTabs/GatesAdmin.jsx:101-136 | an edited gate without an airport is refused; otherwise the update keeps its airport, a trimmed number and status come back unchanged, and a missing or empty status stays null |
| GatesAdmin.GatesTab.constructor | src/components/adminTabs/GatesAdmin.jsx:12-26 | empty lists, empty form, nothing edited, no message |
| GatesAdmin.GatesTab.Load | src/components/adminTabs/GatesAdmin.jsx:32-46 | every fetched list (`Data()`: the full list and the select lists) replaced on success; all kept on failure, with the load error shown |
| GatesAdmin.GatesTab.SetSearchTerm | src/components/adminTabs/GatesAdmin.jsx:48-82 | the view becomes the search of the full list |
| GatesAdmin.GatesTab.Submit | src/components/adminTabs/GatesAdmin.jsx:101-128 | nothing is sent without an airport, and every list is kept; otherwise `SubmitRequest` is sent; success resets the form, announces it and installs every reloaded list (`Data() == reload.value`), or keeps every list and shows the load error when the reload fails; failure keeps the form and every list (the notice is `SuccessMessage`: "Successfully updated/added ...: " and the trimmed name) |
| GatesAdmin.GatesTab.Settle | src/components/adminTabs/GatesAdmin.jsx:114-127 | success resets the form, shows the notice and installs every reloaded list, or keeps them all when the reload fails; failure keeps the form and every list |
| GatesAdmin.GatesTab.StartEdit | src/components/adminTabs/GatesAdmin.jsx:130-136 | the form becomes `EditForm` of the gate and it is being edited; every fetched list and the view are kept |
| GatesAdmin.GatesTab.ResetForm | src/components/adminTabs/GatesAdmin.jsx:174-179 | an empty form, nothing edited, no message; every fetched list and the view are kept |
| GatesAdmin.GatesTab.Delete | src/components/adminTabs/GatesAdmin.jsx:181-189 | the delete goes out; success installs every reloaded list (all kept when the reload fails); failure keeps every list and shows the error |
| CitiesAdmin.SearchSpec | src/components/adminTabs/CitiesAdmin.jsx:43-65 | the view is the full list for an empty term, otherwise the cities matching id, name, province or population, in order (the rule is `CitiesAdmin.Matches`) |
| CitiesAdmin.CityPayload | src/components/adminTabs/CitiesAdmin.jsx:87-91 | name and province trimmed; the population is a digit string's value, anything else 0 (see Left out: Text.ToNumber) |
| CitiesAdmin.SubmitRequest | src/components/adminTabs/CitiesAdmin.jsx:93-104 | an update or a create with the payload and no parameters |
| CitiesAdmin.EditForm | src/components/adminTabs/CitiesAdmin.jsx:110-116 | the name copied, a missing province as "", the population as digits reading back as it |
| CitiesAdmin.EditThenSubmit | src/components/adminTabs/CitiesAdmin.jsx:84-116 | editing and submitting unchanged updates that city with its population; a missing province is sent as "" |
| CitiesAdmin.AttachedTo | src/components/adminTabs/CitiesAdmin.jsx:167-177 | the linked-passenger reason is listed exactly when the passenger fetch succeeded and some passenger lives in the city (`LivesIn`) |
| CitiesAdmin.DeleteFailureMessage | src/components/adminTabs/CitiesAdmin.jsx:167-184 | names the city and says "one or more other feilds" exactly when a fetched passenger lives there, "related records" otherwise (`JoinAnd` joins the reasons) |
| CitiesAdmin.DeleteFailureMessagesDiffer | src/components/adminTabs/CitiesAdmin.jsx:179-184 | the message with the fetched passengers equals the one without exactly when none of them lives in the city |
| CitiesAdmin.CitiesTab.constructor | src/components/adminTabs/CitiesAdmin.jsx:12-25 | an empty list, empty form, nothing edited, no message |
| CitiesAdmin.CitiesTab.Load | src/components/adminTabs/CitiesAdmin.jsx:31-41 | the list replaced on success; kept on failure, with the load error shown |
| CitiesAdmin.CitiesTab.SetSearchTerm | src/components/adminTabs/CitiesAdmin.jsx:43-65 | the view becomes the search of the full list |
| CitiesAdmin.CitiesTab.Submit | src/components/adminTabs/CitiesAdmin.jsx:84-108 | `SubmitRequest` is always sent; success resets, announces and reloads, failure keeps the form (the notice is `SuccessMessage`: "Successfully updated/added city: " and the trimmed name) |
| CitiesAdmin.CitiesTab.StartEdit | src/components/adminTabs/CitiesAdmin.jsx:110-116 | the form becomes `EditForm` of the city and it is being edited |
| CitiesAdmin.CitiesTab.ResetForm | src/components/adminTabs/CitiesAdmin.jsx:149-154 | an empty form, nothing edited, no message |
| CitiesAdmin.CitiesTab.Delete | src/components/adminTabs/CitiesAdmin.jsx:156-188 | the city is named from the full list; success announces and reloads; failure also fetches the passengers and shows `DeleteFailureMessage` (`CityName`: the found name or "Unknown city") |
| AircraftAdmin.SearchSpec | src/components/adminTabs/AircraftAdmin.jsx:53-76 | the view is the full list for an empty term, otherwise the aircraft matching id, type, seats or airline, in order (the rule is `AircraftAdmin.Matches`) |
| AircraftAdmin.AircraftPayload | src/components/adminTabs/AircraftAdmin.jsx:103-106 | the type trimmed; the seat count is a digit string's value, anything else 0 (see Left out: Text.ToNumber) |
| AircraftAdmin.SubmitRequest | src/components/adminTabs/AircraftAdmin.jsx:108-119 | an update or a create, always carrying the chosen airline's number |
| AircraftAdmin.EditForm | src/components/adminTabs/AircraftAdmin.jsx:126-132 | a missing type becomes ""; the seats as digits reading back as the count; the airline select reads back as its id |
| AircraftAdmin.EditThenSubmit | src/components/adminTabs/AircraftAdmin.jsx:95-132 | an edited aircraft without an airline is refused; otherwise the update keeps its airline and seat count |
| AircraftAdmin.AircraftTab.constructor | src/components/adminTabs/AircraftAdmin.jsx:14-29 | empty lists, empty form, nothing edited, no message |
| AircraftAdmin.AircraftTab.Load | src/components/adminTabs/AircraftAdmin.jsx:35-51 | every fetched list (`Data()`: the full list and the select lists) replaced on success; all kept on failure, with the load error shown |
| AircraftAdmin.AircraftTab.SetSearchTerm | src/components/adminTabs/AircraftAdmin.jsx:53-76 | the view becomes the search of the full list |
| AircraftAdmin.AircraftTab.Submit | src/components/adminTabs/AircraftAdmin.jsx:95-124 | nothing is sent without an airline, and every list is kept; otherwise `SubmitRequest` is sent; success resets the form, announces it and installs every reloaded list (`Data() == reload.value`), or keeps every list and shows the load error when the reload fails; failure keeps the form and every list (the notice is `SuccessMessage`: "Successfully updated/added ...: " and the trimmed name) |
| AircraftAdmin.AircraftTab.Settle | src/components/adminTabs/AircraftAdmin.jsx:110-123 | success resets the form, shows the notice and installs every reloaded list, or keeps them all when the reload fails; failure keeps the form and every list |
| AircraftAdmin.AircraftTab.StartEdit | src/components/adminTabs/AircraftAdmin.jsx:126-132 | the form becomes `EditForm` of the aircraft and it is being edited; every fetched list and the view are kept |
| AircraftAdmin.AircraftTab.ResetForm | src/components/adminTabs/AircraftAdmin.jsx:153-158 | an empty form, nothing edited, no message; every fetched list and the view are kept |
| AircraftAdmin.AircraftTab.Delete | src/components/adminTabs/AircraftAdmin.jsx:160-168 | the delete goes out; success installs every reloaded list (all kept when the reload fails); failure keeps every list and shows the error |

## Left out

- Network, promises and `async`/`await` are replaced by the outcome parameters described above, so interleavings of concurrent handlers are not modelled.
- Message durations: `showMessage`'s `setTimeout` clearing and `scrollIntoView`/`scrollTo` are not modelled; the banner keeps the last message.
- The `loading` flag and its "Loading ..." screens are not modelled.
- Rendering: JSX markup, CSS classes, form titles, button texts and empty-list texts are not modelled. The editing notice `startEdit` shows is modelled only as "editing record {id}".
- Plain text inputs (name, phone, status, times, search box) are direct assignments of the typed text and are not modelled as separate operations. The code inputs and the three flight selects that clear a dependent field are modelled.
- Text.ToNumber: models `Number(...)` only on strings of ASCII digits, as the selects and `toString` produce them; JavaScript's reading of signs, blanks, decimals, exponents and `NaN` for other text is not modelled (any such text reads as 0).
- Text.NatToString: ids, populations and seat counts are unbounded naturals; JavaScript numbers are doubles, so the rounding of `Number(...)` on digit strings above 2^53 and the exponent notation `toString()` gives from 1e21 up (for example "1e+21") are not modelled, and the id and population digit searches assume plain digits.
- Text.Lower, Text.Upper: case mapping covers ASCII letters only; full Unicode case mapping is not modelled.
- HomePage.FormatDateTime: `new Date`, the local time zone and `toLocaleDateString` are passed in as functions; date parsing is not modelled.
- FlightPage.ComputeDuration: both times arrive already parsed to milliseconds (`None` for a missing one); `new Date` on a present but unparseable string yields NaN, for which the source renders "NaNh NaNm", and that output is not modelled.
- FlightPage.FormatFullDate: the `en-US` long date and time-zone rendering are passed in as a function; only the placeholder for a missing date is modelled.
- Flight.jsx's fetch of one flight (lines 42-60) and the "Flight not found." screen are not modelled.
- FlightPage.CardOf: the airport line, name or city or "Unknown Airport" plus the country (Flight.jsx lines 99-102 and 120-123), is not modelled, because `city` is a nested object there.
- HomePage: the request URL with its twelve-month window (lines 76-82) depends on the clock and is not modelled; `getButtonClass` is presentation.
- The public lookups in api.js (lines 11-25) and the duplicate `fetchAircrafts` (lines 138-140) are not used by the modelled handlers and are not modelled.
- The passenger form's flight list and the gate/aircraft option labels are presentation and are not modelled.
- The HTML `required` attributes on the inputs are browser behaviour and are not modelled; only the handlers' own checks are.
