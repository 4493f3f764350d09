/**
 * The Passengers admin tab: the passenger list and its searched view, the
 * cities and flights the selects offer, the passenger form, the edited
 * passenger's id and the message banner. Creating a passenger books it on
 * the chosen flight; deleting one first unbooks it from every flight.
 */
module PassengersAdmin {
  import opened Opt
  import opened Text
  import opened ListView
  import opened Entities
  import Api

  datatype Form = Form(firstName: string, lastName: string, phone: string, cityId: string, flightId: string)

  const EmptyForm := Form("", "", "", "", "")

  datatype TabData = TabData(passengers: seq<Passenger>, cities: seq<City>, flights: seq<Flight>)

  const LoadFailed := "Failed to load data"
  const CityRequired := "City is required"
  const FlightRequired := "Flight is required when adding a new passenger"
  const SubmitFailed := "Operation failed. Try again."
  const CouldNotUnbook := "Could not remove passenger from all flights"
  const Deleted := "Passenger deleted successfully"
  const DeleteFailed := "Delete failed after removing from flights"

  /** A booked flight matches when its departure or arrival code or its status contains the term. */
  predicate FlightMatches(f: Flight, term: string)
  {
    || (f.departureAirport.Some? && Contains(Lower(f.departureAirport.value.code), term))
    || (f.arrivalAirport.Some? && Contains(Lower(f.arrivalAirport.value.code), term))
    || FieldMatches(f.status, term)
  }

  /**
   * The search rule for a lower-cased term: the id's digits, the full name
   * "first last", the phone, the city name, or any booked flight matches.
   */
  predicate Matches(p: Passenger, term: string)
  {
    || Contains(NatToString(p.id), term)
    || Contains(Lower(p.firstName + " " + p.lastName), term)
    || FieldMatches(p.phone, term)
    || (p.city.Some? && Contains(Lower(p.city.value.name), term))
    || (p.flights.Some? && exists j :: 0 <= j < |p.flights.value| && FlightMatches(p.flights.value[j], term))
  }

  lemma SearchSpec(all: seq<Passenger>, term: string)
    ensures term == "" ==> SearchView(all, term, Matches) == all
    ensures IsSubsequence(SearchView(all, term, Matches), all)
    ensures forall p :: p in SearchView(all, term, Matches) <==> p in all && (term == "" || Matches(p, Lower(term)))
  {
    SearchViewSpec(all, term, Matches);
  }

  /** The inner loop of the search: does any booked flight match? */
  method AnyFlightMatches(flights: seq<Flight>, term: string) returns (found: bool)
    ensures found <==> exists j :: 0 <= j < |flights| && FlightMatches(flights[j], term)
  {
    found := false;
    for j := 0 to |flights|
      invariant found <==> exists k :: 0 <= k < j && FlightMatches(flights[k], term)
    {
      if FlightMatches(flights[j], term) {
        found := true;
      }
    }
  }

  /** The match flag the outer loop computes for one passenger. */
  method PassengerMatches(p: Passenger, term: string) returns (matches: bool)
    ensures matches == Matches(p, term)
  {
    matches := false;
    if Contains(NatToString(p.id), term) { matches := true; }
    if Contains(Lower(p.firstName + " " + p.lastName), term) { matches := true; }
    if FieldMatches(p.phone, term) { matches := true; }
    if p.city.Some? && Contains(Lower(p.city.value.name), term) { matches := true; }
    if p.flights.Some? && |p.flights.value| > 0 {
      var booked := AnyFlightMatches(p.flights.value, term);
      if booked { matches := true; }
    }
  }

  /** The search effect: the full list for an empty term, otherwise the matching passengers in order. */
  method SearchPassengers(all: seq<Passenger>, searchTerm: string) returns (results: seq<Passenger>)
    ensures results == SearchView(all, searchTerm, Matches)
  {
    if searchTerm == "" {
      return all;
    }
    var term := Lower(searchTerm);
    results := [];
    for i := 0 to |all|
      invariant results == Filter(all[..i], Keep(Matches, term))
    {
      FilterSnoc(all[..i], all[i], Keep(Matches, term));
      assert all[..i + 1] == all[..i] + [all[i]];
      var matches := PassengerMatches(all[i], term);
      if matches {
        results := results + [all[i]];
      }
    }
    assert all[..|all|] == all;
  }

  /** Why a submit is refused before anything is sent, if it is. */
  function Rejection(form: Form, editingId: Option<nat>): (r: Option<string>)
    ensures r.None? <==> form.cityId != "" && (editingId.Some? || form.flightId != "")
    ensures form.cityId == "" ==> r == Some(CityRequired)
    ensures form.cityId != "" && r.Some? ==> r == Some(FlightRequired) && editingId.None?
  {
    if form.cityId == "" then Some(CityRequired)
    else if editingId.None? && form.flightId == "" then Some(FlightRequired)
    else None
  }

  /** Names trimmed; a blank phone becomes null. */
  function PassengerPayload(form: Form): (p: Api.Payload)
    ensures p.PassengerData?
    ensures p.firstName == Trim(form.firstName) && p.lastName == Trim(form.lastName)
    ensures p.phone.None? <==> IsBlank(form.phone)
    ensures p.phone.Some? ==> p.phone.value == Trim(form.phone) && p.phone.value != ""
  {
    var phone := Trim(form.phone);
    Api.PassengerData(Trim(form.firstName), Trim(form.lastName), if phone == "" then None else Some(phone))
  }

  /**
   * The call a submit makes: an update of the edited passenger with the
   * chosen city, or a create that also books the chosen flight.
   */
  function SubmitRequest(form: Form, editingId: Option<nat>): (req: Api.Request)
    ensures req.body == PassengerPayload(form)
    ensures "city_id" in req.params && req.params["city_id"] == Some(ToNumber(form.cityId))
    ensures editingId.Some? ==> req.verb == Api.Put && req.target == Api.Item(Api.Passengers, editingId.value)
                                && req.params.Keys <= {"city_id"}
    ensures editingId.None? ==> req.verb == Api.Post && req.target == Api.Collection(Api.Passengers)
                                && ("flight_id" in req.params <==> form.flightId != "")
                                && ("flight_id" in req.params ==> req.params["flight_id"] == Some(ToNumber(form.flightId)))
  {
    var cityId := ToNumber(form.cityId);
    var flightId := if form.flightId != "" then Some(ToNumber(form.flightId) as int) else None;
    var data := PassengerPayload(form);
    if editingId.Some? then
      Api.UpdatePassenger(editingId.value, data, Some(cityId))
    else
      Api.CreatePassenger(data, Some(cityId), flightId)
  }

  /** The success notice names the passenger as sent: trimmed first and last name. */
  function SuccessMessage(form: Form, editing: bool): string
  {
    var data := PassengerPayload(form);
    (if editing then "Updated: " else "Added & booked: ") + data.firstName + " " + data.lastName
  }

  /** `startEdit`: names and phone copied, the city as its id string, the flight always cleared. */
  function EditForm(p: Passenger): (form: Form)
    ensures form.firstName == p.firstName && form.lastName == p.lastName
    ensures form.phone == OrElse(p.phone, "")
    ensures form.cityId == "" <==> p.city.None?
    ensures p.city.Some? ==> ToNumber(form.cityId) == p.city.value.id
    ensures form.flightId == ""
  {
    SelectedIdRoundTrip(CityId(p.city));
    Form(p.firstName, p.lastName, OrElse(p.phone, ""), SelectedId(CityId(p.city)), "")
  }

  /**
   * Editing a passenger and submitting unchanged: refused with "City is
   * required" when the passenger has no city, otherwise an update of that
   * passenger keeping its city. Editing never asks for a flight.
   */
  lemma EditThenSubmit(p: Passenger)
    ensures p.city.None? ==> Rejection(EditForm(p), Some(p.id)) == Some(CityRequired)
    ensures p.city.Some? ==> Rejection(EditForm(p), Some(p.id)).None?
    ensures p.city.Some? ==>
              var req := SubmitRequest(EditForm(p), Some(p.id));
              && req.target == Api.Item(Api.Passengers, p.id)
              && req.params.Keys <= {"city_id"}
              && "city_id" in req.params && req.params["city_id"] == Some(p.city.value.id)
  {
  }

  /** The flights a passenger is booked on, as the delete handler sees them. */
  function BookedFlights(found: Option<Passenger>): seq<Flight>
  {
    if found.Some? && found.value.flights.Some? then found.value.flights.value else []
  }

  /** One removal request per booked flight, in booking order. */
  function UnbookRequests(flights: seq<Flight>, passengerId: nat): (reqs: seq<Api.Request>)
    ensures |reqs| == |flights|
    ensures forall i :: 0 <= i < |reqs| ==>
              reqs[i].verb == Api.Delete && reqs[i].target == Api.Booking(flights[i].id, passengerId)
  {
    seq(|flights|, i requires 0 <= i < |flights| => Api.RemovePassengerFromFlight(flights[i].id, passengerId))
  }

  predicate AllRemoved(flights: seq<Flight>, passengerId: nat, unbookOk: (nat, nat) -> bool)
  {
    forall i :: 0 <= i < |flights| ==> unbookOk(flights[i].id, passengerId)
  }

  /**
   * The unbooking loop: one removal call per booked flight, even after a
   * failure, and success only when every call succeeded.
   */
  method UnbookAll(flights: seq<Flight>, passengerId: nat, unbookOk: (nat, nat) -> bool)
    returns (calls: seq<Api.Request>, removeSuccess: bool)
    ensures calls == UnbookRequests(flights, passengerId)
    ensures removeSuccess <==> AllRemoved(flights, passengerId, unbookOk)
  {
    calls := [];
    removeSuccess := true;
    for i := 0 to |flights|
      invariant calls == UnbookRequests(flights[..i], passengerId)
      invariant removeSuccess <==> AllRemoved(flights[..i], passengerId, unbookOk)
    {
      calls := calls + [Api.RemovePassengerFromFlight(flights[i].id, passengerId)];
      if !unbookOk(flights[i].id, passengerId) {
        removeSuccess := false;
      }
      assert flights[..i + 1][..i] == flights[..i];
    }
    assert flights[..|flights|] == flights;
  }

  /** An endpoint of the booked-flight label: the airport's code, or "?" without an airport. */
  function EndpointCode(a: Option<Airport>): string
  {
    if a.Some? then a.value.code else "?"
  }

  /**
   * The flight column: "FROM To TO" for the first booked flight, with "?"
   * for a missing airport, or "Not booked" for a passenger without flights.
   */
  function BookedFlightLabel(p: Passenger): (r: string)
    ensures r == "Not booked" <==> p.flights.None? || |p.flights.value| == 0
    ensures p.flights.Some? && |p.flights.value| > 0 ==>
              var f := p.flights.value[0];
              r == EndpointCode(f.departureAirport) + " To " + EndpointCode(f.arrivalAirport)
  {
    if p.flights.Some? && |p.flights.value| > 0 then
      var f := p.flights.value[0];
      var origin := EndpointCode(f.departureAirport);
      var shown := origin + " To " + EndpointCode(f.arrivalAirport);
      assert shown[|origin| + 1] == 'T';
      assert forall k :: 0 <= k < |"Not booked"| ==> "Not booked"[k] != 'T';
      shown
    else
      "Not booked"
  }

  function HasId(id: nat): Passenger -> bool { (p: Passenger) => p.id == id }

  class PassengersTab {
    var allPassengers: seq<Passenger>
    var passengers: seq<Passenger>
    var cities: seq<City>
    var flights: seq<Flight>
    var searchTerm: string
    var form: Form
    var editingId: Option<nat>
    var banner: Banner

    /** The displayed list is always the search view of the full list. */
    ghost predicate Valid()
      reads this
    {
      passengers == SearchView(allPassengers, searchTerm, Matches)
    }

    /** The fetched lists: the full list and the lists the form's selects offer. */
    ghost function Data(): TabData
      reads this
    {
      TabData(allPassengers, cities, flights)
    }

    constructor ()
      ensures Valid()
      ensures allPassengers == [] && cities == [] && flights == []
      ensures searchTerm == "" && form == EmptyForm && editingId == None && banner == Cleared
    {
      allPassengers, passengers, cities, flights := [], [], [], [];
      searchTerm := "";
      form := EmptyForm;
      editingId := None;
      banner := Cleared;
    }

    /** `loadData`: replace every list with the fetched ones, or report the failure and keep them. */
    method Load(fetched: Option<TabData>)
      requires Valid()
      modifies this
      ensures Valid()
      ensures fetched.Some? ==> Data() == fetched.value && banner == old(banner)
      ensures fetched.None? ==> Data() == old(Data()) && banner == Notice(LoadFailed, Error)
      ensures searchTerm == old(searchTerm) && form == old(form) && editingId == old(editingId)
    {
      if fetched.Some? {
        allPassengers, cities, flights := fetched.value.passengers, fetched.value.cities, fetched.value.flights;
        passengers := SearchPassengers(allPassengers, searchTerm);
      } else {
        banner := Notice(LoadFailed, Error);
      }
    }

    method SetSearchTerm(term: string)
      requires Valid()
      modifies this
      ensures Valid() && searchTerm == term
      ensures Data() == old(Data())
      ensures form == old(form) && editingId == old(editingId) && banner == old(banner)
    {
      searchTerm := term;
      passengers := SearchPassengers(allPassengers, term);
    }

    /**
     * `handleSubmit`: refused without a city, or without a flight when
     * creating; otherwise the update or create-and-book goes out. Success
     * resets the form and reloads, failure keeps the form.
     */
    method Submit(backendOk: bool, reload: Option<TabData>) returns (sent: Option<Api.Request>)
      requires Valid()
      modifies this
      ensures Valid() && searchTerm == old(searchTerm)
      ensures Rejection(old(form), old(editingId)).Some? ==>
                sent == None && form == old(form) && editingId == old(editingId)
                && Data() == old(Data())
                && banner == Notice(Rejection(old(form), old(editingId)).value, Error)
      ensures Rejection(old(form), old(editingId)).None? ==> sent == Some(SubmitRequest(old(form), old(editingId)))
      ensures sent.Some? && backendOk ==>
                form == EmptyForm && editingId == None
                && (reload.Some? ==> Data() == reload.value
                                     && banner == Notice(SuccessMessage(old(form), old(editingId).Some?), Success))
                && (reload.None? ==> Data() == old(Data()) && banner == Notice(LoadFailed, Error))
      ensures sent.Some? && !backendOk ==>
                form == old(form) && editingId == old(editingId) && Data() == old(Data())
                && banner == Notice(SubmitFailed, Error)
    {
      var rejection := Rejection(form, editingId);
      if rejection.Some? {
        banner := Notice(rejection.value, Error);
        sent := None;
        return;
      }
      sent := Some(SubmitRequest(form, editingId));
      Settle(backendOk, SuccessMessage(form, editingId.Some?), reload);
    }

    /** After the request: on success reset the form, announce it and reload; on failure keep the form. */
    method Settle(backendOk: bool, successText: string, reload: Option<TabData>)
      requires Valid()
      modifies this
      ensures Valid() && searchTerm == old(searchTerm)
      ensures backendOk ==>
                form == EmptyForm && editingId == None
                && (reload.Some? ==> Data() == reload.value && banner == Notice(successText, Success))
                && (reload.None? ==> Data() == old(Data()) && banner == Notice(LoadFailed, Error))
      ensures !backendOk ==>
                form == old(form) && editingId == old(editingId) && Data() == old(Data())
                && banner == Notice(SubmitFailed, Error)
    {
      if backendOk {
        form, editingId := EmptyForm, None;
        banner := Notice(successText, Success);
        Load(reload);
      } else {
        banner := Notice(SubmitFailed, Error);
      }
    }

    method StartEdit(p: Passenger)
      requires Valid()
      modifies this
      ensures Valid()
      ensures form == EditForm(p) && editingId == Some(p.id) && banner == EditingNotice(p.id)
      ensures Data() == old(Data()) && passengers == old(passengers) && searchTerm == old(searchTerm)
    {
      form := EditForm(p);
      editingId := Some(p.id);
      banner := EditingNotice(p.id);
    }

    method ResetForm()
      requires Valid()
      modifies this
      ensures Valid()
      ensures form == EmptyForm && editingId == None && banner == Cleared
      ensures Data() == old(Data()) && passengers == old(passengers) && searchTerm == old(searchTerm)
    {
      form, editingId, banner := EmptyForm, None, Cleared;
    }

    /**
     * `handleDelete`: unbook the passenger (found in the displayed list)
     * from each booked flight; if any removal failed, stop there. Otherwise
     * delete the passenger, which happens even when it was not found, and
     * reload on success.
     */
    method Delete(id: nat, unbookOk: (nat, nat) -> bool, deleteOk: bool, reload: Option<TabData>)
      returns (calls: seq<Api.Request>)
      requires Valid()
      modifies this
      ensures Valid() && searchTerm == old(searchTerm) && form == old(form) && editingId == old(editingId)
      ensures var booked := BookedFlights(First(old(passengers), HasId(id)));
              !AllRemoved(booked, id, unbookOk) ==>
                calls == UnbookRequests(booked, id) && Data() == old(Data())
                && banner == Notice(CouldNotUnbook, Error)
      ensures var booked := BookedFlights(First(old(passengers), HasId(id)));
              AllRemoved(booked, id, unbookOk) ==> calls == UnbookRequests(booked, id) + [Api.DeletePassenger(id)]
      ensures Api.DeletePassenger(id) in calls && deleteOk ==>
                (reload.Some? ==> Data() == reload.value && banner == Notice(Deleted, Success))
                && (reload.None? ==> Data() == old(Data()) && banner == Notice(LoadFailed, Error))
      ensures Api.DeletePassenger(id) in calls && !deleteOk ==>
                Data() == old(Data()) && banner == Notice(DeleteFailed, Error)
    {
      var booked := BookedFlights(First(passengers, HasId(id)));
      calls := [];
      if |booked| > 0 {
        var removeSuccess;
        calls, removeSuccess := UnbookAll(booked, id, unbookOk);
        if !removeSuccess {
          banner := Notice(CouldNotUnbook, Error);
          NoDeleteAmongUnbooking(booked, id);
          return;
        }
      }
      calls := calls + [Api.DeletePassenger(id)];
      if deleteOk {
        banner := Notice(Deleted, Success);
        Load(reload);
      } else {
        banner := Notice(DeleteFailed, Error);
      }
    }
  }

  /** The unbooking calls never include the passenger delete itself. */
  lemma NoDeleteAmongUnbooking(flights: seq<Flight>, id: nat)
    ensures Api.DeletePassenger(id) !in UnbookRequests(flights, id)
  {
  }
}
