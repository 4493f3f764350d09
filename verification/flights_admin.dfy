/**
 * The Flights admin tab: the full flight list and its searched view, the
 * related lists the selects offer, the flight form (every select holds the
 * chosen id as a string, "" for none), the edited flight's id and the
 * message banner.
 */
module FlightsAdmin {
  import opened Opt
  import opened Text
  import opened ListView
  import opened Entities
  import Api

  datatype Form = Form(
    departureAirportId: string,
    arrivalAirportId: string,
    departureGateId: string,
    arrivalGateId: string,
    aircraftId: string,
    airlineId: string,
    status: string,
    departureTime: string,
    arrivalTime: string)

  const EmptyForm := Form("", "", "", "", "", "", "", "", "")

  /** What one load fetches, all or nothing. */
  datatype TabData = TabData(flights: seq<Flight>, airports: seq<Airport>, aircraft: seq<Aircraft>,
                             gates: seq<Gate>, airlines: seq<Airline>)

  const LoadFailed := "Failed to load flights or related data"
  const AirportsMissing := "Please select both departure and arrival airports"
  const Updated := "Successfully updated flight"
  const Added := "Successfully added flight"
  const SubmitFailed := "Operation failed. Check required fields and relations."
  const PassengersAttached := "Cannot delete flight: passengers are attached"
  const Deleted := "Successfully deleted flight"
  const DeleteFailed := "Failed to delete flight"

  /**
   * The search rule for a lower-cased term: the id's digits, the departure
   * or arrival airport code, the status, the aircraft type or the airline
   * name contains it; a missing relation or field never matches.
   */
  predicate Matches(f: Flight, term: string)
  {
    || Contains(NatToString(f.id), term)
    || (f.departureAirport.Some? && Contains(Lower(f.departureAirport.value.code), term))
    || (f.arrivalAirport.Some? && Contains(Lower(f.arrivalAirport.value.code), term))
    || FieldMatches(f.status, term)
    || (f.aircraft.Some? && FieldMatches(f.aircraft.value.aircraftType, term))
    || (f.airline.Some? && FieldMatches(f.airline.value.name, term))
  }

  lemma SearchSpec(all: seq<Flight>, term: string)
    ensures term == "" ==> SearchView(all, term, Matches) == all
    ensures IsSubsequence(SearchView(all, term, Matches), all)
    ensures forall f :: f in SearchView(all, term, Matches) <==> f in all && (term == "" || Matches(f, Lower(term)))
  {
    SearchViewSpec(all, term, Matches);
  }

  /** `status.trim() || "Scheduled"`: never empty, never padded. */
  function StatusOrScheduled(status: string): (r: string)
    ensures r != [] && Trim(r) == r
    ensures IsBlank(status) ==> r == "Scheduled"
    ensures !IsBlank(status) ==> r == Trim(status)
  {
    var trimmed := Trim(status);
    if trimmed == "" then
      TrimKeepsTrimmed("Scheduled");
      "Scheduled"
    else
      TrimIdempotent(status);
      trimmed
  }

  /** `value || null` for a form field: the empty string becomes null. */
  function NonEmpty(value: string): (r: Option<string>)
    ensures r.None? <==> value == ""
    ensures r.Some? ==> r.value == value
  {
    if value == "" then None else Some(value)
  }

  /** The request body: the trimmed status or "Scheduled", and each time or null when empty. */
  function FlightPayload(form: Form): (p: Api.Payload)
    ensures p.FlightData?
    ensures p.flightStatus == StatusOrScheduled(form.status)
    ensures p.departureTime.None? <==> form.departureTime == ""
    ensures p.departureTime.Some? ==> p.departureTime.value == form.departureTime
    ensures p.arrivalTime.None? <==> form.arrivalTime == ""
    ensures p.arrivalTime.Some? ==> p.arrivalTime.value == form.arrivalTime
  {
    Api.FlightData(StatusOrScheduled(form.status), NonEmpty(form.departureTime), NonEmpty(form.arrivalTime))
  }

  /** The relations a flight form can set, each sent as one query parameter. */
  datatype Relation = AircraftRel | AirlineRel | DepartureAirportRel | ArrivalAirportRel
                    | DepartureGateRel | ArrivalGateRel

  /** The query parameter a relation is sent as; distinct relations use distinct keys. */
  function ParamKey(r: Relation): (key: string)
    ensures KeyRelation(key) == Some(r)
  {
    match r
    case AircraftRel => "aircraftId"
    case AirlineRel => "airlineId"
    case DepartureAirportRel => "departureAirportId"
    case ArrivalAirportRel => "arrivalAirportId"
    case DepartureGateRel => "departureGateId"
    case ArrivalGateRel => "arrivalGateId"
  }

  /** The select a relation is read from. */
  function RelationField(form: Form, r: Relation): string
  {
    match r
    case AircraftRel => form.aircraftId
    case AirlineRel => form.airlineId
    case DepartureAirportRel => form.departureAirportId
    case ArrivalAirportRel => form.arrivalAirportId
    case DepartureGateRel => form.departureGateId
    case ArrivalGateRel => form.arrivalGateId
  }

  /** The relation a query parameter key stands for. */
  function KeyRelation(key: string): Option<Relation>
  {
    if key == "aircraftId" then Some(AircraftRel)
    else if key == "airlineId" then Some(AirlineRel)
    else if key == "departureAirportId" then Some(DepartureAirportRel)
    else if key == "arrivalAirportId" then Some(ArrivalAirportRel)
    else if key == "departureGateId" then Some(DepartureGateRel)
    else if key == "arrivalGateId" then Some(ArrivalGateRel)
    else None
  }

  /** `if (field !== "") params[key] = Number(field)`. */
  function AddIfChosen(params: Api.Params, form: Form, r: Relation): Api.Params
  {
    if RelationField(form, r) != "" then params[ParamKey(r) := Some(ToNumber(RelationField(form, r)))] else params
  }

  /** The relations in the order the submit handler checks them. */
  const Relations := [AircraftRel, AirlineRel, DepartureAirportRel, ArrivalAirportRel, DepartureGateRel, ArrivalGateRel]

  /** What the parameters built from `rels` hold: exactly the chosen relations' keys, each with its id. */
  ghost predicate ParamsOf(params: Api.Params, form: Form, rels: seq<Relation>)
  {
    && (forall key :: key in params ==> exists r :: r in rels && ParamKey(r) == key)
    && (forall r :: r in rels ==> (ParamKey(r) in params <==> RelationField(form, r) != ""))
    && (forall r :: r in rels && ParamKey(r) in params ==>
          params[ParamKey(r)] == Some(ToNumber(RelationField(form, r))))
  }

  /** Checking one more relation keeps the parameters faithful to the relations checked so far. */
  lemma AddIfChosenStep(before: Api.Params, form: Form, front: seq<Relation>, last: Relation)
    requires ParamsOf(before, form, front)
    ensures ParamsOf(AddIfChosen(before, form, last), form, front + [last])
  {
    var after := AddIfChosen(before, form, last);
    var rels := front + [last];
    forall key | key in after
      ensures exists r :: r in rels && ParamKey(r) == key
    {
      if key in before {
        var r :| r in front && ParamKey(r) == key;
        assert r in rels;
      } else {
        assert last in rels && ParamKey(last) == key;
      }
    }
    forall r | r in rels
      ensures ParamKey(r) in after <==> RelationField(form, r) != ""
      ensures ParamKey(r) in after ==> after[ParamKey(r)] == Some(ToNumber(RelationField(form, r)))
    {
      if r != last {
        assert r in front;
        assert KeyRelation(ParamKey(r)) != KeyRelation(ParamKey(last));
      }
    }
  }

  /** The parameters for the given relations, checked in order. */
  function ParamsFor(form: Form, rels: seq<Relation>): (params: Api.Params)
    ensures ParamsOf(params, form, rels)
    decreases |rels|
  {
    if rels == [] then map[]
    else
      var front := rels[..|rels| - 1];
      assert rels == front + [rels[|rels| - 1]];
      AddIfChosenStep(ParamsFor(form, front), form, front, rels[|rels| - 1]);
      AddIfChosen(ParamsFor(form, front), form, rels[|rels| - 1])
  }

  lemma EveryRelationListed(r: Relation)
    ensures r in Relations
  {
  }

  /**
   * Each relation's key is present exactly when its select is filled,
   * carrying the chosen id; no other key is sent.
   */
  function FlightParams(form: Form): (params: Api.Params)
    ensures forall key :: key in params ==> exists r :: ParamKey(r) == key
    ensures forall r :: ParamKey(r) in params <==> RelationField(form, r) != ""
    ensures forall r :: ParamKey(r) in params ==> params[ParamKey(r)] == Some(ToNumber(RelationField(form, r)))
  {
    forall r ensures r in Relations { EveryRelationListed(r); }
    ParamsFor(form, Relations)
  }

  /** The call a submit makes: an update of the edited flight, otherwise a create. */
  function SubmitRequest(form: Form, editingId: Option<nat>): (req: Api.Request)
    ensures req.body == FlightPayload(form) && req.params == FlightParams(form)
    ensures editingId.Some? ==> req.verb == Api.Put
                                && req.target == Api.Item(Api.Flights, editingId.value)
    ensures editingId.None? ==> req.verb == Api.Post
                                && req.target == Api.Collection(Api.Flights)
  {
    if editingId.Some? then Api.UpdateFlight(editingId.value, FlightPayload(form), FlightParams(form))
    else Api.CreateFlight(FlightPayload(form), FlightParams(form))
  }

  /** `s.slice(0, n)`: the first `n` characters, or all of a shorter string. */
  function Slice(s: string, n: nat): (r: string)
    ensures |r| == if |s| <= n then |s| else n
    ensures r == s[..|r|]
  {
    if |s| <= n then s else s[..n]
  }

  function GateId(g: Option<Gate>): Option<nat> { if g.Some? then Some(g.value.id) else None }

  function AircraftId(a: Option<Aircraft>): Option<nat> { if a.Some? then Some(a.value.id) else None }

  function TimeField(t: Option<string>): string { if t.Some? then Slice(t.value, 16) else "" }

  /** The form `startEdit` fills in for a flight: each select holds its relation's id. */
  function EditForm(f: Flight): (form: Form)
    ensures form.departureAirportId == "" <==> f.departureAirport.None?
    ensures form.arrivalAirportId == "" <==> f.arrivalAirport.None?
    ensures form.departureGateId == "" <==> f.departureGate.None?
    ensures form.arrivalGateId == "" <==> f.arrivalGate.None?
    ensures form.aircraftId == "" <==> f.aircraft.None?
    ensures form.airlineId == "" <==> f.airline.None?
    ensures form.status == OrElse(f.status, "")
    ensures f.departureTime.None? ==> form.departureTime == ""
    ensures f.departureTime.Some? ==>
              && |form.departureTime| == (if |f.departureTime.value| <= 16 then |f.departureTime.value| else 16)
              && form.departureTime == f.departureTime.value[..|form.departureTime|]
    ensures f.arrivalTime.None? ==> form.arrivalTime == ""
    ensures f.arrivalTime.Some? ==>
              && |form.arrivalTime| == (if |f.arrivalTime.value| <= 16 then |f.arrivalTime.value| else 16)
              && form.arrivalTime == f.arrivalTime.value[..|form.arrivalTime|]
  {
    SelectedIdRoundTrip(AirportId(f.departureAirport));
    SelectedIdRoundTrip(AirportId(f.arrivalAirport));
    SelectedIdRoundTrip(GateId(f.departureGate));
    SelectedIdRoundTrip(GateId(f.arrivalGate));
    SelectedIdRoundTrip(AircraftId(f.aircraft));
    SelectedIdRoundTrip(AirlineId(f.airline));
    Form(
      SelectedId(AirportId(f.departureAirport)),
      SelectedId(AirportId(f.arrivalAirport)),
      SelectedId(GateId(f.departureGate)),
      SelectedId(GateId(f.arrivalGate)),
      SelectedId(AircraftId(f.aircraft)),
      SelectedId(AirlineId(f.airline)),
      OrElse(f.status, ""),
      TimeField(f.departureTime),
      TimeField(f.arrivalTime))
  }

  /** The id flight `f` already has for a relation, if any. */
  function RelationOf(f: Flight, r: Relation): Option<nat>
  {
    match r
    case AircraftRel => AircraftId(f.aircraft)
    case AirlineRel => AirlineId(f.airline)
    case DepartureAirportRel => AirportId(f.departureAirport)
    case ArrivalAirportRel => AirportId(f.arrivalAirport)
    case DepartureGateRel => GateId(f.departureGate)
    case ArrivalGateRel => GateId(f.arrivalGate)
  }

  /**
   * Editing a flight and submitting the form unchanged updates that flight
   * with the relations it already has: a parameter for each relation that
   * is set, carrying its id, and none for the others.
   */
  lemma EditFormSelects(f: Flight, r: Relation)
    ensures RelationField(EditForm(f), r) == SelectedId(RelationOf(f, r))
  {
    match r
    case AircraftRel =>
    case AirlineRel =>
    case DepartureAirportRel =>
    case ArrivalAirportRel =>
    case DepartureGateRel =>
    case ArrivalGateRel =>
  }

  lemma EditThenSubmit(f: Flight)
    ensures var req := SubmitRequest(EditForm(f), Some(f.id));
            && req.verb == Api.Put
            && req.target == Api.Item(Api.Flights, f.id)
            && (forall r :: ParamKey(r) in req.params <==> RelationOf(f, r).Some?)
            && (forall r :: ParamKey(r) in req.params ==> req.params[ParamKey(r)] == Some(RelationOf(f, r).value))
  {
    var form := EditForm(f);
    var params := FlightParams(form);
    forall r
      ensures ParamKey(r) in params <==> RelationOf(f, r).Some?
      ensures ParamKey(r) in params ==> params[ParamKey(r)] == Some(RelationOf(f, r).value)
    {
      EditFormSelects(f, r);
      SelectedIdRoundTrip(RelationOf(f, r));
    }
  }

  /** The gates offered for a chosen airport: exactly the gates at it, none before a choice. */
  function GatesAt(gates: seq<Gate>, airportField: string): (r: seq<Gate>)
    ensures airportField == "" ==> r == []
    ensures airportField != "" ==>
              forall g :: g in r <==> g in gates && g.airport.Some? && g.airport.value.id == ToNumber(airportField)
    ensures IsSubsequence(r, gates)
  {
    if airportField == "" then []
    else
      var keep := (g: Gate) => g.airport.Some? && g.airport.value.id == ToNumber(airportField);
      FilterIsSubsequence(gates, keep);
      assert forall g :: g in Filter(gates, keep) <==> g in gates && keep(g) by {
        forall g ensures g in Filter(gates, keep) <==> g in gates && keep(g) {
          FilterMembership(gates, keep, g);
        }
      }
      Filter(gates, keep)
  }

  /** The aircraft offered for a chosen airline: exactly its aircraft, none before a choice. */
  function AircraftOf(aircraft: seq<Aircraft>, airlineField: string): (r: seq<Aircraft>)
    ensures airlineField == "" ==> r == []
    ensures airlineField != "" ==>
              forall a :: a in r <==> a in aircraft && a.airline.Some? && a.airline.value.id == ToNumber(airlineField)
    ensures IsSubsequence(r, aircraft)
  {
    if airlineField == "" then []
    else
      var keep := (a: Aircraft) => a.airline.Some? && a.airline.value.id == ToNumber(airlineField);
      FilterIsSubsequence(aircraft, keep);
      assert forall a :: a in Filter(aircraft, keep) <==> a in aircraft && keep(a) by {
        forall a ensures a in Filter(aircraft, keep) <==> a in aircraft && keep(a) {
          FilterMembership(aircraft, keep, a);
        }
      }
      Filter(aircraft, keep)
  }

  function HasId(id: nat): Flight -> bool { (f: Flight) => f.id == id }

  function OtherThan(id: nat): Flight -> bool { (f: Flight) => f.id != id }

  /** Deleting removes exactly the flights with that id and keeps the rest in order. */
  lemma RemovalSpec(xs: seq<Flight>, id: nat)
    ensures IsSubsequence(Filter(xs, OtherThan(id)), xs)
    ensures forall f :: f in Filter(xs, OtherThan(id)) <==> f in xs && f.id != id
  {
    FilterIsSubsequence(xs, OtherThan(id));
    forall f ensures f in Filter(xs, OtherThan(id)) <==> f in xs && f.id != id {
      FilterMembership(xs, OtherThan(id), f);
    }
  }

  function PassengerCount(f: Flight): nat
  {
    if f.passengers.Some? then |f.passengers.value| else 0
  }

  class FlightsTab {
    var allFlights: seq<Flight>
    var flights: seq<Flight>
    var airports: seq<Airport>
    var allAircrafts: seq<Aircraft>
    var gates: seq<Gate>
    var airlines: seq<Airline>
    var searchTerm: string
    var form: Form
    var editingId: Option<nat>
    var banner: Banner

    /** The displayed list is always the search view of the full list. */
    ghost predicate Valid()
      reads this
    {
      flights == SearchView(allFlights, searchTerm, Matches)
    }

    /** The fetched lists: the full list and the lists the form's selects offer. */
    ghost function Data(): TabData
      reads this
    {
      TabData(allFlights, airports, allAircrafts, gates, airlines)
    }

    constructor ()
      ensures Valid()
      ensures allFlights == [] && airports == [] && allAircrafts == [] && gates == [] && airlines == []
      ensures searchTerm == "" && form == EmptyForm && editingId == None && banner == Cleared
    {
      allFlights, flights := [], [];
      airports, allAircrafts, gates, airlines := [], [], [], [];
      searchTerm := "";
      form := EmptyForm;
      editingId := None;
      banner := Cleared;
    }

    /** `loadData`: replace every list with the fetched ones, or report the failure and keep them. */
    method Load(fetched: Option<TabData>)
      requires Valid()
      modifies this
      ensures Valid()
      ensures fetched.Some? ==> Data() == fetched.value && banner == old(banner)
      ensures fetched.None? ==> Data() == old(Data()) && banner == Notice(LoadFailed, Error)
      ensures searchTerm == old(searchTerm) && form == old(form) && editingId == old(editingId)
    {
      if fetched.Some? {
        var data := fetched.value;
        var shown := Search(data.flights, searchTerm, Matches);
        allFlights, flights := data.flights, shown;
        airports, allAircrafts, gates, airlines := data.airports, data.aircraft, data.gates, data.airlines;
      } else {
        banner := Notice(LoadFailed, Error);
      }
    }

    /** Typing in the search box re-runs the search over the full list. */
    method SetSearchTerm(term: string)
      requires Valid()
      modifies this
      ensures Valid() && searchTerm == term
      ensures Data() == old(Data())
      ensures form == old(form) && editingId == old(editingId) && banner == old(banner)
    {
      searchTerm := term;
      flights := Search(allFlights, term, Matches);
    }

    /**
     * `handleSubmit`. Without both airports nothing is sent and the form is
     * kept. Otherwise the update or create goes out; on success the form is
     * reset and the lists reloaded, on failure the form is kept.
     */
    method Submit(backendOk: bool, reload: Option<TabData>) returns (sent: Option<Api.Request>)
      requires Valid()
      modifies this
      ensures Valid() && searchTerm == old(searchTerm)
      ensures old(form.departureAirportId == "" || form.arrivalAirportId == "") ==>
                sent == None && form == old(form) && editingId == old(editingId)
                && Data() == old(Data()) && banner == Notice(AirportsMissing, Error)
      ensures old(form.departureAirportId != "" && form.arrivalAirportId != "") ==>
                sent == Some(SubmitRequest(old(form), old(editingId)))
      ensures sent.Some? && backendOk ==>
                form == EmptyForm && editingId == None
                && (reload.Some? ==> Data() == reload.value
                                     && banner == Notice(if old(editingId).Some? then Updated else Added, Success))
                && (reload.None? ==> Data() == old(Data()) && banner == Notice(LoadFailed, Error))
      ensures sent.Some? && !backendOk ==>
                form == old(form) && editingId == old(editingId) && Data() == old(Data())
                && banner == Notice(SubmitFailed, Error)
    {
      if form.departureAirportId == "" || form.arrivalAirportId == "" {
        banner := Notice(AirportsMissing, Error);
        sent := None;
        return;
      }
      sent := Some(SubmitRequest(form, editingId));
      Settle(backendOk, if editingId.Some? then Updated else Added, reload);
    }

    /** After the request: on success reset the form, announce it and reload; on failure keep the form. */
    method Settle(backendOk: bool, successText: string, reload: Option<TabData>)
      requires Valid()
      modifies this
      ensures Valid() && searchTerm == old(searchTerm)
      ensures backendOk ==>
                form == EmptyForm && editingId == None
                && (reload.Some? ==> Data() == reload.value && banner == Notice(successText, Success))
                && (reload.None? ==> Data() == old(Data()) && banner == Notice(LoadFailed, Error))
      ensures !backendOk ==>
                form == old(form) && editingId == old(editingId) && Data() == old(Data())
                && banner == Notice(SubmitFailed, Error)
    {
      if backendOk {
        form, editingId := EmptyForm, None;
        banner := Notice(successText, Success);
        Load(reload);
      } else {
        banner := Notice(SubmitFailed, Error);
      }
    }

    /** `startEdit`: load the flight into the form and show the editing notice. */
    method StartEdit(f: Flight)
      requires Valid()
      modifies this
      ensures Valid()
      ensures form == EditForm(f) && editingId == Some(f.id) && banner == EditingNotice(f.id)
      ensures Data() == old(Data()) && flights == old(flights) && searchTerm == old(searchTerm)
    {
      form := EditForm(f);
      editingId := Some(f.id);
      banner := EditingNotice(f.id);
    }

    /** `resetForm`: an empty form, no edited flight and no message. */
    method ResetForm()
      requires Valid()
      modifies this
      ensures Valid()
      ensures form == EmptyForm && editingId == None && banner == Cleared
      ensures Data() == old(Data()) && flights == old(flights) && searchTerm == old(searchTerm)
    {
      form, editingId, banner := EmptyForm, None, Cleared;
    }

    /** Choosing a departure airport clears the departure gate. */
    method ChooseDepartureAirport(value: string)
      requires Valid()
      modifies this
      ensures Valid()
      ensures form == old(form).(departureAirportId := value, departureGateId := "")
      ensures Data() == old(Data()) && flights == old(flights) && searchTerm == old(searchTerm)
      ensures editingId == old(editingId) && banner == old(banner)
    {
      form := form.(departureAirportId := value, departureGateId := "");
    }

    /** Choosing an arrival airport clears the arrival gate. */
    method ChooseArrivalAirport(value: string)
      requires Valid()
      modifies this
      ensures Valid()
      ensures form == old(form).(arrivalAirportId := value, arrivalGateId := "")
      ensures Data() == old(Data()) && flights == old(flights) && searchTerm == old(searchTerm)
      ensures editingId == old(editingId) && banner == old(banner)
    {
      form := form.(arrivalAirportId := value, arrivalGateId := "");
    }

    /** Choosing an airline clears the aircraft. */
    method ChooseAirline(value: string)
      requires Valid()
      modifies this
      ensures Valid()
      ensures form == old(form).(airlineId := value, aircraftId := "")
      ensures Data() == old(Data()) && flights == old(flights) && searchTerm == old(searchTerm)
      ensures editingId == old(editingId) && banner == old(banner)
    {
      form := form.(airlineId := value, aircraftId := "");
    }

    /**
     * `handleDelete`: only a flight in the displayed list can be deleted,
     * and only when no passenger is booked on it. A successful delete
     * drops that id from both lists.
     */
    method Delete(flightId: nat, backendOk: bool) returns (sent: Option<Api.Request>)
      requires Valid()
      modifies this
      ensures Valid() && searchTerm == old(searchTerm) && form == old(form) && editingId == old(editingId)
      ensures First(old(flights), HasId(flightId)).None? ==>
                sent == None && Data() == old(Data()) && flights == old(flights) && banner == old(banner)
      ensures var found := First(old(flights), HasId(flightId));
              found.Some? && PassengerCount(found.value) > 0 ==>
                sent == None && Data() == old(Data()) && banner == Notice(PassengersAttached, Error)
      ensures var found := First(old(flights), HasId(flightId));
              found.Some? && PassengerCount(found.value) == 0 ==> sent == Some(Api.DeleteFlight(flightId))
      ensures sent.Some? && backendOk ==>
                Data() == old(Data()).(flights := Filter(old(allFlights), OtherThan(flightId)))
                && flights == Filter(old(flights), OtherThan(flightId))
                && banner == Notice(Deleted, Success)
      ensures sent.Some? && !backendOk ==> Data() == old(Data()) && banner == Notice(DeleteFailed, Error)
    {
      var found := First(flights, HasId(flightId));
      if found.None? {
        sent := None;
        return;
      }
      if PassengerCount(found.value) > 0 {
        banner := Notice(PassengersAttached, Error);
        sent := None;
        return;
      }
      sent := Some(Api.DeleteFlight(flightId));
      if backendOk {
        SearchViewAfterRemoval(allFlights, searchTerm, Matches, OtherThan(flightId));
        var kept, shown := Filter(allFlights, OtherThan(flightId)), Filter(flights, OtherThan(flightId));
        allFlights, flights, banner := kept, shown, Notice(Deleted, Success);
      } else {
        banner := Notice(DeleteFailed, Error);
      }
    }
  }
}
