/**
 * The Aircraft admin tab: the aircraft list and its searched view, the
 * airports and airlines it loads for the selects, the aircraft form (type,
 * seat count, airline), the edited aircraft's id and the message banner.
 */
module AircraftAdmin {
  import opened Opt
  import opened Text
  import opened ListView
  import opened Entities
  import Api

  datatype Form = Form(aircraftType: string, numberOfPassengers: string, airlineId: string)

  const EmptyForm := Form("", "", "")

  datatype TabData = TabData(aircraft: seq<Aircraft>, airports: seq<Airport>, airlines: seq<Airline>)

  const LoadFailed := "Failed to load aircraft or related data"
  const AirlineMissing := "Please select an airline for the aircraft"
  const SubmitFailed := "Operation failed. Check required fields and relations."
  const Deleted := "Successfully deleted aircraft"
  const DeleteFailed := "Cannot delete aircraft: it may be used in a flight"

  /**
   * The search rule for a lower-cased term: the id's digits, the type, the
   * seat count's digits or the airline's name.
   */
  predicate Matches(ac: Aircraft, term: string)
  {
    || Contains(NatToString(ac.id), term)
    || FieldMatches(ac.aircraftType, term)
    || Contains(NatToString(ac.numberOfPassengers), term)
    || (ac.airline.Some? && FieldMatches(ac.airline.value.name, term))
  }

  lemma SearchSpec(all: seq<Aircraft>, term: string)
    ensures term == "" ==> SearchView(all, term, Matches) == all
    ensures IsSubsequence(SearchView(all, term, Matches), all)
    ensures forall ac :: ac in SearchView(all, term, Matches) <==> ac in all && (term == "" || Matches(ac, Lower(term)))
  {
    SearchViewSpec(all, term, Matches);
  }

  /** The type trimmed; the seat count is the typed number, or 0 for anything that is not one. */
  function AircraftPayload(form: Form): (p: Api.Payload)
    ensures p.AircraftData?
    ensures p.aircraftType == Trim(form.aircraftType)
    ensures p.numberOfPassengers >= 0
    ensures !IsDigits(form.numberOfPassengers) ==> p.numberOfPassengers == 0
    ensures forall n: nat :: form.numberOfPassengers == NatToString(n) ==> p.numberOfPassengers == n
  {
    forall n: nat | form.numberOfPassengers == NatToString(n)
      ensures ToNumber(form.numberOfPassengers) == n
    {
      ToNumberNatToString(n);
    }
    Api.AircraftData(Trim(form.aircraftType), ToNumber(form.numberOfPassengers))
  }

  /**
   * The call a submit makes once an airline is chosen: an update of the
   * edited aircraft or a create, each carrying the chosen airline's id.
   */
  function SubmitRequest(form: Form, editingId: Option<nat>): (req: Api.Request)
    ensures req.body == AircraftPayload(form)
    ensures req.params.Keys <= {"airline_id"}
    ensures "airline_id" in req.params && req.params["airline_id"] == Some(ToNumber(form.airlineId))
    ensures editingId.Some? ==> req.verb == Api.Put && req.target == Api.Item(Api.Aircraft, editingId.value)
    ensures editingId.None? ==> req.verb == Api.Post && req.target == Api.Collection(Api.Aircraft)
  {
    var airlineId := Some(ToNumber(form.airlineId) as int);
    if editingId.Some? then
      Api.UpdateAircraft(editingId.value, AircraftPayload(form), airlineId)
    else
      Api.CreateAircraft(AircraftPayload(form), airlineId)
  }

  function SuccessMessage(form: Form, editing: bool): string
  {
    (if editing then "Successfully updated aircraft: " else "Successfully added aircraft: ") + AircraftPayload(form).aircraftType
  }

  /** `startEdit`: a missing type becomes "", the seat count its digits, the airline its id string or "". */
  function EditForm(ac: Aircraft): (form: Form)
    ensures form.aircraftType == OrElse(ac.aircraftType, "")
    ensures IsDigits(form.numberOfPassengers) && ToNumber(form.numberOfPassengers) == ac.numberOfPassengers
    ensures form.airlineId == "" <==> ac.airline.None?
    ensures ac.airline.Some? ==> ToNumber(form.airlineId) == ac.airline.value.id
  {
    SelectedIdRoundTrip(AirlineId(ac.airline));
    ToNumberNatToString(ac.numberOfPassengers);
    Form(OrElse(ac.aircraftType, ""), NatToString(ac.numberOfPassengers), SelectedId(AirlineId(ac.airline)))
  }

  /**
   * Editing an aircraft and submitting unchanged: refused when it has no
   * airline; otherwise an update of that aircraft keeping its airline and
   * its seat count.
   */
  lemma EditThenSubmit(ac: Aircraft)
    ensures EditForm(ac).airlineId == "" <==> ac.airline.None?
    ensures AircraftPayload(EditForm(ac)).numberOfPassengers == ac.numberOfPassengers
    ensures ac.airline.Some? ==>
              var req := SubmitRequest(EditForm(ac), Some(ac.id));
              && req.verb == Api.Put && req.target == Api.Item(Api.Aircraft, ac.id)
              && req.params["airline_id"] == Some(ac.airline.value.id)
              && req.body.numberOfPassengers == ac.numberOfPassengers
  {
  }

  class AircraftTab {
    var allAircraft: seq<Aircraft>
    var aircraft: seq<Aircraft>
    var airports: seq<Airport>
    var airlines: seq<Airline>
    var searchTerm: string
    var form: Form
    var editingId: Option<nat>
    var banner: Banner

    /** The displayed list is always the search view of the full list. */
    ghost predicate Valid()
      reads this
    {
      aircraft == SearchView(allAircraft, searchTerm, Matches)
    }

    /** The fetched lists: the full list and the lists the form's selects offer. */
    ghost function Data(): TabData
      reads this
    {
      TabData(allAircraft, airports, airlines)
    }

    constructor ()
      ensures Valid()
      ensures allAircraft == [] && airports == [] && airlines == []
      ensures searchTerm == "" && form == EmptyForm && editingId == None && banner == Cleared
    {
      allAircraft, aircraft, airports, airlines := [], [], [], [];
      searchTerm := "";
      form := EmptyForm;
      editingId := None;
      banner := Cleared;
    }

    /** `loadData`: replace every list with the fetched ones, or report the failure and keep them. */
    method Load(fetched: Option<TabData>)
      requires Valid()
      modifies this
      ensures Valid()
      ensures fetched.Some? ==> Data() == fetched.value
                                && banner == old(banner)
      ensures fetched.None? ==> Data() == old(Data()) && banner == Notice(LoadFailed, Error)
      ensures searchTerm == old(searchTerm) && form == old(form) && editingId == old(editingId)
    {
      if fetched.Some? {
        allAircraft, airports, airlines := fetched.value.aircraft, fetched.value.airports, fetched.value.airlines;
        aircraft := Search(allAircraft, searchTerm, Matches);
      } else {
        banner := Notice(LoadFailed, Error);
      }
    }

    method SetSearchTerm(term: string)
      requires Valid()
      modifies this
      ensures Valid() && searchTerm == term
      ensures Data() == old(Data())
      ensures form == old(form) && editingId == old(editingId) && banner == old(banner)
    {
      searchTerm := term;
      aircraft := Search(allAircraft, term, Matches);
    }

    /**
     * `handleSubmit`: refused without an airline; otherwise the update or
     * create goes out. Success resets the form, announces the aircraft and
     * reloads; failure keeps the form.
     */
    method Submit(backendOk: bool, reload: Option<TabData>) returns (sent: Option<Api.Request>)
      requires Valid()
      modifies this
      ensures Valid() && searchTerm == old(searchTerm)
      ensures old(form).airlineId == "" ==>
                sent == None && form == old(form) && editingId == old(editingId)
                && Data() == old(Data()) && banner == Notice(AirlineMissing, Error)
      ensures old(form).airlineId != "" ==> sent == Some(SubmitRequest(old(form), old(editingId)))
      ensures sent.Some? && backendOk ==>
                form == EmptyForm && editingId == None
                && (reload.Some? ==> Data() == reload.value
                                     && banner == Notice(SuccessMessage(old(form), old(editingId).Some?), Success))
                && (reload.None? ==> Data() == old(Data()) && banner == Notice(LoadFailed, Error))
      ensures sent.Some? && !backendOk ==>
                form == old(form) && editingId == old(editingId) && Data() == old(Data())
                && banner == Notice(SubmitFailed, Error)
    {
      if form.airlineId == "" {
        banner := Notice(AirlineMissing, Error);
        sent := None;
        return;
      }
      sent := Some(SubmitRequest(form, editingId));
      Settle(backendOk, SuccessMessage(form, editingId.Some?), reload);
    }

    /** After the request: on success reset the form, announce it and reload; on failure keep the form. */
    method Settle(backendOk: bool, successText: string, reload: Option<TabData>)
      requires Valid()
      modifies this
      ensures Valid() && searchTerm == old(searchTerm)
      ensures backendOk ==>
                form == EmptyForm && editingId == None
                && (reload.Some? ==> Data() == reload.value && banner == Notice(successText, Success))
                && (reload.None? ==> Data() == old(Data()) && banner == Notice(LoadFailed, Error))
      ensures !backendOk ==>
                form == old(form) && editingId == old(editingId) && Data() == old(Data())
                && banner == Notice(SubmitFailed, Error)
    {
      if backendOk {
        form, editingId := EmptyForm, None;
        banner := Notice(successText, Success);
        Load(reload);
      } else {
        banner := Notice(SubmitFailed, Error);
      }
    }

    method StartEdit(ac: Aircraft)
      requires Valid()
      modifies this
      ensures Valid()
      ensures form == EditForm(ac) && editingId == Some(ac.id) && banner == EditingNotice(ac.id)
      ensures Data() == old(Data()) && aircraft == old(aircraft) && searchTerm == old(searchTerm)
    {
      form := EditForm(ac);
      editingId := Some(ac.id);
      banner := EditingNotice(ac.id);
    }

    method ResetForm()
      requires Valid()
      modifies this
      ensures Valid()
      ensures form == EmptyForm && editingId == None && banner == Cleared
      ensures Data() == old(Data()) && aircraft == old(aircraft) && searchTerm == old(searchTerm)
    {
      form, editingId, banner := EmptyForm, None, Cleared;
    }

    /** `handleDelete`: delete by id; success announces it and reloads, failure keeps the lists. */
    method Delete(id: nat, backendOk: bool, reload: Option<TabData>) returns (sent: Api.Request)
      requires Valid()
      modifies this
      ensures Valid() && searchTerm == old(searchTerm) && form == old(form) && editingId == old(editingId)
      ensures sent == Api.DeleteAircraft(id)
      ensures backendOk ==>
                (reload.Some? ==> Data() == reload.value && banner == Notice(Deleted, Success))
                && (reload.None? ==> Data() == old(Data()) && banner == Notice(LoadFailed, Error))
      ensures !backendOk ==>
                Data() == old(Data())
                && banner == Notice(DeleteFailed, Error)
    {
      sent := Api.DeleteAircraft(id);
      if backendOk {
        banner := Notice(Deleted, Success);
        Load(reload);
      } else {
        banner := Notice(DeleteFailed, Error);
      }
    }
  }
}
