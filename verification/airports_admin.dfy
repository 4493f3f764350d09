/**
 * The Airports admin tab: the airport list and its searched view, the
 * cities the select offers, the airport form (name, three-letter code,
 * city), the edited airport's id and the message banner.
 */
module AirportsAdmin {
  import opened Opt
  import opened Text
  import opened ListView
  import opened Entities
  import Api

  datatype Form = Form(name: string, code: string, cityId: string)

  const EmptyForm := Form("", "", "")

  datatype TabData = TabData(airports: seq<Airport>, cities: seq<City>)

  const LoadFailed := "Failed to load airports or cities"
  const CityMissing := "Please select a city for the airport"
  const SubmitFailed := "Operation failed. Check if code is unique or city exists."
  const Deleted := "Successfully deleted airport"
  const DeleteFailed := "Cannot delete airport: it may be used in flights"

  /** The search rule for a lower-cased term: the id's digits, the name, the code or the city name. */
  predicate Matches(a: Airport, term: string)
  {
    || Contains(NatToString(a.id), term)
    || Contains(Lower(a.name), term)
    || Contains(Lower(a.code), term)
    || (a.city.Some? && Contains(Lower(a.city.value.name), term))
  }

  lemma SearchSpec(all: seq<Airport>, term: string)
    ensures term == "" ==> SearchView(all, term, Matches) == all
    ensures IsSubsequence(SearchView(all, term, Matches), all)
    ensures forall a :: a in SearchView(all, term, Matches) <==> a in all && (term == "" || Matches(a, Lower(term)))
  {
    SearchViewSpec(all, term, Matches);
  }

  /** The name trimmed; the code trimmed and upper-cased. */
  function AirportPayload(form: Form): (p: Api.Payload)
    ensures p.AirportData?
    ensures p.name == Trim(form.name)
    ensures |p.code| == |Trim(form.code)| <= |form.code|
    ensures forall i :: 0 <= i < |p.code| ==> p.code[i] == UpperChar(Trim(form.code)[i])
    ensures forall i :: 0 <= i < |p.code| ==> !IsLowerAscii(p.code[i])
  {
    Api.AirportData(Trim(form.name), Upper(Trim(form.code)))
  }

  /**
   * The call a submit makes once a city is chosen: an update of the edited
   * airport or a create, each carrying the chosen city's id.
   */
  function SubmitRequest(form: Form, editingId: Option<nat>): (req: Api.Request)
    ensures req.body == AirportPayload(form)
    ensures req.params.Keys <= {"city_id"}
    ensures "city_id" in req.params && req.params["city_id"] == Some(ToNumber(form.cityId))
    ensures editingId.Some? ==> req.verb == Api.Put && req.target == Api.Item(Api.Airports, editingId.value)
    ensures editingId.None? ==> req.verb == Api.Post && req.target == Api.Collection(Api.Airports)
  {
    var cityId := Some(ToNumber(form.cityId) as int);
    if editingId.Some? then
      Api.UpdateAirport(editingId.value, AirportPayload(form), cityId)
    else
      Api.CreateAirport(AirportPayload(form), cityId)
  }

  function SuccessMessage(form: Form, editing: bool): string
  {
    (if editing then "Successfully updated airport: " else "Successfully added airport: ") + AirportPayload(form).name
  }

  /** `startEdit`: name and code copied, the city as its id string or "" when there is none. */
  function EditForm(a: Airport): (form: Form)
    ensures form.name == a.name && form.code == a.code
    ensures form.cityId == "" <==> a.city.None?
    ensures a.city.Some? ==> ToNumber(form.cityId) == a.city.value.id
  {
    SelectedIdRoundTrip(CityId(a.city));
    Form(a.name, a.code, SelectedId(CityId(a.city)))
  }

  /**
   * Editing an airport and submitting unchanged: refused when the airport
   * has no city, otherwise an update of that airport keeping its city.
   */
  lemma EditThenSubmit(a: Airport)
    ensures EditForm(a).cityId == "" <==> a.city.None?
    ensures a.city.Some? ==>
              var req := SubmitRequest(EditForm(a), Some(a.id));
              && req.verb == Api.Put && req.target == Api.Item(Api.Airports, a.id)
              && req.params["city_id"] == Some(a.city.value.id)
              && req.body.name == Trim(a.name)
  {
  }

  /**
   * A code typed into the code input reaches the backend with at most
   * three characters and no lower-case letter.
   */
  lemma TypedCodeSent(form: Form, typed: string)
    ensures var sent := AirportPayload(form.(code := CodeInput(typed))).code;
            |sent| <= 3 && forall i :: 0 <= i < |sent| ==> !IsLowerAscii(sent[i])
  {
  }

  class AirportsTab {
    var allAirports: seq<Airport>
    var airports: seq<Airport>
    var cities: seq<City>
    var searchTerm: string
    var form: Form
    var editingId: Option<nat>
    var banner: Banner

    /** The displayed list is always the search view of the full list. */
    ghost predicate Valid()
      reads this
    {
      airports == SearchView(allAirports, searchTerm, Matches)
    }

    /** The fetched lists: the full list and the lists the form's selects offer. */
    ghost function Data(): TabData
      reads this
    {
      TabData(allAirports, cities)
    }

    constructor ()
      ensures Valid()
      ensures allAirports == [] && cities == []
      ensures searchTerm == "" && form == EmptyForm && editingId == None && banner == Cleared
    {
      allAirports, airports, cities := [], [], [];
      searchTerm := "";
      form := EmptyForm;
      editingId := None;
      banner := Cleared;
    }

    /** `loadData`: replace both lists with the fetched ones, or report the failure and keep them. */
    method Load(fetched: Option<TabData>)
      requires Valid()
      modifies this
      ensures Valid()
      ensures fetched.Some? ==> Data() == fetched.value
                                && banner == old(banner)
      ensures fetched.None? ==> Data() == old(Data())
                                && banner == Notice(LoadFailed, Error)
      ensures searchTerm == old(searchTerm) && form == old(form) && editingId == old(editingId)
    {
      if fetched.Some? {
        allAirports, cities := fetched.value.airports, fetched.value.cities;
        airports := Search(allAirports, searchTerm, Matches);
      } else {
        banner := Notice(LoadFailed, Error);
      }
    }

    method SetSearchTerm(term: string)
      requires Valid()
      modifies this
      ensures Valid() && searchTerm == term
      ensures Data() == old(Data())
      ensures form == old(form) && editingId == old(editingId) && banner == old(banner)
    {
      searchTerm := term;
      airports := Search(allAirports, term, Matches);
    }

    /** Typing in the code input. */
    method TypeCode(typed: string)
      requires Valid()
      modifies this
      ensures Valid()
      ensures form == old(form).(code := CodeInput(typed))
      ensures Data() == old(Data()) && airports == old(airports)
      ensures searchTerm == old(searchTerm) && editingId == old(editingId) && banner == old(banner)
    {
      form := form.(code := CodeInput(typed));
    }

    /**
     * `handleSubmit`: refused without a city; otherwise the update or
     * create goes out. Success resets the form, announces the airport and
     * reloads; failure keeps the form.
     */
    method Submit(backendOk: bool, reload: Option<TabData>) returns (sent: Option<Api.Request>)
      requires Valid()
      modifies this
      ensures Valid() && searchTerm == old(searchTerm)
      ensures old(form).cityId == "" ==>
                sent == None && form == old(form) && editingId == old(editingId)
                && Data() == old(Data()) && banner == Notice(CityMissing, Error)
      ensures old(form).cityId != "" ==> sent == Some(SubmitRequest(old(form), old(editingId)))
      ensures sent.Some? && backendOk ==>
                form == EmptyForm && editingId == None
                && (reload.Some? ==> Data() == reload.value
                                     && banner == Notice(SuccessMessage(old(form), old(editingId).Some?), Success))
                && (reload.None? ==> Data() == old(Data()) && banner == Notice(LoadFailed, Error))
      ensures sent.Some? && !backendOk ==>
                form == old(form) && editingId == old(editingId) && Data() == old(Data())
                && banner == Notice(SubmitFailed, Error)
    {
      if form.cityId == "" {
        banner := Notice(CityMissing, Error);
        sent := None;
        return;
      }
      sent := Some(SubmitRequest(form, editingId));
      Settle(backendOk, SuccessMessage(form, editingId.Some?), reload);
    }

    /** After the request: on success reset the form, announce it and reload; on failure keep the form. */
    method Settle(backendOk: bool, successText: string, reload: Option<TabData>)
      requires Valid()
      modifies this
      ensures Valid() && searchTerm == old(searchTerm)
      ensures backendOk ==>
                form == EmptyForm && editingId == None
                && (reload.Some? ==> Data() == reload.value && banner == Notice(successText, Success))
                && (reload.None? ==> Data() == old(Data()) && banner == Notice(LoadFailed, Error))
      ensures !backendOk ==>
                form == old(form) && editingId == old(editingId) && Data() == old(Data())
                && banner == Notice(SubmitFailed, Error)
    {
      if backendOk {
        form, editingId := EmptyForm, None;
        banner := Notice(successText, Success);
        Load(reload);
      } else {
        banner := Notice(SubmitFailed, Error);
      }
    }

    method StartEdit(a: Airport)
      requires Valid()
      modifies this
      ensures Valid()
      ensures form == EditForm(a) && editingId == Some(a.id) && banner == EditingNotice(a.id)
      ensures Data() == old(Data()) && airports == old(airports) && searchTerm == old(searchTerm)
    {
      form := EditForm(a);
      editingId := Some(a.id);
      banner := EditingNotice(a.id);
    }

    method ResetForm()
      requires Valid()
      modifies this
      ensures Valid()
      ensures form == EmptyForm && editingId == None && banner == Cleared
      ensures Data() == old(Data()) && airports == old(airports) && searchTerm == old(searchTerm)
    {
      form, editingId, banner := EmptyForm, None, Cleared;
    }

    /** `handleDelete`: delete by id; success announces it and reloads, failure keeps the lists. */
    method Delete(id: nat, backendOk: bool, reload: Option<TabData>) returns (sent: Api.Request)
      requires Valid()
      modifies this
      ensures Valid() && searchTerm == old(searchTerm) && form == old(form) && editingId == old(editingId)
      ensures sent == Api.DeleteAirport(id)
      ensures backendOk ==>
                (reload.Some? ==> Data() == reload.value && banner == Notice(Deleted, Success))
                && (reload.None? ==> Data() == old(Data()) && banner == Notice(LoadFailed, Error))
      ensures !backendOk ==>
                Data() == old(Data()) && banner == Notice(DeleteFailed, Error)
    {
      sent := Api.DeleteAirport(id);
      if backendOk {
        banner := Notice(Deleted, Success);
        Load(reload);
      } else {
        banner := Notice(DeleteFailed, Error);
      }
    }
  }
}
