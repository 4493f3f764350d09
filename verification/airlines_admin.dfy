/**
 * The Airlines admin tab: the airline list and its searched view, the
 * cities the headquarters select offers, the airline form (name, code of
 * at most three letters, city), the edited airline's id and the message
 * banner. Unlike an airport, an airline may be saved without a city.
 */
module AirlinesAdmin {
  import opened Opt
  import opened Text
  import opened ListView
  import opened Entities
  import Api

  datatype Form = Form(name: string, code: string, cityId: string)

  const EmptyForm := Form("", "", "")

  datatype TabData = TabData(airlines: seq<Airline>, cities: seq<City>)

  const LoadFailed := "Failed to load airlines or cities"
  const SubmitFailed := "Operation failed. Check if code is unique or city exists."
  const Deleted := "Successfully deleted airline"
  const DeleteFailed := "Cannot delete airline: it may be used in flights or aircraft"

  /** The search rule for a lower-cased term: the id's digits, the name, the code or the city name. */
  predicate Matches(a: Airline, term: string)
  {
    || Contains(NatToString(a.id), term)
    || FieldMatches(a.name, term)
    || FieldMatches(a.code, term)
    || (a.city.Some? && Contains(Lower(a.city.value.name), term))
  }

  lemma SearchSpec(all: seq<Airline>, term: string)
    ensures term == "" ==> SearchView(all, term, Matches) == all
    ensures IsSubsequence(SearchView(all, term, Matches), all)
    ensures forall a :: a in SearchView(all, term, Matches) <==> a in all && (term == "" || Matches(a, Lower(term)))
  {
    SearchViewSpec(all, term, Matches);
  }

  /** The name trimmed; the code trimmed and upper-cased. */
  function AirlinePayload(form: Form): (p: Api.Payload)
    ensures p.AirlineData?
    ensures p.name == Trim(form.name)
    ensures |p.code| == |Trim(form.code)| <= |form.code|
    ensures forall i :: 0 <= i < |p.code| ==> p.code[i] == UpperChar(Trim(form.code)[i])
    ensures forall i :: 0 <= i < |p.code| ==> !IsLowerAscii(p.code[i])
  {
    Api.AirlineData(Trim(form.name), Upper(Trim(form.code)))
  }

  /** The chosen city: none when the select is empty, otherwise its number. */
  function ChosenCity(cityId: string): (r: Option<int>)
    ensures r.None? <==> cityId == ""
    ensures r.Some? ==> r.value == ToNumber(cityId)
  {
    if cityId != "" then Some(ToNumber(cityId) as int) else None
  }

  /**
   * The call a submit makes: an update of the edited airline or a create,
   * carrying `city_id` exactly when a city is chosen.
   */
  function SubmitRequest(form: Form, editingId: Option<nat>): (req: Api.Request)
    ensures req.body == AirlinePayload(form)
    ensures req.params.Keys <= {"city_id"}
    ensures "city_id" in req.params <==> form.cityId != ""
    ensures "city_id" in req.params ==> req.params["city_id"] == Some(ToNumber(form.cityId))
    ensures editingId.Some? ==> req.verb == Api.Put && req.target == Api.Item(Api.Airlines, editingId.value)
    ensures editingId.None? ==> req.verb == Api.Post && req.target == Api.Collection(Api.Airlines)
  {
    var cityId := ChosenCity(form.cityId);
    if editingId.Some? then
      Api.UpdateAirline(editingId.value, AirlinePayload(form), cityId)
    else
      Api.CreateAirline(AirlinePayload(form), cityId)
  }

  function SuccessMessage(form: Form, editing: bool): string
  {
    (if editing then "Successfully updated airline: " else "Successfully added airline: ") + AirlinePayload(form).name
  }

  /** `startEdit`: a missing name or code becomes "", the city its id string or "" when there is none. */
  function EditForm(a: Airline): (form: Form)
    ensures form.name == OrElse(a.name, "") && form.code == OrElse(a.code, "")
    ensures form.cityId == "" <==> a.city.None?
    ensures a.city.Some? ==> ToNumber(form.cityId) == a.city.value.id
  {
    SelectedIdRoundTrip(CityId(a.city));
    Form(OrElse(a.name, ""), OrElse(a.code, ""), SelectedId(CityId(a.city)))
  }

  /**
   * Editing an airline and submitting unchanged updates that airline and
   * keeps its city: `city_id` is sent exactly when the airline has one.
   */
  lemma EditThenSubmit(a: Airline)
    ensures var req := SubmitRequest(EditForm(a), Some(a.id));
            && req.verb == Api.Put && req.target == Api.Item(Api.Airlines, a.id)
            && ("city_id" in req.params <==> a.city.Some?)
            && (a.city.Some? ==> req.params["city_id"] == Some(a.city.value.id))
  {
  }

  /**
   * A code typed into the code input reaches the backend with at most
   * three characters and no lower-case letter.
   */
  lemma TypedCodeSent(form: Form, typed: string)
    ensures var sent := AirlinePayload(form.(code := CodeInput(typed))).code;
            |sent| <= 3 && forall i :: 0 <= i < |sent| ==> !IsLowerAscii(sent[i])
  {
  }

  class AirlinesTab {
    var allAirlines: seq<Airline>
    var airlines: seq<Airline>
    var cities: seq<City>
    var searchTerm: string
    var form: Form
    var editingId: Option<nat>
    var banner: Banner

    /** The displayed list is always the search view of the full list. */
    ghost predicate Valid()
      reads this
    {
      airlines == SearchView(allAirlines, searchTerm, Matches)
    }

    /** The fetched lists: the full list and the lists the form's selects offer. */
    ghost function Data(): TabData
      reads this
    {
      TabData(allAirlines, cities)
    }

    constructor ()
      ensures Valid()
      ensures allAirlines == [] && cities == []
      ensures searchTerm == "" && form == EmptyForm && editingId == None && banner == Cleared
    {
      allAirlines, airlines, cities := [], [], [];
      searchTerm := "";
      form := EmptyForm;
      editingId := None;
      banner := Cleared;
    }

    /** `loadData`: replace both lists with the fetched ones, or report the failure and keep them. */
    method Load(fetched: Option<TabData>)
      requires Valid()
      modifies this
      ensures Valid()
      ensures fetched.Some? ==> Data() == fetched.value
                                && banner == old(banner)
      ensures fetched.None? ==> Data() == old(Data())
                                && banner == Notice(LoadFailed, Error)
      ensures searchTerm == old(searchTerm) && form == old(form) && editingId == old(editingId)
    {
      if fetched.Some? {
        allAirlines, cities := fetched.value.airlines, fetched.value.cities;
        airlines := Search(allAirlines, searchTerm, Matches);
      } else {
        banner := Notice(LoadFailed, Error);
      }
    }

    method SetSearchTerm(term: string)
      requires Valid()
      modifies this
      ensures Valid() && searchTerm == term
      ensures Data() == old(Data())
      ensures form == old(form) && editingId == old(editingId) && banner == old(banner)
    {
      searchTerm := term;
      airlines := Search(allAirlines, term, Matches);
    }

    /** Typing in the code input. */
    method TypeCode(typed: string)
      requires Valid()
      modifies this
      ensures Valid()
      ensures form == old(form).(code := CodeInput(typed))
      ensures Data() == old(Data()) && airlines == old(airlines)
      ensures searchTerm == old(searchTerm) && editingId == old(editingId) && banner == old(banner)
    {
      form := form.(code := CodeInput(typed));
    }

    /**
     * `handleSubmit`: the update or create always goes out. Success resets
     * the form, announces the airline and reloads; failure keeps the form.
     */
    method Submit(backendOk: bool, reload: Option<TabData>) returns (sent: Api.Request)
      requires Valid()
      modifies this
      ensures Valid() && searchTerm == old(searchTerm)
      ensures sent == SubmitRequest(old(form), old(editingId))
      ensures backendOk ==>
                form == EmptyForm && editingId == None
                && (reload.Some? ==> Data() == reload.value
                                     && banner == Notice(SuccessMessage(old(form), old(editingId).Some?), Success))
                && (reload.None? ==> Data() == old(Data()) && banner == Notice(LoadFailed, Error))
      ensures !backendOk ==>
                form == old(form) && editingId == old(editingId) && Data() == old(Data())
                && banner == Notice(SubmitFailed, Error)
    {
      sent := SubmitRequest(form, editingId);
      Settle(backendOk, SuccessMessage(form, editingId.Some?), reload);
    }

    /** After the request: on success reset the form, announce it and reload; on failure keep the form. */
    method Settle(backendOk: bool, successText: string, reload: Option<TabData>)
      requires Valid()
      modifies this
      ensures Valid() && searchTerm == old(searchTerm)
      ensures backendOk ==>
                form == EmptyForm && editingId == None
                && (reload.Some? ==> Data() == reload.value && banner == Notice(successText, Success))
                && (reload.None? ==> Data() == old(Data()) && banner == Notice(LoadFailed, Error))
      ensures !backendOk ==>
                form == old(form) && editingId == old(editingId) && Data() == old(Data())
                && banner == Notice(SubmitFailed, Error)
    {
      if backendOk {
        form, editingId := EmptyForm, None;
        banner := Notice(successText, Success);
        Load(reload);
      } else {
        banner := Notice(SubmitFailed, Error);
      }
    }

    method StartEdit(a: Airline)
      requires Valid()
      modifies this
      ensures Valid()
      ensures form == EditForm(a) && editingId == Some(a.id) && banner == EditingNotice(a.id)
      ensures Data() == old(Data()) && airlines == old(airlines) && searchTerm == old(searchTerm)
    {
      form := EditForm(a);
      editingId := Some(a.id);
      banner := EditingNotice(a.id);
    }

    method ResetForm()
      requires Valid()
      modifies this
      ensures Valid()
      ensures form == EmptyForm && editingId == None && banner == Cleared
      ensures Data() == old(Data()) && airlines == old(airlines) && searchTerm == old(searchTerm)
    {
      form, editingId, banner := EmptyForm, None, Cleared;
    }

    /** `handleDelete`: delete by id; success announces it and reloads, failure keeps the lists. */
    method Delete(id: nat, backendOk: bool, reload: Option<TabData>) returns (sent: Api.Request)
      requires Valid()
      modifies this
      ensures Valid() && searchTerm == old(searchTerm) && form == old(form) && editingId == old(editingId)
      ensures sent == Api.DeleteAirline(id)
      ensures backendOk ==>
                (reload.Some? ==> Data() == reload.value && banner == Notice(Deleted, Success))
                && (reload.None? ==> Data() == old(Data()) && banner == Notice(LoadFailed, Error))
      ensures !backendOk ==>
                Data() == old(Data()) && banner == Notice(DeleteFailed, Error)
    {
      sent := Api.DeleteAirline(id);
      if backendOk {
        banner := Notice(Deleted, Success);
        Load(reload);
      } else {
        banner := Notice(DeleteFailed, Error);
      }
    }
  }
}
