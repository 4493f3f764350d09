/**
 * The Cities admin tab: the city list and its searched view, the city
 * form (name, province, population), the edited city's id and the message
 * banner. A refused delete looks up the passengers to explain why.
 */
module CitiesAdmin {
  import opened Opt
  import opened Text
  import opened ListView
  import opened Entities
  import Api

  datatype Form = Form(name: string, province: string, population: string)

  const EmptyForm := Form("", "", "")

  const LoadFailed := "Failed to load cities"
  const SubmitFailed := "Operation failed. Please try again."
  const UnknownCity := "Unknown city"
  const LinkedPassengers := "one or more other feilds"

  /**
   * The search rule for a lower-cased term: the id's digits, the name, the
   * province or the population's digits.
   */
  predicate Matches(c: City, term: string)
  {
    || Contains(NatToString(c.id), term)
    || Contains(Lower(c.name), term)
    || FieldMatches(c.province, term)
    || Contains(NatToString(c.population), term)
  }

  lemma SearchSpec(all: seq<City>, term: string)
    ensures term == "" ==> SearchView(all, term, Matches) == all
    ensures IsSubsequence(SearchView(all, term, Matches), all)
    ensures forall c :: c in SearchView(all, term, Matches) <==> c in all && (term == "" || Matches(c, Lower(term)))
  {
    SearchViewSpec(all, term, Matches);
  }

  /** Name and province trimmed; the population is the typed number, or 0 for anything that is not one. */
  function CityPayload(form: Form): (p: Api.Payload)
    ensures p.CityData?
    ensures p.name == Trim(form.name) && p.province == Trim(form.province)
    ensures p.population >= 0
    ensures !IsDigits(form.population) ==> p.population == 0
    ensures forall n: nat :: form.population == NatToString(n) ==> p.population == n
  {
    forall n: nat | form.population == NatToString(n)
      ensures ToNumber(form.population) == n
    {
      ToNumberNatToString(n);
    }
    Api.CityData(Trim(form.name), Trim(form.province), ToNumber(form.population))
  }

  /** The call a submit makes: an update of the edited city or a create, with no query parameters. */
  function SubmitRequest(form: Form, editingId: Option<nat>): (req: Api.Request)
    ensures req.body == CityPayload(form) && req.params == map[]
    ensures editingId.Some? ==> req.verb == Api.Put && req.target == Api.Item(Api.Cities, editingId.value)
    ensures editingId.None? ==> req.verb == Api.Post && req.target == Api.Collection(Api.Cities)
  {
    if editingId.Some? then Api.UpdateCity(editingId.value, CityPayload(form)) else Api.CreateCity(CityPayload(form))
  }

  function SuccessMessage(form: Form, editing: bool): string
  {
    (if editing then "Successfully updated city: " else "Successfully added city: ") + CityPayload(form).name
  }

  /** `startEdit`: the name copied, a missing province as "", the population as its digits. */
  function EditForm(c: City): (form: Form)
    ensures form.name == c.name && form.province == OrElse(c.province, "")
    ensures IsDigits(form.population) && ToNumber(form.population) == c.population
  {
    ToNumberNatToString(c.population);
    Form(c.name, OrElse(c.province, ""), NatToString(c.population))
  }

  /**
   * Editing a city and submitting unchanged updates that city with its
   * population; a city without a province is sent back with an empty one.
   */
  lemma EditThenSubmit(c: City)
    ensures var req := SubmitRequest(EditForm(c), Some(c.id));
            && req.verb == Api.Put && req.target == Api.Item(Api.Cities, c.id)
            && req.body.population == c.population
            && (c.province.None? ==> req.body.province == "")
  {
  }

  function HasId(id: nat): City -> bool { (c: City) => c.id == id }

  /** The name the delete messages use: the found city's name, or "Unknown city". */
  function CityName(found: Option<City>): string
  {
    if found.Some? then found.value.name else UnknownCity
  }

  function LivesIn(cityId: nat): Passenger -> bool
  {
    (p: Passenger) => p.city.Some? && p.city.value.id == cityId
  }

  /**
   * The reasons a refused delete lists: the linked-passenger reason when
   * the passenger fetch succeeded and some passenger lives in the city,
   * nothing otherwise (a failed fetch is ignored).
   */
  function AttachedTo(fetched: Option<seq<Passenger>>, cityId: nat): (reasons: seq<string>)
    ensures |reasons| <= 1
    ensures reasons != [] <==> fetched.Some? && exists p :: p in fetched.value && LivesIn(cityId)(p)
    ensures reasons != [] ==> reasons[0] == LinkedPassengers
  {
    if fetched.Some? then
      var linked := Filter(fetched.value, LivesIn(cityId));
      if |linked| > 0 then
        FilterMembership(fetched.value, LivesIn(cityId), linked[0]);
        [LinkedPassengers]
      else
        assert forall p :: p in fetched.value && LivesIn(cityId)(p) ==> p in linked by {
          forall p | p in fetched.value && LivesIn(cityId)(p) ensures p in linked {
            FilterMembership(fetched.value, LivesIn(cityId), p);
          }
        }
        []
    else
      []
  }

  /** `parts.join(" and ")`. */
  function JoinAnd(parts: seq<string>): string
    decreases |parts|
  {
    if parts == [] then "" else if |parts| == 1 then parts[0] else parts[0] + " and " + JoinAnd(parts[1..])
  }

  /**
   * The error shown when the backend refuses a city delete: it names the
   * city and says it is attached to "one or more other feilds" exactly when
   * a fetched passenger lives in it, and to "related records" otherwise.
   */
  function DeleteFailureMessage(cityName: string, fetched: Option<seq<Passenger>>, cityId: nat): (msg: string)
    ensures (fetched.Some? && exists p :: p in fetched.value && LivesIn(cityId)(p)) ==>
              msg == "Cannot delete city: " + cityName + " because it is attached to " + LinkedPassengers + "."
    ensures !(fetched.Some? && exists p :: p in fetched.value && LivesIn(cityId)(p)) ==>
              msg == "Cannot delete city: " + cityName + " because it is attached to related records."
  {
    var attached := AttachedTo(fetched, cityId);
    var prefix := "Cannot delete city: " + cityName;
    if |attached| > 0 then prefix + " because it is attached to " + JoinAnd(attached) + "."
    else prefix + " because it is attached to related records."
  }

  /** The two refusal messages never coincide, so the message tells whether passengers were found. */
  lemma DeleteFailureMessagesDiffer(cityName: string, cityId: nat, passengers: seq<Passenger>)
    ensures DeleteFailureMessage(cityName, Some(passengers), cityId) == DeleteFailureMessage(cityName, None, cityId)
            <==> forall p :: p in passengers ==> !LivesIn(cityId)(p)
  {
    var linked := "Cannot delete city: " + cityName + " because it is attached to " + LinkedPassengers + ".";
    var related := "Cannot delete city: " + cityName + " because it is attached to related records.";
    var k := |"Cannot delete city: " + cityName + " because it is attached to "|;
    assert linked[k] == 'o' && related[k] == 'r';
  }

  class CitiesTab {
    var cities: seq<City>
    var filteredCities: seq<City>
    var searchTerm: string
    var form: Form
    var editingId: Option<nat>
    var banner: Banner

    /** The displayed list is always the search view of the full list. */
    ghost predicate Valid()
      reads this
    {
      filteredCities == SearchView(cities, searchTerm, Matches)
    }

    constructor ()
      ensures Valid()
      ensures cities == []
      ensures searchTerm == "" && form == EmptyForm && editingId == None && banner == Cleared
    {
      cities, filteredCities := [], [];
      searchTerm := "";
      form := EmptyForm;
      editingId := None;
      banner := Cleared;
    }

    /** `loadCities`: replace the list with the fetched one, or report the failure and keep it. */
    method Load(fetched: Option<seq<City>>)
      requires Valid()
      modifies this
      ensures Valid()
      ensures fetched.Some? ==> cities == fetched.value && banner == old(banner)
      ensures fetched.None? ==> cities == old(cities) && banner == Notice(LoadFailed, Error)
      ensures searchTerm == old(searchTerm) && form == old(form) && editingId == old(editingId)
    {
      if fetched.Some? {
        cities := fetched.value;
        filteredCities := Search(cities, searchTerm, Matches);
      } else {
        banner := Notice(LoadFailed, Error);
      }
    }

    method SetSearchTerm(term: string)
      requires Valid()
      modifies this
      ensures Valid() && searchTerm == term
      ensures cities == old(cities) && form == old(form) && editingId == old(editingId) && banner == old(banner)
    {
      searchTerm := term;
      filteredCities := Search(cities, term, Matches);
    }

    /**
     * `handleSubmit`: the update or create always goes out. Success resets
     * the form, announces the city and reloads; failure keeps the form.
     */
    method Submit(backendOk: bool, reload: Option<seq<City>>) returns (sent: Api.Request)
      requires Valid()
      modifies this
      ensures Valid() && searchTerm == old(searchTerm)
      ensures sent == SubmitRequest(old(form), old(editingId))
      ensures backendOk ==>
                form == EmptyForm && editingId == None
                && (reload.Some? ==> cities == reload.value
                                     && banner == Notice(SuccessMessage(old(form), old(editingId).Some?), Success))
                && (reload.None? ==> cities == old(cities) && banner == Notice(LoadFailed, Error))
      ensures !backendOk ==>
                form == old(form) && editingId == old(editingId) && cities == old(cities)
                && banner == Notice(SubmitFailed, Error)
    {
      sent := SubmitRequest(form, editingId);
      if backendOk {
        var successText := SuccessMessage(form, editingId.Some?);
        form, editingId := EmptyForm, None;
        banner := Notice(successText, Success);
        Load(reload);
      } else {
        banner := Notice(SubmitFailed, Error);
      }
    }

    method StartEdit(c: City)
      requires Valid()
      modifies this
      ensures Valid()
      ensures form == EditForm(c) && editingId == Some(c.id) && banner == EditingNotice(c.id)
      ensures cities == old(cities) && filteredCities == old(filteredCities) && searchTerm == old(searchTerm)
    {
      form := EditForm(c);
      editingId := Some(c.id);
      banner := EditingNotice(c.id);
    }

    method ResetForm()
      requires Valid()
      modifies this
      ensures Valid()
      ensures form == EmptyForm && editingId == None && banner == Cleared
      ensures cities == old(cities) && filteredCities == old(filteredCities) && searchTerm == old(searchTerm)
    {
      form, editingId, banner := EmptyForm, None, Cleared;
    }

    /**
     * `handleDelete`: the city is named from the full list. On success the
     * deletion is announced and the list reloaded; on failure the
     * passengers are fetched to explain the refusal and the list is kept.
     */
    method Delete(id: nat, deleteOk: bool, passengersFetch: Option<seq<Passenger>>, reload: Option<seq<City>>)
      returns (calls: seq<Api.Request>)
      requires Valid()
      modifies this
      ensures Valid() && searchTerm == old(searchTerm) && form == old(form) && editingId == old(editingId)
      ensures deleteOk ==>
                calls == [Api.DeleteCity(id)]
                && (reload.Some? ==>
                      cities == reload.value
                      && banner == Notice("Successfully deleted city: " + CityName(First(old(cities), HasId(id))), Success))
                && (reload.None? ==> cities == old(cities) && banner == Notice(LoadFailed, Error))
      ensures !deleteOk ==>
                calls == [Api.DeleteCity(id), Api.FetchAll(Api.Passengers)] && cities == old(cities)
                && banner == Notice(DeleteFailureMessage(CityName(First(old(cities), HasId(id))), passengersFetch, id), Error)
    {
      var cityName := CityName(First(cities, HasId(id)));
      calls := [Api.DeleteCity(id)];
      if deleteOk {
        banner := Notice("Successfully deleted city: " + cityName, Success);
        Load(reload);
      } else {
        calls := calls + [Api.FetchAll(Api.Passengers)];
        banner := Notice(DeleteFailureMessage(cityName, passengersFetch, id), Error);
      }
    }
  }
}
