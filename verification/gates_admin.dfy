/**
 * The Gates admin tab: the gate list and its searched view, the airports
 * the select offers, the gate form (gate number, free-text status,
 * airport), the edited gate's id and the message banner.
 */
module GatesAdmin {
  import opened Opt
  import opened Text
  import opened ListView
  import opened Entities
  import Api

  datatype Form = Form(gateNumber: string, status: string, airportId: string)

  const EmptyForm := Form("", "", "")

  datatype TabData = TabData(gates: seq<Gate>, airports: seq<Airport>)

  const LoadFailed := "Failed to load gates or airports"
  const AirportMissing := "Please select an airport for the gate"
  const SubmitFailed := "Operation failed. Check if gate number is unique or airport exists."
  const Deleted := "Successfully deleted gate"
  const DeleteFailed := "Cannot delete gate: it may be used."

  /**
   * The search rule for a lower-cased term: the id's digits, the gate
   * number, the status, or the airport's code or name.
   */
  predicate Matches(g: Gate, term: string)
  {
    || Contains(NatToString(g.id), term)
    || FieldMatches(g.gateNumber, term)
    || FieldMatches(g.status, term)
    || (g.airport.Some? && (Contains(Lower(g.airport.value.code), term) || Contains(Lower(g.airport.value.name), term)))
  }

  lemma SearchSpec(all: seq<Gate>, term: string)
    ensures term == "" ==> SearchView(all, term, Matches) == all
    ensures IsSubsequence(SearchView(all, term, Matches), all)
    ensures forall g :: g in SearchView(all, term, Matches) <==> g in all && (term == "" || Matches(g, Lower(term)))
  {
    SearchViewSpec(all, term, Matches);
  }

  /** The gate number trimmed; a blank status becomes null, any other is trimmed. */
  function GatePayload(form: Form): (p: Api.Payload)
    ensures p.GateData?
    ensures p.gateNumber == Trim(form.gateNumber)
    ensures p.gateStatus.None? <==> IsBlank(form.status)
    ensures p.gateStatus.Some? ==> p.gateStatus.value == Trim(form.status) && p.gateStatus.value != ""
  {
    var status := Trim(form.status);
    Api.GateData(Trim(form.gateNumber), if status == "" then None else Some(status))
  }

  /**
   * The call a submit makes once an airport is chosen: an update of the
   * edited gate or a create, each carrying the chosen airport's id.
   */
  function SubmitRequest(form: Form, editingId: Option<nat>): (req: Api.Request)
    ensures req.body == GatePayload(form)
    ensures req.params.Keys <= {"airport_id"}
    ensures "airport_id" in req.params && req.params["airport_id"] == Some(ToNumber(form.airportId))
    ensures editingId.Some? ==> req.verb == Api.Put && req.target == Api.Item(Api.Gates, editingId.value)
    ensures editingId.None? ==> req.verb == Api.Post && req.target == Api.Collection(Api.Gates)
  {
    var airportId := Some(ToNumber(form.airportId) as int);
    if editingId.Some? then
      Api.UpdateGate(editingId.value, GatePayload(form), airportId)
    else
      Api.CreateGate(GatePayload(form), airportId)
  }

  function SuccessMessage(form: Form, editing: bool): string
  {
    (if editing then "Successfully updated gate: " else "Successfully added gate: ") + GatePayload(form).gateNumber
  }

  /** `startEdit`: a missing gate number or status becomes "", the airport its id string or "". */
  function EditForm(g: Gate): (form: Form)
    ensures form.gateNumber == OrElse(g.gateNumber, "") && form.status == OrElse(g.status, "")
    ensures form.airportId == "" <==> g.airport.None?
    ensures g.airport.Some? ==> ToNumber(form.airportId) == g.airport.value.id
  {
    SelectedIdRoundTrip(AirportId(g.airport));
    Form(OrElse(g.gateNumber, ""), OrElse(g.status, ""), SelectedId(AirportId(g.airport)))
  }

  /** Text with no surrounding white space, as the backend stores what this form sends. */
  predicate IsTrimmed(s: string)
  {
    s != [] ==> !IsSpace(s[0]) && !IsSpace(s[|s| - 1])
  }

  /**
   * Editing a gate and submitting unchanged: refused when the gate has no
   * airport; otherwise an update of that gate keeping its airport, and a
   * stored trimmed gate number and status are sent back as they were (a
   * missing or empty status stays null).
   */
  lemma EditThenSubmit(g: Gate)
    ensures EditForm(g).airportId == "" <==> g.airport.None?
    ensures g.airport.Some? ==>
              var req := SubmitRequest(EditForm(g), Some(g.id));
              && req.verb == Api.Put && req.target == Api.Item(Api.Gates, g.id)
              && req.params["airport_id"] == Some(g.airport.value.id)
    ensures g.gateNumber.Some? && IsTrimmed(g.gateNumber.value) ==>
              GatePayload(EditForm(g)).gateNumber == g.gateNumber.value
    ensures g.status.None? || g.status == Some("") ==> GatePayload(EditForm(g)).gateStatus.None?
    ensures g.status.Some? && g.status.value != "" && IsTrimmed(g.status.value) ==>
              GatePayload(EditForm(g)).gateStatus == g.status
  {
    if g.gateNumber.Some? && IsTrimmed(g.gateNumber.value) {
      TrimKeepsTrimmed(g.gateNumber.value);
    }
    if g.status.Some? && IsTrimmed(g.status.value) {
      TrimKeepsTrimmed(g.status.value);
    }
  }

  class GatesTab {
    var allGates: seq<Gate>
    var gates: seq<Gate>
    var airports: seq<Airport>
    var searchTerm: string
    var form: Form
    var editingId: Option<nat>
    var banner: Banner

    /** The displayed list is always the search view of the full list. */
    ghost predicate Valid()
      reads this
    {
      gates == SearchView(allGates, searchTerm, Matches)
    }

    /** The fetched lists: the full list and the lists the form's selects offer. */
    ghost function Data(): TabData
      reads this
    {
      TabData(allGates, airports)
    }

    constructor ()
      ensures Valid()
      ensures allGates == [] && airports == []
      ensures searchTerm == "" && form == EmptyForm && editingId == None && banner == Cleared
    {
      allGates, gates, airports := [], [], [];
      searchTerm := "";
      form := EmptyForm;
      editingId := None;
      banner := Cleared;
    }

    /** `loadData`: replace both lists with the fetched ones, or report the failure and keep them. */
    method Load(fetched: Option<TabData>)
      requires Valid()
      modifies this
      ensures Valid()
      ensures fetched.Some? ==> Data() == fetched.value
                                && banner == old(banner)
      ensures fetched.None? ==> Data() == old(Data())
                                && banner == Notice(LoadFailed, Error)
      ensures searchTerm == old(searchTerm) && form == old(form) && editingId == old(editingId)
    {
      if fetched.Some? {
        allGates, airports := fetched.value.gates, fetched.value.airports;
        gates := Search(allGates, searchTerm, Matches);
      } else {
        banner := Notice(LoadFailed, Error);
      }
    }

    method SetSearchTerm(term: string)
      requires Valid()
      modifies this
      ensures Valid() && searchTerm == term
      ensures Data() == old(Data())
      ensures form == old(form) && editingId == old(editingId) && banner == old(banner)
    {
      searchTerm := term;
      gates := Search(allGates, term, Matches);
    }

    /**
     * `handleSubmit`: refused without an airport; otherwise the update or
     * create goes out. Success resets the form, announces the gate and
     * reloads; failure keeps the form.
     */
    method Submit(backendOk: bool, reload: Option<TabData>) returns (sent: Option<Api.Request>)
      requires Valid()
      modifies this
      ensures Valid() && searchTerm == old(searchTerm)
      ensures old(form).airportId == "" ==>
                sent == None && form == old(form) && editingId == old(editingId)
                && Data() == old(Data()) && banner == Notice(AirportMissing, Error)
      ensures old(form).airportId != "" ==> sent == Some(SubmitRequest(old(form), old(editingId)))
      ensures sent.Some? && backendOk ==>
                form == EmptyForm && editingId == None
                && (reload.Some? ==> Data() == reload.value
                                     && banner == Notice(SuccessMessage(old(form), old(editingId).Some?), Success))
                && (reload.None? ==> Data() == old(Data()) && banner == Notice(LoadFailed, Error))
      ensures sent.Some? && !backendOk ==>
                form == old(form) && editingId == old(editingId) && Data() == old(Data())
                && banner == Notice(SubmitFailed, Error)
    {
      if form.airportId == "" {
        banner := Notice(AirportMissing, Error);
        sent := None;
        return;
      }
      sent := Some(SubmitRequest(form, editingId));
      Settle(backendOk, SuccessMessage(form, editingId.Some?), reload);
    }

    /** After the request: on success reset the form, announce it and reload; on failure keep the form. */
    method Settle(backendOk: bool, successText: string, reload: Option<TabData>)
      requires Valid()
      modifies this
      ensures Valid() && searchTerm == old(searchTerm)
      ensures backendOk ==>
                form == EmptyForm && editingId == None
                && (reload.Some? ==> Data() == reload.value && banner == Notice(successText, Success))
                && (reload.None? ==> Data() == old(Data()) && banner == Notice(LoadFailed, Error))
      ensures !backendOk ==>
                form == old(form) && editingId == old(editingId) && Data() == old(Data())
                && banner == Notice(SubmitFailed, Error)
    {
      if backendOk {
        form, editingId := EmptyForm, None;
        banner := Notice(successText, Success);
        Load(reload);
      } else {
        banner := Notice(SubmitFailed, Error);
      }
    }

    method StartEdit(g: Gate)
      requires Valid()
      modifies this
      ensures Valid()
      ensures form == EditForm(g) && editingId == Some(g.id) && banner == EditingNotice(g.id)
      ensures Data() == old(Data()) && gates == old(gates) && searchTerm == old(searchTerm)
    {
      form := EditForm(g);
      editingId := Some(g.id);
      banner := EditingNotice(g.id);
    }

    method ResetForm()
      requires Valid()
      modifies this
      ensures Valid()
      ensures form == EmptyForm && editingId == None && banner == Cleared
      ensures Data() == old(Data()) && gates == old(gates) && searchTerm == old(searchTerm)
    {
      form, editingId, banner := EmptyForm, None, Cleared;
    }

    /** `handleDelete`: delete by id; success announces it and reloads, failure keeps the lists. */
    method Delete(id: nat, backendOk: bool, reload: Option<TabData>) returns (sent: Api.Request)
      requires Valid()
      modifies this
      ensures Valid() && searchTerm == old(searchTerm) && form == old(form) && editingId == old(editingId)
      ensures sent == Api.DeleteGate(id)
      ensures backendOk ==>
                (reload.Some? ==> Data() == reload.value && banner == Notice(Deleted, Success))
                && (reload.None? ==> Data() == old(Data()) && banner == Notice(LoadFailed, Error))
      ensures !backendOk ==>
                Data() == old(Data()) && banner == Notice(DeleteFailed, Error)
    {
      sent := Api.DeleteGate(id);
      if backendOk {
        banner := Notice(Deleted, Success);
        Load(reload);
      } else {
        banner := Notice(DeleteFailed, Error);
      }
    }
  }
}
