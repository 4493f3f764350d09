/**
 * The records the admin console receives from the backend, as the tabs read
 * them (related entities are nested objects, any of which may be null), and
 * the status banner every tab shows above its list.
 */
module Entities {
  import opened Opt
  import opened Text

  datatype City = City(id: nat, name: string, province: Option<string>, population: nat)

  datatype Airport = Airport(id: nat, name: string, code: string, city: Option<City>)

  datatype Gate = Gate(id: nat, gateNumber: Option<string>, status: Option<string>, airport: Option<Airport>)

  datatype Airline = Airline(id: nat, name: Option<string>, code: Option<string>, city: Option<City>)

  datatype Aircraft = Aircraft(id: nat, aircraftType: Option<string>, numberOfPassengers: nat,
                               airline: Option<Airline>)

  /** `passengers` holds the ids of the booked passengers; only its length is used. */
  datatype Flight = Flight(
    id: nat,
    status: Option<string>,
    departureTime: Option<string>,
    arrivalTime: Option<string>,
    departureAirport: Option<Airport>,
    arrivalAirport: Option<Airport>,
    departureGate: Option<Gate>,
    arrivalGate: Option<Gate>,
    aircraft: Option<Aircraft>,
    airline: Option<Airline>,
    passengers: Option<seq<nat>>)

  datatype Passenger = Passenger(id: nat, firstName: string, lastName: string, phone: Option<string>,
                                 city: Option<City>, flights: Option<seq<Flight>>)

  datatype MessageKind = Success | Error

  /**
   * The message area of a tab: nothing, a success or error notice, or the
   * "Now editing ..." panel for the entity with the given id.
   */
  datatype Banner = Cleared | Notice(text: string, kind: MessageKind) | EditingNotice(id: nat)

  /** JavaScript `value || fallback` on an optional string: empty and missing both fall back. */
  function OrElse(value: Option<string>, fallback: string): string
  {
    if value.Some? && value.value != "" then value.value else fallback
  }

  /** `value && value.toLowerCase().includes(term)`: a missing field never matches. */
  predicate FieldMatches(value: Option<string>, term: string)
  {
    value.Some? && Contains(Lower(value.value), term)
  }

  /** The `<select>` value for a related entity: its id as a string, or "" when there is none. */
  function SelectedId(id: Option<nat>): string
  {
    if id.Some? then NatToString(id.value) else ""
  }

  function CityId(c: Option<City>): Option<nat> { if c.Some? then Some(c.value.id) else None }

  function AirportId(a: Option<Airport>): Option<nat> { if a.Some? then Some(a.value.id) else None }

  function AirlineId(a: Option<Airline>): Option<nat> { if a.Some? then Some(a.value.id) else None }

  /** Selecting an entity and submitting sends its id back: `Number(id.toString()) === id`. */
  lemma SelectedIdRoundTrip(id: Option<nat>)
    ensures SelectedId(id) == "" <==> id.None?
    ensures id.Some? ==> ToNumber(SelectedId(id)) == id.value
  {
    if id.Some? {
      ToNumberNatToString(id.value);
    }
  }
  /**
   * A three-letter code input: the browser keeps at most three typed
   * characters (`maxLength`) and the handler upper-cases what it receives.
   */
  function CodeInput(typed: string): (r: string)
    ensures |r| == if |typed| <= 3 then |typed| else 3
    ensures forall i :: 0 <= i < |r| ==> r[i] == UpperChar(typed[i])
    ensures forall i :: 0 <= i < |r| ==> !IsLowerAscii(r[i])
  {
    Upper(if |typed| <= 3 then typed else typed[..3])
  }
}
