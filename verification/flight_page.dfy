/**
 * The flight details page: the flight time between departure and arrival,
 * the airline-code flight number, the placeholder for a missing date and
 * the defaults the card shows for missing fields. Instants reach this model
 * as integer milliseconds; formatting a present date is the browser's.
 */
module FlightPage {
  import opened Opt
  import opened Text
  import opened Entities

  const Dash := "—"

  // ---------------------------------------------------------------------
  // Flight time

  /** "{hours}h {mm}m" for a whole number of minutes; the minutes below 10 get a leading zero. */
  function DurationText(minutes: nat): string
  {
    NatToString(minutes / 60) + "h " + Pad2(minutes % 60) + "m"
  }

  /**
   * The text reads back as the duration: the hours before "h ", times 60,
   * plus the two minute digits before the final "m".
   */
  lemma DurationTextRoundTrip(minutes: nat)
    ensures var r := DurationText(minutes);
            var n := |r|;
            && n >= 6 && r[n - 1] == 'm' && r[n - 5..n - 3] == "h "
            && IsDigits(r[..n - 5]) && IsDigits(r[n - 3..n - 1])
            && ToNumber(r[..n - 5]) * 60 + ToNumber(r[n - 3..n - 1]) == minutes
  {
    var hours, mm := NatToString(minutes / 60), Pad2(minutes % 60);
    var r := DurationText(minutes);
    assert r == hours + "h " + mm + "m";
    var n := |r|;
    assert r[..n - 5] == hours;
    assert r[n - 3..n - 1] == mm;
    ToNumberNatToString(minutes / 60);
  }

  /**
   * `computeDuration`: a dash when either time is missing or the arrival is
   * not after the departure; otherwise the whole minutes between them.
   */
  function ComputeDuration(start: Option<int>, end: Option<int>): (r: string)
    ensures r == Dash <==> start.None? || end.None? || end.value <= start.value
    ensures r != Dash ==> r == DurationText((end.value - start.value) / 60000)
    ensures r != Dash ==> IsDigit(r[0])
  {
    if start.None? || end.None? then Dash
    else
      var diffMs := end.value - start.value;
      if diffMs <= 0 then Dash
      else
        var r := DurationText(diffMs / 60000);
        assert r[0] == NatToString(diffMs / 60000 / 60)[0];
        r
  }

  /** The whole minutes shown never exceed the milliseconds between the two times. */
  lemma DurationWithinInterval(start: int, end: int)
    requires start < end
    ensures var minutes := (end - start) / 60000;
            minutes * 60000 <= end - start < (minutes + 1) * 60000
            && ComputeDuration(Some(start), Some(end)) == DurationText(minutes)
  {
  }

  // ---------------------------------------------------------------------
  // Labels and defaults

  /** The airline code upper-cased followed by the id, or "Error" and the id when there is no code. */
  function FlightNumberLabel(f: Flight): (r: string)
    ensures var code := if f.airline.Some? then f.airline.value.code else None;
            && (code.Some? && code.value != "" ==> r == Upper(code.value) + NatToString(f.id))
            && (code.None? || code.value == "" ==> r == "Error" + NatToString(f.id))
  {
    var code := if f.airline.Some? then f.airline.value.code else None;
    if code.Some? && code.value != "" then Upper(code.value) + NatToString(f.id) else "Error" + NatToString(f.id)
  }

  /** The label always ends with the flight id. */
  lemma FlightNumberEndsWithId(f: Flight)
    ensures var r := FlightNumberLabel(f);
            var id := NatToString(f.id);
            |id| <= |r| && r[|r| - |id|..] == id
  {
    var r := FlightNumberLabel(f);
    var id := NatToString(f.id);
    var code := if f.airline.Some? then f.airline.value.code else None;
    if code.Some? && code.value != "" {
      assert r == Upper(code.value) + id;
    } else {
      assert r == "Error" + id;
    }
  }

  /** The three formatted parts of a date. */
  datatype DateParts = DateParts(weekday: string, dateLong: string, timeWithZone: string)

  /**
   * `formatFullDate`: a dash in every part for a missing or empty date;
   * otherwise the browser's long date and zoned time.
   */
  function FormatFullDate(dateString: Option<string>, format: string -> DateParts): (parts: DateParts)
    ensures dateString.None? || dateString.value == "" ==> parts == DateParts(Dash, Dash, Dash)
    ensures dateString.Some? && dateString.value != "" ==> parts == format(dateString.value)
  {
    if dateString.None? || dateString.value == "" then DateParts(Dash, Dash, Dash) else format(dateString.value)
  }

  /** The texts the card shows for fields that may be missing. */
  datatype Card = Card(airlineName: string, departureCode: string, arrivalCode: string,
                       departureGate: string, arrivalGate: string, aircraft: string, status: string)

  function GateNumber(g: Option<Gate>): Option<string>
  {
    if g.Some? then g.value.gateNumber else None
  }

  function AirportCode(a: Option<Airport>): Option<string>
  {
    if a.Some? then Some(a.value.code) else None
  }

  /** A field shown as stored when present and non-empty, otherwise as its fallback. */
  predicate ShowsOr(shown: string, value: Option<string>, fallback: string)
  {
    if value.Some? && value.value != "" then shown == value.value else shown == fallback
  }

  /**
   * The card of a flight: "Unknown Airline", "?" for an airport code, "-"
   * for a gate, "Unknown" for the aircraft and "Scheduled" for the status
   * whenever the stored value is missing or empty. No shown field is empty.
   */
  function CardOf(f: Flight): (card: Card)
    ensures ShowsOr(card.airlineName, if f.airline.Some? then f.airline.value.name else None, "Unknown Airline")
    ensures ShowsOr(card.departureCode, AirportCode(f.departureAirport), "?")
    ensures ShowsOr(card.arrivalCode, AirportCode(f.arrivalAirport), "?")
    ensures ShowsOr(card.departureGate, GateNumber(f.departureGate), "-")
    ensures ShowsOr(card.arrivalGate, GateNumber(f.arrivalGate), "-")
    ensures ShowsOr(card.aircraft, if f.aircraft.Some? then f.aircraft.value.aircraftType else None, "Unknown")
    ensures ShowsOr(card.status, f.status, "Scheduled")
    ensures card.airlineName != "" && card.departureGate != "" && card.arrivalGate != ""
            && card.aircraft != "" && card.status != ""
  {
    Card(OrElse(if f.airline.Some? then f.airline.value.name else None, "Unknown Airline"),
         OrElse(AirportCode(f.departureAirport), "?"),
         OrElse(AirportCode(f.arrivalAirport), "?"),
         OrElse(GateNumber(f.departureGate), "-"),
         OrElse(GateNumber(f.arrivalGate), "-"),
         OrElse(if f.aircraft.Some? then f.aircraft.value.aircraftType else None, "Unknown"),
         OrElse(f.status, "Scheduled"))
  }
}
