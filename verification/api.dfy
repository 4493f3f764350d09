/**
 * The REST client of the admin console, reduced to the request each call
 * issues: verb, path, body and the query-parameter object. Relation ids
 * travel as query parameters; `None` stands for a parameter whose value is
 * `null`.
 */
module Api {
  import opened Opt
  import opened Text

  datatype Verb = Get | Post | Put | Delete

  datatype Resource = Cities | Passengers | Airports | Gates | Aircraft | Airlines | Flights

  function ResourceName(r: Resource): string
  {
    match r
    case Cities => "cities"
    case Passengers => "passengers"
    case Airports => "airports"
    case Gates => "gates"
    case Aircraft => "aircraft"
    case Airlines => "airlines"
    case Flights => "flights"
  }

  function ParseResource(name: string): Option<Resource>
  {
    if name == "cities" then Some(Cities)
    else if name == "passengers" then Some(Passengers)
    else if name == "airports" then Some(Airports)
    else if name == "gates" then Some(Gates)
    else if name == "aircraft" then Some(Aircraft)
    else if name == "airlines" then Some(Airlines)
    else if name == "flights" then Some(Flights)
    else None
  }

  /** What a path addresses: a collection, one item, a booking, or a flight's passenger list. */
  datatype Target =
    | Collection(resource: Resource)
    | Item(resource: Resource, id: nat)
    | Booking(flightId: nat, passengerId: nat)
    | FlightPassengers(flightId: nat)

  /** The `/`-separated segments of a target's path, after the leading `/`. */
  function Segments(t: Target): seq<string>
  {
    match t
    case Collection(r) => [ResourceName(r)]
    case Item(r, id) => [ResourceName(r), NatToString(id)]
    case Booking(f, p) => ["flights", NatToString(f), "passengers", NatToString(p)]
    case FlightPassengers(f) => ["flights", NatToString(f), "passengers"]
  }

  /** The path the client builds: "/cities", "/cities/{id}", "/flights/{f}/passengers/{p}", ... */
  function TargetPath(t: Target): string
  {
    "/" + Join(Segments(t), '/')
  }

  /** Reads the segments of a path back into the target they address. */
  function ParseSegments(segs: seq<string>): Option<Target>
  {
    if |segs| == 1 && ParseResource(segs[0]).Some? then
      Some(Collection(ParseResource(segs[0]).value))
    else if |segs| == 2 && ParseResource(segs[0]).Some? && IsDigits(segs[1]) then
      Some(Item(ParseResource(segs[0]).value, ToNumber(segs[1])))
    else if |segs| == 3 && segs[0] == "flights" && IsDigits(segs[1]) && segs[2] == "passengers" then
      Some(FlightPassengers(ToNumber(segs[1])))
    else if |segs| == 4 && segs[0] == "flights" && IsDigits(segs[1]) && segs[2] == "passengers"
            && IsDigits(segs[3]) then
      Some(Booking(ToNumber(segs[1]), ToNumber(segs[3])))
    else
      None
  }

  /** Reads a path back into the target it addresses (the backend's routing, in miniature). */
  function ParsePath(path: string): Option<Target>
  {
    if path != [] && path[0] == '/' then ParseSegments(Split(path[1..], '/')) else None
  }

  lemma DigitsHaveNoSlash(s: string)
    requires IsDigits(s)
    ensures '/' !in s
  {
  }

  lemma ParseResourceName(r: Resource)
    ensures ParseResource(ResourceName(r)) == Some(r)
  {
  }

  lemma ParseTargetSegments(t: Target)
    ensures ParseSegments(Segments(t)) == Some(t)
  {
    match t
    case Collection(r) => ParseResourceName(r);
    case Item(r, id) => ParseResourceName(r); ToNumberNatToString(id);
    case Booking(f, p) => ToNumberNatToString(f); ToNumberNatToString(p);
    case FlightPassengers(f) => ToNumberNatToString(f);
  }

  lemma SegmentsHaveNoSlash(t: Target)
    ensures forall i :: 0 <= i < |Segments(t)| ==> '/' !in Segments(t)[i]
  {
    match t
    case Collection(r) =>
    case Item(r, id) => DigitsHaveNoSlash(NatToString(id));
    case Booking(f, p) => DigitsHaveNoSlash(NatToString(f)); DigitsHaveNoSlash(NatToString(p));
    case FlightPassengers(f) => DigitsHaveNoSlash(NatToString(f));
  }

  /** Collections live at "/{resource}". */
  lemma CollectionPath(r: Resource)
    ensures TargetPath(Collection(r)) == "/" + ResourceName(r)
  {
  }

  /** Updates and deletes address "/{resource}/{id}". */
  lemma ItemPath(r: Resource, id: nat)
    ensures TargetPath(Item(r, id)) == "/" + ResourceName(r) + "/" + NatToString(id)
  {
    var segs := Segments(Item(r, id));
    assert segs[1..] == [NatToString(id)];
    assert Join(segs, '/') == ResourceName(r) + "/" + NatToString(id);
  }

  /** A booking is "/flights/{flightId}/passengers/{passengerId}". */
  lemma BookingPath(f: nat, p: nat)
    ensures TargetPath(Booking(f, p)) == "/flights/" + NatToString(f) + "/passengers/" + NatToString(p)
  {
    JoinFour("flights", NatToString(f), "passengers", NatToString(p), '/');
    BookingText(NatToString(f), NatToString(p));
  }

  lemma BookingText(fs: string, ps: string)
    ensures "/" + ("flights" + ['/'] + fs + ['/'] + "passengers" + ['/'] + ps) == "/flights/" + fs + "/passengers/" + ps
  {
  }

  lemma FlightPassengersPath(f: nat)
    ensures TargetPath(FlightPassengers(f)) == "/flights/" + NatToString(f) + "/passengers"
  {
    JoinThree("flights", NatToString(f), "passengers", '/');
    FlightPassengersText(NatToString(f));
  }

  lemma FlightPassengersText(fs: string)
    ensures "/" + ("flights" + ['/'] + fs + ['/'] + "passengers") == "/flights/" + fs + "/passengers"
  {
  }

  /** Every path the client builds routes back to the target it was built for. */
  lemma ParseTargetPath(t: Target)
    ensures ParsePath(TargetPath(t)) == Some(t)
  {
    var path := TargetPath(t);
    assert path[1..] == Join(Segments(t), '/');
    SegmentsHaveNoSlash(t);
    SplitJoin(Segments(t), '/');
    ParseTargetSegments(t);
  }

  /** Request bodies, one shape per entity kind (the JSON field `status` is `gateStatus`/`flightStatus` here). */
  datatype Payload =
    | NoBody
    | CityData(name: string, province: string, population: int)
    | PassengerData(firstName: string, lastName: string, phone: Option<string>)
    | AirportData(name: string, code: string)
    | GateData(gateNumber: string, gateStatus: Option<string>)
    | AircraftData(aircraftType: string, numberOfPassengers: int)
    | AirlineData(name: string, code: string)
    | FlightData(flightStatus: string, departureTime: Option<string>, arrivalTime: Option<string>)

  type Params = map<string, Option<int>>

  /** A request: its verb, what its path addresses, its body and its query parameters. */
  datatype Request = Request(verb: Verb, target: Target, body: Payload, params: Params)

  /** The URL path the request is sent to. */
  function Path(req: Request): string
  {
    TargetPath(req.target)
  }

  /** `if (value !== null && value !== undefined) params[key] = value;` */
  function WithOptional(params: Params, key: string, value: Option<int>): Params
  {
    if value.Some? then params[key := value] else params
  }

  // ---------------------------------------------------------------------
  // Reads

  function FetchAll(r: Resource): (req: Request)
    ensures req.verb == Get && req.body == NoBody && req.params == map[]
    ensures req.target == Collection(r)
  {
    Request(Get, Collection(r), NoBody, map[])
  }

  function GetFlightPassengers(flightId: nat): (req: Request)
    ensures req.verb == Get && req.body == NoBody && req.params == map[]
    ensures req.target == FlightPassengers(flightId)
  {
    Request(Get, FlightPassengers(flightId), NoBody, map[])
  }

  // ---------------------------------------------------------------------
  // Cities

  function CreateCity(data: Payload): (req: Request)
    ensures req.verb == Post && req.body == data && req.params == map[]
    ensures req.target == Collection(Cities)
  {
    Request(Post, Collection(Cities), data, map[])
  }

  function UpdateCity(id: nat, data: Payload): (req: Request)
    ensures req.verb == Put && req.body == data && req.params == map[]
    ensures req.target == Item(Cities, id)
  {
    Request(Put, Item(Cities, id), data, map[])
  }

  function DeleteCity(id: nat): (req: Request)
    ensures req.verb == Delete && req.body == NoBody && req.params == map[]
    ensures req.target == Item(Cities, id)
  {
    Request(Delete, Item(Cities, id), NoBody, map[])
  }

  // ---------------------------------------------------------------------
  // Passengers

  function CreatePassenger(data: Payload, cityId: Option<int>, flightId: Option<int>): (req: Request)
    ensures req.verb == Post && req.body == data
    ensures req.target == Collection(Passengers)
    ensures req.params.Keys <= {"city_id", "flight_id"}
    ensures "city_id" in req.params <==> cityId.Some?
    ensures "flight_id" in req.params <==> flightId.Some?
    ensures "city_id" in req.params ==> req.params["city_id"] == cityId
    ensures "flight_id" in req.params ==> req.params["flight_id"] == flightId
  {
    var params := WithOptional(WithOptional(map[], "city_id", cityId), "flight_id", flightId);
    Request(Post, Collection(Passengers), data, params)
  }

  function UpdatePassenger(id: nat, data: Payload, cityId: Option<int>): (req: Request)
    ensures req.verb == Put && req.body == data
    ensures req.target == Item(Passengers, id)
    ensures req.params.Keys <= {"city_id"}
    ensures "city_id" in req.params <==> cityId.Some?
    ensures "city_id" in req.params ==> req.params["city_id"] == cityId
  {
    Request(Put, Item(Passengers, id), data, WithOptional(map[], "city_id", cityId))
  }

  function DeletePassenger(id: nat): (req: Request)
    ensures req.verb == Delete && req.body == NoBody && req.params == map[]
    ensures req.target == Item(Passengers, id)
  {
    Request(Delete, Item(Passengers, id), NoBody, map[])
  }

  // ---------------------------------------------------------------------
  // Airports

  /** Unlike the update, the create always sends `city_id`, null or not. */
  function CreateAirport(data: Payload, cityId: Option<int>): (req: Request)
    ensures req.verb == Post && req.body == data
    ensures req.target == Collection(Airports)
    ensures req.params.Keys == {"city_id"} && req.params["city_id"] == cityId
  {
    Request(Post, Collection(Airports), data, map["city_id" := cityId])
  }

  function UpdateAirport(id: nat, data: Payload, cityId: Option<int>): (req: Request)
    ensures req.verb == Put && req.body == data
    ensures req.target == Item(Airports, id)
    ensures req.params.Keys <= {"city_id"}
    ensures "city_id" in req.params <==> cityId.Some?
    ensures "city_id" in req.params ==> req.params["city_id"] == cityId
  {
    Request(Put, Item(Airports, id), data, WithOptional(map[], "city_id", cityId))
  }

  function DeleteAirport(id: nat): (req: Request)
    ensures req.verb == Delete && req.body == NoBody && req.params == map[]
    ensures req.target == Item(Airports, id)
  {
    Request(Delete, Item(Airports, id), NoBody, map[])
  }

  // ---------------------------------------------------------------------
  // Gates

  function CreateGate(data: Payload, airportId: Option<int>): (req: Request)
    ensures req.verb == Post && req.body == data
    ensures req.target == Collection(Gates)
    ensures req.params.Keys == {"airport_id"} && req.params["airport_id"] == airportId
  {
    Request(Post, Collection(Gates), data, map["airport_id" := airportId])
  }

  function UpdateGate(id: nat, data: Payload, airportId: Option<int>): (req: Request)
    ensures req.verb == Put && req.body == data
    ensures req.target == Item(Gates, id)
    ensures req.params.Keys <= {"airport_id"}
    ensures "airport_id" in req.params <==> airportId.Some?
    ensures "airport_id" in req.params ==> req.params["airport_id"] == airportId
  {
    Request(Put, Item(Gates, id), data, WithOptional(map[], "airport_id", airportId))
  }

  function DeleteGate(id: nat): (req: Request)
    ensures req.verb == Delete && req.body == NoBody && req.params == map[]
    ensures req.target == Item(Gates, id)
  {
    Request(Delete, Item(Gates, id), NoBody, map[])
  }

  // ---------------------------------------------------------------------
  // Aircraft

  function CreateAircraft(data: Payload, airlineId: Option<int>): (req: Request)
    ensures req.verb == Post && req.body == data
    ensures req.target == Collection(Aircraft)
    ensures req.params.Keys == {"airline_id"} && req.params["airline_id"] == airlineId
  {
    Request(Post, Collection(Aircraft), data, map["airline_id" := airlineId])
  }

  function UpdateAircraft(id: nat, data: Payload, airlineId: Option<int>): (req: Request)
    ensures req.verb == Put && req.body == data
    ensures req.target == Item(Aircraft, id)
    ensures req.params.Keys <= {"airline_id"}
    ensures "airline_id" in req.params <==> airlineId.Some?
    ensures "airline_id" in req.params ==> req.params["airline_id"] == airlineId
  {
    Request(Put, Item(Aircraft, id), data, WithOptional(map[], "airline_id", airlineId))
  }

  function DeleteAircraft(id: nat): (req: Request)
    ensures req.verb == Delete && req.body == NoBody && req.params == map[]
    ensures req.target == Item(Aircraft, id)
  {
    Request(Delete, Item(Aircraft, id), NoBody, map[])
  }

  // ---------------------------------------------------------------------
  // Airlines

  function CreateAirline(data: Payload, cityId: Option<int>): (req: Request)
    ensures req.verb == Post && req.body == data
    ensures req.target == Collection(Airlines)
    ensures req.params.Keys <= {"city_id"}
    ensures "city_id" in req.params <==> cityId.Some?
    ensures "city_id" in req.params ==> req.params["city_id"] == cityId
  {
    Request(Post, Collection(Airlines), data, WithOptional(map[], "city_id", cityId))
  }

  function UpdateAirline(id: nat, data: Payload, cityId: Option<int>): (req: Request)
    ensures req.verb == Put && req.body == data
    ensures req.target == Item(Airlines, id)
    ensures req.params.Keys <= {"city_id"}
    ensures "city_id" in req.params <==> cityId.Some?
    ensures "city_id" in req.params ==> req.params["city_id"] == cityId
  {
    Request(Put, Item(Airlines, id), data, WithOptional(map[], "city_id", cityId))
  }

  function DeleteAirline(id: nat): (req: Request)
    ensures req.verb == Delete && req.body == NoBody && req.params == map[]
    ensures req.target == Item(Airlines, id)
  {
    Request(Delete, Item(Airlines, id), NoBody, map[])
  }

  // ---------------------------------------------------------------------
  // Flights and bookings

  function CreateFlight(data: Payload, params: Params): (req: Request)
    ensures req.verb == Post && req.body == data && req.params == params
    ensures req.target == Collection(Flights)
  {
    Request(Post, Collection(Flights), data, params)
  }

  function UpdateFlight(id: nat, data: Payload, params: Params): (req: Request)
    ensures req.verb == Put && req.body == data && req.params == params
    ensures req.target == Item(Flights, id)
  {
    Request(Put, Item(Flights, id), data, params)
  }

  function DeleteFlight(id: nat): (req: Request)
    ensures req.verb == Delete && req.body == NoBody && req.params == map[]
    ensures req.target == Item(Flights, id)
  {
    Request(Delete, Item(Flights, id), NoBody, map[])
  }

  function AddPassengerToFlight(flightId: nat, passengerId: nat): (req: Request)
    ensures req.verb == Post && req.body == NoBody && req.params == map[]
    ensures req.target == Booking(flightId, passengerId)
  {
    Request(Post, Booking(flightId, passengerId), NoBody, map[])
  }

  function RemovePassengerFromFlight(flightId: nat, passengerId: nat): (req: Request)
    ensures req.verb == Delete && req.body == NoBody && req.params == map[]
    ensures req.target == Booking(flightId, passengerId)
  {
    Request(Delete, Booking(flightId, passengerId), NoBody, map[])
  }

  /** Requests for different targets never share a path: each path names one target. */
  lemma PathsAreDistinct(t: Target, u: Target)
    requires t != u
    ensures TargetPath(t) != TargetPath(u)
  {
    ParseTargetPath(t);
    ParseTargetPath(u);
  }
}
