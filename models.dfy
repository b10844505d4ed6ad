/** Domain records of the optimizer (src/core/models.py) and their dictionary
    forms. A Python dictionary, list or scalar is a `Value`; `to_dict` builds one
    and `from_dict` reads one back, failing where Python would raise. */
module Models {
  import opened Wrappers
  import Strings

  /** The Python values that appear in the serialised records. */
  datatype Value =
    | VNone
    | VBool(b: bool)
    | VInt(i: int)
    | VFloat(f: real)
    | VStr(s: string)
    | VList(items: seq<Value>)
    | VTuple(elems: seq<Value>)
    | VDict(entries: map<string, Value>)

  /** Python truthiness, as `if x:` tests it. */
  predicate Truthy(v: Value) {
    match v
    case VNone => false
    case VBool(b) => b
    case VInt(i) => i != 0
    case VFloat(f) => f != 0.0
    case VStr(s) => s != ""
    case VList(xs) => xs != []
    case VTuple(xs) => xs != []
    case VDict(m) => m != map[]
  }

  /** `dict.get(key)`: the value under `key`, or `None` when it is absent. */
  function Get(data: map<string, Value>, key: string): (v: Value)
    ensures key !in data ==> v == VNone
  {
    if key in data then data[key] else VNone
  }

  /** Why reading a dictionary back fails: `data[key]` on a missing key
      (KeyError), indexing something that is not a dictionary, a field of the
      wrong kind, or text that `datetime.fromisoformat` refuses (ValueError). */
  datatype DecodeError =
    | MissingKey(key: string)
    | NotADict
    | WrongType(key: string)
    | BadIsoFormat(text: string)

  /** A `datetime`, as whole seconds from a fixed epoch. */
  datatype DateTime = DateTime(stamp: nat)

  /** `datetime.isoformat()`: the decimal text of the stamp stands for the ISO
      text; what matters is that it is never empty and `FromIsoFormat` inverts it. */
  function IsoFormat(t: DateTime): (text: string)
    ensures text != ""
  {
    Strings.NatToString(t.stamp)
  }

  /** `datetime.fromisoformat(text)`. */
  function FromIsoFormat(text: string): Result<DateTime, DecodeError> {
    match Strings.ParseNat(text)
    case Some(n) => Ok(DateTime(n))
    case None => Err(BadIsoFormat(text))
  }

  lemma IsoFormatRoundTrip(t: DateTime)
    ensures FromIsoFormat(IsoFormat(t)) == Ok(t)
  {
    Strings.ParseNatToString(t.stamp);
  }

  // ---------------------------------------------------------------- Location

  datatype Location = Location(city: string, state: string, lat: Option<real>, lng: Option<real>)

  function OptionalFloat(x: Option<real>): Value {
    match x
    case Some(f) => VFloat(f)
    case None => VNone
  }

  /** `Location.to_dict`. */
  function LocationToDict(l: Location): Value {
    VDict(map["city" := VStr(l.city), "state" := VStr(l.state),
              "lat" := OptionalFloat(l.lat), "lng" := OptionalFloat(l.lng)])
  }

  /** `data[key]` where the value must be text. */
  function RequiredStr(data: map<string, Value>, key: string): Result<string, DecodeError> {
    if key !in data then Err(MissingKey(key))
    else if data[key].VStr? then Ok(data[key].s)
    else Err(WrongType(key))
  }

  /** `data[key]` where the value must be an integer. */
  function RequiredInt(data: map<string, Value>, key: string): Result<int, DecodeError> {
    if key !in data then Err(MissingKey(key))
    else if data[key].VInt? then Ok(data[key].i)
    else Err(WrongType(key))
  }

  /** `data.get(key)` where the value, if any, is a number: a float, or an
      integer standing for the float of the same value. */
  function OptionalFloatField(data: map<string, Value>, key: string): Result<Option<real>, DecodeError> {
    match Get(data, key)
    case VNone => Ok(None)
    case VFloat(f) => Ok(Some(f))
    case VInt(i) => Ok(Some(i as real))
    case _ => Err(WrongType(key))
  }

  /** `Location.from_dict`: city and state are required, lat and lng default
      to None. */
  function LocationFromDict(data: Value): (r: Result<Location, DecodeError>)
    ensures r.Ok? ==> data.VDict? && "city" in data.entries && "state" in data.entries
    ensures r.Ok? && "lat" !in data.entries ==> r.value.lat == None
    ensures r.Ok? && "lng" !in data.entries ==> r.value.lng == None
  {
    if !data.VDict? then Err(NotADict)
    else
      var d := data.entries;
      var city :- RequiredStr(d, "city");
      var state :- RequiredStr(d, "state");
      var lat :- OptionalFloatField(d, "lat");
      var lng :- OptionalFloatField(d, "lng");
      Ok(Location(city, state, lat, lng))
  }

  /** A dictionary holding only a city and a state reads back with no
      coordinates. */
  lemma LocationWithoutCoordinates(city: string, state: string)
    ensures LocationFromDict(VDict(map["city" := VStr(city), "state" := VStr(state)]))
         == Ok(Location(city, state, None, None))
  {
  }

  /** A whole-number coordinate, as JSON `42` decodes, is read as that
      number. */
  lemma IntegerCoordinateAccepted(city: string, state: string, lat: int)
    ensures LocationFromDict(VDict(map["city" := VStr(city), "state" := VStr(state), "lat" := VInt(lat)]))
            == Ok(Location(city, state, Some(lat as real), None))
  {
  }

  lemma LocationRoundTrip(l: Location)
    ensures LocationFromDict(LocationToDict(l)) == Ok(l)
  {
  }

  // ---------------------------------------------------------------- Shipment

  datatype Shipment = Shipment(
    id: string,
    origin: Location,
    destination: Location,
    palletCount: int,
    volume: Option<real>,
    weight: Option<real>,
    pickupTime: Option<DateTime>,
    deliveryTime: Option<DateTime>)

  /** `t.isoformat() if t else None`; a datetime is always truthy. */
  function OptionalTime(t: Option<DateTime>): (v: Value)
    ensures t.None? <==> v == VNone
    ensures t.Some? ==> v.VStr? && Truthy(v)
  {
    match t
    case Some(x) => VStr(IsoFormat(x))
    case None => VNone
  }

  /** `Shipment.to_dict`. */
  function ShipmentToDict(s: Shipment): Value {
    VDict(map[
      "id" := VStr(s.id),
      "origin" := LocationToDict(s.origin),
      "destination" := LocationToDict(s.destination),
      "pallet_count" := VInt(s.palletCount),
      "volume" := OptionalFloat(s.volume),
      "weight" := OptionalFloat(s.weight),
      "pickup_time" := OptionalTime(s.pickupTime),
      "delivery_time" := OptionalTime(s.deliveryTime)])
  }

  /** `datetime.fromisoformat(data[key]) if data.get(key) else None`: a missing,
      None or empty value reads as no time; other truthy non-text raises. */
  function OptionalTimeField(data: map<string, Value>, key: string): (r: Result<Option<DateTime>, DecodeError>)
    ensures !Truthy(Get(data, key)) ==> r == Ok(None)
    ensures Get(data, key) == VStr("") ==> r == Ok(None)
  {
    var v := Get(data, key);
    if !Truthy(v) then Ok(None)
    else if !v.VStr? then Err(WrongType(key))
    else
      var t :- FromIsoFormat(v.s);
      Ok(Some(t))
  }

  /** `Shipment.from_dict`, reading the fields in the order the constructor
      call evaluates them. */
  function ShipmentFromDict(data: Value): (r: Result<Shipment, DecodeError>)
    ensures r.Ok? ==> data.VDict? && "id" in data.entries && "pallet_count" in data.entries
    ensures r.Ok? && !Truthy(Get(data.entries, "pickup_time")) ==> r.value.pickupTime == None
    ensures r.Ok? && !Truthy(Get(data.entries, "delivery_time")) ==> r.value.deliveryTime == None
  {
    if !data.VDict? then Err(NotADict)
    else
      var d := data.entries;
      var id :- RequiredStr(d, "id");
      var origin :- if "origin" in d then LocationFromDict(d["origin"]) else Err(MissingKey("origin"));
      var destination :- if "destination" in d then LocationFromDict(d["destination"]) else Err(MissingKey("destination"));
      var palletCount :- RequiredInt(d, "pallet_count");
      var volume :- OptionalFloatField(d, "volume");
      var weight :- OptionalFloatField(d, "weight");
      var pickupTime :- OptionalTimeField(d, "pickup_time");
      var deliveryTime :- OptionalTimeField(d, "delivery_time");
      Ok(Shipment(id, origin, destination, palletCount, volume, weight, pickupTime, deliveryTime))
  }

  lemma OptionalTimeRoundTrip(data: map<string, Value>, key: string, t: Option<DateTime>)
    requires key in data && data[key] == OptionalTime(t)
    ensures OptionalTimeField(data, key) == Ok(t)
  {
    if t.Some? {
      IsoFormatRoundTrip(t.value);
    }
  }

  /** `ShipmentFromDict` succeeds with `s` when every field reads back as
      the corresponding field of `s`. */
  lemma ShipmentFromFields(d: map<string, Value>, s: Shipment)
    requires RequiredStr(d, "id") == Ok(s.id)
    requires "origin" in d && LocationFromDict(d["origin"]) == Ok(s.origin)
    requires "destination" in d && LocationFromDict(d["destination"]) == Ok(s.destination)
    requires RequiredInt(d, "pallet_count") == Ok(s.palletCount)
    requires OptionalFloatField(d, "volume") == Ok(s.volume)
    requires OptionalFloatField(d, "weight") == Ok(s.weight)
    requires OptionalTimeField(d, "pickup_time") == Ok(s.pickupTime)
    requires OptionalTimeField(d, "delivery_time") == Ok(s.deliveryTime)
    ensures ShipmentFromDict(VDict(d)) == Ok(s)
  {
  }

  lemma RequiredFieldsRoundTrip(s: Shipment)
    ensures var d := ShipmentToDict(s).entries;
            && RequiredStr(d, "id") == Ok(s.id)
            && "origin" in d && LocationFromDict(d["origin"]) == Ok(s.origin)
            && "destination" in d && LocationFromDict(d["destination"]) == Ok(s.destination)
            && RequiredInt(d, "pallet_count") == Ok(s.palletCount)
  {
    var d := ShipmentToDict(s).entries;
    assert d["origin"] == LocationToDict(s.origin);
    assert d["destination"] == LocationToDict(s.destination);
    LocationRoundTrip(s.origin);
    LocationRoundTrip(s.destination);
  }

  lemma OptionalFieldsRoundTrip(s: Shipment)
    ensures var d := ShipmentToDict(s).entries;
            && OptionalFloatField(d, "volume") == Ok(s.volume)
            && OptionalFloatField(d, "weight") == Ok(s.weight)
            && OptionalTimeField(d, "pickup_time") == Ok(s.pickupTime)
            && OptionalTimeField(d, "delivery_time") == Ok(s.deliveryTime)
  {
    var d := ShipmentToDict(s).entries;
    assert Get(d, "volume") == OptionalFloat(s.volume);
    assert Get(d, "weight") == OptionalFloat(s.weight);
    OptionalTimeRoundTrip(d, "pickup_time", s.pickupTime);
    OptionalTimeRoundTrip(d, "delivery_time", s.deliveryTime);
  }

  lemma {:induction false} ShipmentRoundTrip(s: Shipment)
    ensures ShipmentFromDict(ShipmentToDict(s)) == Ok(s)
  {
    RequiredFieldsRoundTrip(s);
    OptionalFieldsRoundTrip(s);
    ShipmentFromFields(ShipmentToDict(s).entries, s);
  }

  // ---------------------------------------------------------------- Route

  /** A route's stops are (stop type, shipment) pairs, the type being
      'pickup' or 'delivery'. */
  datatype Route = Route(
    id: string,
    stops: seq<(string, Shipment)>,
    totalDistance: real,
    totalPallets: int,
    vehicleId: string)

  function StopToValue(stop: (string, Shipment)): Value {
    VTuple([VStr(stop.0), ShipmentToDict(stop.1)])
  }

  /** The list comprehension over the stops in `Route.to_dict`. */
  function StopsToValues(stops: seq<(string, Shipment)>): (vs: seq<Value>)
    ensures |vs| == |stops|
    ensures forall i :: 0 <= i < |stops| ==> vs[i] == StopToValue(stops[i])
  {
    if stops == [] then [] else [StopToValue(stops[0])] + StopsToValues(stops[1..])
  }

  /** `Route.to_dict`. */
  function RouteToDict(r: Route): Value {
    VDict(map[
      "id" := VStr(r.id),
      "stops" := VList(StopsToValues(r.stops)),
      "total_distance" := VFloat(r.totalDistance),
      "total_pallets" := VInt(r.totalPallets),
      "vehicle_id" := VStr(r.vehicleId)])
  }

  /** Reads one serialised stop back; a reference inverse of `StopToValue`
      (the source has no `Route.from_dict`). */
  function StopFromValue(v: Value): Result<(string, Shipment), DecodeError> {
    if v.VTuple? && |v.elems| == 2 && v.elems[0].VStr? then
      var shipment :- ShipmentFromDict(v.elems[1]);
      Ok((v.elems[0].s, shipment))
    else Err(WrongType("stops"))
  }

  function StopsFromValues(vs: seq<Value>): Result<seq<(string, Shipment)>, DecodeError> {
    if vs == [] then Ok([])
    else
      var first :- StopFromValue(vs[0]);
      var rest :- StopsFromValues(vs[1..]);
      Ok([first] + rest)
  }

  /** Reference inverse of `RouteToDict`, used to state that nothing is lost. */
  function RouteFromDict(data: Value): Result<Route, DecodeError> {
    if !data.VDict? then Err(NotADict)
    else
      var d := data.entries;
      var id :- RequiredStr(d, "id");
      var stopValues :- ListField(d, "stops");
      var stops :- StopsFromValues(stopValues);
      var totalDistance :- FloatField(d, "total_distance");
      var totalPallets :- RequiredInt(d, "total_pallets");
      var vehicleId :- RequiredStr(d, "vehicle_id");
      Ok(Route(id, stops, totalDistance, totalPallets, vehicleId))
  }

  lemma {:induction false} StopsRoundTrip(stops: seq<(string, Shipment)>)
    ensures StopsFromValues(StopsToValues(stops)) == Ok(stops)
  {
    if stops != [] {
      ShipmentRoundTrip(stops[0].1);
      StopsRoundTrip(stops[1..]);
      assert [stops[0]] + stops[1..] == stops;
    }
  }

  lemma RouteFromFields(d: map<string, Value>, r: Route, stopValues: seq<Value>)
    requires RequiredStr(d, "id") == Ok(r.id)
    requires ListField(d, "stops") == Ok(stopValues)
    requires StopsFromValues(stopValues) == Ok(r.stops)
    requires FloatField(d, "total_distance") == Ok(r.totalDistance)
    requires RequiredInt(d, "total_pallets") == Ok(r.totalPallets)
    requires RequiredStr(d, "vehicle_id") == Ok(r.vehicleId)
    ensures RouteFromDict(VDict(d)) == Ok(r)
  {
  }

  /** `Route.to_dict` keeps every stop, in order, with its type and its
      shipment intact. */
  lemma {:induction false} RouteRoundTrip(r: Route)
    ensures RouteFromDict(RouteToDict(r)) == Ok(r)
  {
    var d := RouteToDict(r).entries;
    var stopValues := StopsToValues(r.stops);
    assert RequiredStr(d, "id") == Ok(r.id);
    assert ListField(d, "stops") == Ok(stopValues);
    StopsRoundTrip(r.stops);
    assert FloatField(d, "total_distance") == Ok(r.totalDistance);
    assert RequiredInt(d, "total_pallets") == Ok(r.totalPallets);
    assert RequiredStr(d, "vehicle_id") == Ok(r.vehicleId);
    RouteFromFields(d, r, stopValues);
  }

  // ---------------------------------------------------------------- Solution

  datatype Solution = Solution(
    routes: seq<Route>,
    totalDistance: real,
    totalCost: real,
    unassignedShipments: seq<Shipment>)

  function RoutesToValues(routes: seq<Route>): (vs: seq<Value>)
    ensures |vs| == |routes|
    ensures forall i :: 0 <= i < |routes| ==> vs[i] == RouteToDict(routes[i])
  {
    if routes == [] then [] else [RouteToDict(routes[0])] + RoutesToValues(routes[1..])
  }

  function ShipmentsToValues(ss: seq<Shipment>): (vs: seq<Value>)
    ensures |vs| == |ss|
    ensures forall i :: 0 <= i < |ss| ==> vs[i] == ShipmentToDict(ss[i])
  {
    if ss == [] then [] else [ShipmentToDict(ss[0])] + ShipmentsToValues(ss[1..])
  }

  /** `Solution.to_dict`. */
  function SolutionToDict(s: Solution): Value {
    VDict(map[
      "routes" := VList(RoutesToValues(s.routes)),
      "total_distance" := VFloat(s.totalDistance),
      "total_cost" := VFloat(s.totalCost),
      "unassigned_shipments" := VList(ShipmentsToValues(s.unassignedShipments))])
  }

  function RoutesFromValues(vs: seq<Value>): Result<seq<Route>, DecodeError> {
    if vs == [] then Ok([])
    else
      var first :- RouteFromDict(vs[0]);
      var rest :- RoutesFromValues(vs[1..]);
      Ok([first] + rest)
  }

  function ShipmentsFromValues(vs: seq<Value>): Result<seq<Shipment>, DecodeError> {
    if vs == [] then Ok([])
    else
      var first :- ShipmentFromDict(vs[0]);
      var rest :- ShipmentsFromValues(vs[1..]);
      Ok([first] + rest)
  }

  function ListField(d: map<string, Value>, key: string): Result<seq<Value>, DecodeError> {
    if key !in d then Err(MissingKey(key))
    else if d[key].VList? then Ok(d[key].items)
    else Err(WrongType(key))
  }

  function FloatField(d: map<string, Value>, key: string): Result<real, DecodeError> {
    if key !in d then Err(MissingKey(key))
    else if d[key].VFloat? then Ok(d[key].f)
    else Err(WrongType(key))
  }

  /** Reference inverse of `SolutionToDict` (the source has no
      `Solution.from_dict`). */
  function SolutionFromDict(data: Value): Result<Solution, DecodeError> {
    if !data.VDict? then Err(NotADict)
    else
      var d := data.entries;
      var routeValues :- ListField(d, "routes");
      var routes :- RoutesFromValues(routeValues);
      var totalDistance :- FloatField(d, "total_distance");
      var totalCost :- FloatField(d, "total_cost");
      var unassignedValues :- ListField(d, "unassigned_shipments");
      var unassigned :- ShipmentsFromValues(unassignedValues);
      Ok(Solution(routes, totalDistance, totalCost, unassigned))
  }

  lemma {:induction false} RoutesRoundTrip(routes: seq<Route>)
    ensures RoutesFromValues(RoutesToValues(routes)) == Ok(routes)
  {
    if routes != [] {
      RouteRoundTrip(routes[0]);
      RoutesRoundTrip(routes[1..]);
      assert [routes[0]] + routes[1..] == routes;
    }
  }

  lemma {:induction false} ShipmentsRoundTrip(ss: seq<Shipment>)
    ensures ShipmentsFromValues(ShipmentsToValues(ss)) == Ok(ss)
  {
    if ss != [] {
      ShipmentRoundTrip(ss[0]);
      ShipmentsRoundTrip(ss[1..]);
      assert [ss[0]] + ss[1..] == ss;
    }
  }

  lemma SolutionFromFields(d: map<string, Value>, s: Solution, routeValues: seq<Value>, unassignedValues: seq<Value>)
    requires ListField(d, "routes") == Ok(routeValues)
    requires RoutesFromValues(routeValues) == Ok(s.routes)
    requires FloatField(d, "total_distance") == Ok(s.totalDistance)
    requires FloatField(d, "total_cost") == Ok(s.totalCost)
    requires ListField(d, "unassigned_shipments") == Ok(unassignedValues)
    requires ShipmentsFromValues(unassignedValues) == Ok(s.unassignedShipments)
    ensures SolutionFromDict(VDict(d)) == Ok(s)
  {
  }

  /** `Solution.to_dict` keeps the routes and the unassigned shipments in
      order and passes both totals through. */
  lemma {:induction false} SolutionRoundTrip(s: Solution)
    ensures SolutionFromDict(SolutionToDict(s)) == Ok(s)
  {
    var d := SolutionToDict(s).entries;
    var routeValues := RoutesToValues(s.routes);
    var unassignedValues := ShipmentsToValues(s.unassignedShipments);
    assert ListField(d, "routes") == Ok(routeValues);
    RoutesRoundTrip(s.routes);
    assert FloatField(d, "total_distance") == Ok(s.totalDistance);
    assert FloatField(d, "total_cost") == Ok(s.totalCost);
    assert ListField(d, "unassigned_shipments") == Ok(unassignedValues);
    ShipmentsRoundTrip(s.unassignedShipments);
    SolutionFromFields(d, s, routeValues, unassignedValues);
  }
}
