/**
 * The three collections the API serves (buses, routes, trips), their
 * documents as typed records, and the trip queries that more than one
 * controller issues. Only a bus's `currentLocation` and `lastUpdated` are
 * ever written by the API; everything else is seeded outside it.
 */
module Store {
  import opened Common
  import opened DocStore

  /**
   * A reported position. The coordinates, speed and heading are kept as the
   * body values they were parsed from; `speed`/`heading` are None when the
   * update did not carry them.
   */
  datatype Location = Location(
    latitude: JsonValue,
    longitude: JsonValue,
    speed: Option<JsonValue>,
    heading: Option<JsonValue>,
    timestamp: Time)

  datatype Bus = Bus(
    registrationNumber: string,
    busType: string,
    capacity: int,
    operatorId: string,
    operator: string,
    status: string,
    currentLocation: Option<Location>,
    lastUpdated: Option<Time>)

  /** A route is descriptive metadata the API passes through untouched. */
  datatype Route = Route(fields: map<string, JsonValue>)

  datatype Trip = Trip(
    routeId: string,
    busId: string,
    status: string,
    scheduledDeparture: Time,
    scheduledArrival: Time,
    createdAt: Time)

  const ACTIVE: string := "active"

  /** The error texts and the notice that more than one controller answers with. */
  const BUS_NOT_FOUND: string := "Bus not found"
  const ROUTE_NOT_FOUND: string := "Route not found"
  const NO_ACTIVE_BUSES: string := "No active buses on this route currently"

  /** The document store: the `buses`, `routes` and `trips` collections. */
  class Database {
    var buses: Collection<Bus>
    var routes: Collection<Route>
    var trips: Collection<Trip>

    constructor (buses: Collection<Bus>, routes: Collection<Route>, trips: Collection<Trip>)
      ensures this.buses == buses && this.routes == routes && this.trips == trips
    {
      this.buses := buses;
      this.routes := routes;
      this.trips := trips;
    }
  }

  predicate IsActiveTrip(d: Doc<Trip>) {
    d.data.status == ACTIVE
  }

  /** `where('busId', '==', busId).where('status', '==', 'active')` as one filter. */
  function ActiveOnBus(busId: string): Doc<Trip> -> bool {
    (d: Doc<Trip>) => d.data.busId == busId && d.data.status == ACTIVE
  }

  /** `where('routeId', '==', routeId).where('status', '==', 'active')` as one filter. */
  function ActiveOnRoute(routeId: string): Doc<Trip> -> bool {
    (d: Doc<Trip>) => d.data.routeId == routeId && d.data.status == ACTIVE
  }

  /** The active trips, in query order. */
  function ActiveTrips(trips: Collection<Trip>): (q: seq<Doc<Trip>>)
    ensures forall d :: d in q ==> d.id in trips.docs && d.data == trips.docs[d.id] && d.data.status == ACTIVE
    ensures forall id :: id in trips.docs && trips.docs[id].status == ACTIVE ==> Doc(id, trips.docs[id]) in q
  {
    Where(Snapshot(trips), IsActiveTrip)
  }

  /** The active trips of one route, in query order. */
  function RouteActiveTrips(trips: Collection<Trip>, routeId: string): (q: seq<Doc<Trip>>)
    ensures forall d :: d in q ==>
      d.id in trips.docs && d.data == trips.docs[d.id] && d.data.routeId == routeId && d.data.status == ACTIVE
    ensures forall id :: id in trips.docs && trips.docs[id].routeId == routeId && trips.docs[id].status == ACTIVE ==>
      Doc(id, trips.docs[id]) in q
  {
    Where(Snapshot(trips), ActiveOnRoute(routeId))
  }

  /**
   * The bus's current trip query, `... .limit(1)`: empty exactly when no trip
   * of that bus is active; otherwise the first such trip in query order.
   */
  function CurrentTripQuery(trips: Collection<Trip>, busId: string): (s: seq<Doc<Trip>>)
    ensures |s| <= 1
    ensures s == [] <==>
      forall id :: id in trips.docs ==> !(trips.docs[id].busId == busId && trips.docs[id].status == ACTIVE)
    ensures s != [] ==>
      && s[0].id in trips.docs && s[0].data == trips.docs[s[0].id]
      && s[0].data.busId == busId && s[0].data.status == ACTIVE
      && s[0] == Where(Snapshot(trips), ActiveOnBus(busId))[0]
  {
    var q := Where(Snapshot(trips), ActiveOnBus(busId));
    assert forall id :: id in trips.docs && trips.docs[id].busId == busId && trips.docs[id].status == ACTIVE ==>
      ActiveOnBus(busId)(Doc(id, trips.docs[id])) && Doc(id, trips.docs[id]) in q;
    assert q != [] ==> q[0] in q;
    Take(q, 1)
  }
}
