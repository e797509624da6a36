/**
 * The handlers of src/controllers/trackingController.js over the abstract
 * store: one bus with its current trip and that trip's route, and one route
 * with the buses of its active trips.
 */
module TrackingController {
  import opened Common
  import opened DocStore
  import opened Store

  /** The `bus` part of `trackBus`'s body. */
  datatype BusSummary = BusSummary(id: string, registrationNumber: string, busType: string, capacity: int, operator: string)

  /** The body of `trackBus`. */
  datatype BusTracking = BusTracking(
    bus: BusSummary,
    currentLocation: Option<Location>,
    status: string,
    lastUpdated: Option<Time>,
    currentTrip: Option<Doc<Trip>>,
    route: Option<Doc<Route>>)

  /**
   * `trackBus`: 404 for an unknown bus. Otherwise the bus's summary and
   * position (null when it has none); `currentTrip` is null exactly when no
   * trip of the bus is active; `route` is set only with a current trip, and
   * then exactly when the trip's route exists.
   */
  method TrackBus(db: Database, busId: string) returns (o: Outcome<BusTracking>)
    ensures o.NotFound? <==> busId !in db.buses.docs
    ensures o.NotFound? ==> o.error == BUS_NOT_FOUND
    ensures !o.BadRequest?
    ensures o.Ok? ==>
      var b := db.buses.docs[busId];
      && o.value.bus == BusSummary(busId, b.registrationNumber, b.busType, b.capacity, b.operator)
      && o.value.currentLocation == b.currentLocation
      && o.value.status == b.status
      && o.value.lastUpdated == b.lastUpdated
    ensures o.Ok? ==>
      (o.value.currentTrip.None? <==>
        forall t :: t in db.trips.docs ==> !(db.trips.docs[t].busId == busId && db.trips.docs[t].status == ACTIVE))
    ensures o.Ok? && o.value.currentTrip.Some? ==>
      var trip := o.value.currentTrip.value;
      && trip.id in db.trips.docs && trip.data == db.trips.docs[trip.id]
      && trip.data.busId == busId && trip.data.status == ACTIVE
      && (o.value.route.Some? <==> trip.data.routeId in db.routes.docs)
    ensures o.Ok? && o.value.route.Some? ==>
      && o.value.currentTrip.Some?
      && o.value.route.value.id == o.value.currentTrip.value.data.routeId
      && o.value.route.value.data == db.routes.docs[o.value.route.value.id]
  {
    var busDoc := Get(db.buses, busId);
    if busDoc.None? {
      return NotFound(BUS_NOT_FOUND);
    }
    var bus := busDoc.value.data;
    var tripSnapshot := CurrentTripQuery(db.trips, busId);
    var tripInfo: Option<Doc<Trip>> := None;
    var routeInfo: Option<Doc<Route>> := None;
    if tripSnapshot != [] {
      var tripDoc := tripSnapshot[0];
      tripInfo := Some(tripDoc);
      var routeDoc := Get(db.routes, tripDoc.data.routeId);
      if routeDoc.Some? {
        routeInfo := routeDoc;
      }
    }
    o := Ok(BusTracking(
      BusSummary(busId, bus.registrationNumber, bus.busType, bus.capacity, bus.operator),
      bus.currentLocation, bus.status, bus.lastUpdated, tripInfo, routeInfo));
  }

  /** The `trip` part of an entry of `activeBuses`. */
  datatype TripTimes = TripTimes(id: string, scheduledDeparture: Time, scheduledArrival: Time)

  /** One entry of `activeBuses`. */
  datatype ActiveBus = ActiveBus(
    busId: string,
    registrationNumber: string,
    currentLocation: Option<Location>,
    status: string,
    lastUpdated: Option<Time>,
    trip: TripTimes)

  /**
   * The body of `trackRoute`: without active trips, the route and a notice;
   * otherwise the route, the buses found and their count.
   */
  datatype RouteTracking =
    | Idle(route: Doc<Route>, message: string)
    | Tracked(route: Doc<Route>, activeBuses: seq<ActiveBus>, count: nat)

  /** The trips whose bus document exists. */
  function HasBus(buses: Collection<Bus>): Doc<Trip> -> bool {
    (t: Doc<Trip>) => t.data.busId in buses.docs
  }

  /** The entry for a trip whose bus exists: the bus's fields and the trip's times. */
  function BusEntry(buses: Collection<Bus>, t: Doc<Trip>): (e: ActiveBus)
    requires t.data.busId in buses.docs
    ensures e.busId == t.data.busId
    ensures e.trip == TripTimes(t.id, t.data.scheduledDeparture, t.data.scheduledArrival)
    ensures var b := buses.docs[t.data.busId];
      e.registrationNumber == b.registrationNumber && e.currentLocation == b.currentLocation
      && e.status == b.status && e.lastUpdated == b.lastUpdated
  {
    var b := buses.docs[t.data.busId];
    ActiveBus(t.data.busId, b.registrationNumber, b.currentLocation, b.status, b.lastUpdated,
              TripTimes(t.id, t.data.scheduledDeparture, t.data.scheduledArrival))
  }

  /** The lookup for one trip: null when its bus does not exist. */
  function BusOnTrip(buses: Collection<Bus>, t: Doc<Trip>): (o: Option<ActiveBus>)
    ensures o.Some? <==> t.data.busId in buses.docs
    ensures o.Some? ==> o.value == BusEntry(buses, t)
  {
    match Get(buses, t.data.busId)
    case None => None
    case Some(_) => Some(BusEntry(buses, t))
  }

  /** `Promise.all` over the per-trip lookups, in trip order. */
  function LookupEach(buses: Collection<Bus>, ts: seq<Doc<Trip>>): (r: seq<Option<ActiveBus>>)
    ensures |r| == |ts|
    ensures forall i :: 0 <= i < |ts| ==> r[i] == BusOnTrip(buses, ts[i])
  {
    seq(|ts|, i requires 0 <= i < |ts| => BusOnTrip(buses, ts[i]))
  }

  /** The entries for trips whose buses all exist, one per trip, in trip order. */
  function EntriesFor(buses: Collection<Bus>, kept: seq<Doc<Trip>>): (r: seq<ActiveBus>)
    requires forall t :: t in kept ==> t.data.busId in buses.docs
    ensures |r| == |kept|
    ensures forall i :: 0 <= i < |kept| ==> r[i] == BusEntry(buses, kept[i])
    decreases |kept|
  {
    if kept == [] then [] else [BusEntry(buses, kept[0])] + EntriesFor(buses, kept[1..])
  }

  /**
   * Dropping the null lookups leaves one entry per trip whose bus exists, in
   * trip order, each built from that trip.
   */
  lemma {:induction false} KeptInTripOrder(buses: Collection<Bus>, ts: seq<Doc<Trip>>)
    ensures Somes(LookupEach(buses, ts)) == EntriesFor(buses, Where(ts, HasBus(buses)))
    decreases |ts|
  {
    if ts != [] {
      KeptInTripOrder(buses, ts[1..]);
      var looked := LookupEach(buses, ts);
      assert looked[1..] == LookupEach(buses, ts[1..]);
      var kept := Where(ts[1..], HasBus(buses));
      if HasBus(buses)(ts[0]) {
        assert Where(ts, HasBus(buses)) == [ts[0]] + kept;
        assert ([ts[0]] + kept)[1..] == kept;
      }
    }
  }

  /** The entries left after dropping null lookups, position by position. */
  lemma EntriesOfKeptTrips(buses: Collection<Bus>, ts: seq<Doc<Trip>>)
    ensures var kept := Where(ts, HasBus(buses));
      var entries := Somes(LookupEach(buses, ts));
      && |entries| == |kept|
      && forall i :: 0 <= i < |kept| ==> kept[i].data.busId in buses.docs && entries[i] == BusEntry(buses, kept[i])
  {
    var kept := Where(ts, HasBus(buses));
    assert forall t :: t in kept ==> t.data.busId in buses.docs;
    KeptInTripOrder(buses, ts);
    assert forall i :: 0 <= i < |kept| ==> kept[i] in kept;
  }

  /**
   * `trackRoute`: 404 for an unknown route. With no active trip on the
   * route, the route and the notice. Otherwise one entry per active trip of
   * the route whose bus exists, in trip order, and their count; a trip whose
   * bus is missing is dropped, so the list may be empty.
   */
  function TrackRoute(db: Database, routeId: string): (o: Outcome<RouteTracking>)
    reads db
    ensures o.NotFound? <==> routeId !in db.routes.docs
    ensures o.NotFound? ==> o.error == ROUTE_NOT_FOUND
    ensures !o.BadRequest?
    ensures o.Ok? ==> o.value.route == Doc(routeId, db.routes.docs[routeId])
    ensures o.Ok? ==>
      (o.value.Idle? <==>
        forall t :: t in db.trips.docs ==> !(db.trips.docs[t].routeId == routeId && db.trips.docs[t].status == ACTIVE))
    ensures o.Ok? && o.value.Idle? ==> o.value.message == NO_ACTIVE_BUSES
    ensures o.Ok? && o.value.Tracked? ==>
      var kept := Where(RouteActiveTrips(db.trips, routeId), HasBus(db.buses));
      && o.value.count == |o.value.activeBuses| == |kept|
      && forall i :: 0 <= i < |kept| ==>
           kept[i].data.busId in db.buses.docs && o.value.activeBuses[i] == BusEntry(db.buses, kept[i])
  {
    match Get(db.routes, routeId)
    case None => NotFound(ROUTE_NOT_FOUND)
    case Some(route) =>
      var trips := RouteActiveTrips(db.trips, routeId);
      if trips == [] then
        Ok(Idle(route, NO_ACTIVE_BUSES))
      else
        assert trips[0] in trips;
        var buses := Somes(LookupEach(db.buses, trips));
        EntriesOfKeptTrips(db.buses, trips);
        Ok(Tracked(route, buses, |buses|))
  }
}
