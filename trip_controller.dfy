/**
 * The handlers of src/controllers/tripController.js over the abstract store:
 * the filtered, ordered and capped trip list, one trip with its route and
 * bus, and the active trips with their buses' positions.
 */
module TripController {
  import opened Common
  import opened DocStore
  import opened Store

  const TRIP_NOT_FOUND: string := "Trip not found"
  /** `limit(100)` */
  const TRIP_LIMIT: nat := 100

  /** The first and last instant of a calendar day, both included. */
  datatype DayBounds = DayBounds(start: Time, end: Time)

  /** The query string of the trip list. */
  datatype TripQuery = TripQuery(status: Option<string>, routeId: Option<string>, busId: Option<string>, date: Option<string>)

  function Departure(d: Doc<Trip>): int {
    d.data.scheduledDeparture
  }

  function TripStatusIs(status: string): Doc<Trip> -> bool {
    (d: Doc<Trip>) => d.data.status == status
  }

  function OnRoute(routeId: string): Doc<Trip> -> bool {
    (d: Doc<Trip>) => d.data.routeId == routeId
  }

  function OnBus(busId: string): Doc<Trip> -> bool {
    (d: Doc<Trip>) => d.data.busId == busId
  }

  function DepartsFrom(start: Time): Doc<Trip> -> bool {
    (d: Doc<Trip>) => d.data.scheduledDeparture >= start
  }

  function DepartsUntil(end: Time): Doc<Trip> -> bool {
    (d: Doc<Trip>) => d.data.scheduledDeparture <= end
  }

  /**
   * What the trip list's query string admits: each supplied equality filter,
   * and with a date, a departure within that day. `calendar` stands for the
   * local-time day boundaries `new Date(date)` and `setHours` compute.
   */
  predicate TripMatches(q: TripQuery, calendar: string -> DayBounds, t: Trip) {
    && (Supplied(q.status) ==> t.status == q.status.value)
    && (Supplied(q.routeId) ==> t.routeId == q.routeId.value)
    && (Supplied(q.busId) ==> t.busId == q.busId.value)
    && (Supplied(q.date) ==> calendar(q.date.value).start <= t.scheduledDeparture <= calendar(q.date.value).end)
  }

  /** The filters of the first `stage` `where` clauses, in the order the code adds them. */
  function StageFilter(q: TripQuery, calendar: string -> DayBounds, stage: nat): Doc<Trip> -> bool {
    (d: Doc<Trip>) =>
      && (stage >= 1 && Supplied(q.status) ==> d.data.status == q.status.value)
      && (stage >= 2 && Supplied(q.routeId) ==> d.data.routeId == q.routeId.value)
      && (stage >= 3 && Supplied(q.busId) ==> d.data.busId == q.busId.value)
      && (stage >= 4 && Supplied(q.date) ==> calendar(q.date.value).start <= d.data.scheduledDeparture)
      && (stage >= 5 && Supplied(q.date) ==> d.data.scheduledDeparture <= calendar(q.date.value).end)
  }

  /** The `status` filter narrows stage 0 to stage 1, or stage 1 is stage 0 when it is absent. */
  lemma StatusStage(all: seq<Doc<Trip>>, q: TripQuery, calendar: string -> DayBounds)
    ensures Where(all, StageFilter(q, calendar, 1)) ==
      if Supplied(q.status) then Where(Where(all, StageFilter(q, calendar, 0)), TripStatusIs(q.status.value))
      else Where(all, StageFilter(q, calendar, 0))
  {
    if Supplied(q.status) {
      WhereWhere(all, StageFilter(q, calendar, 0), TripStatusIs(q.status.value), StageFilter(q, calendar, 1));
    } else {
      WhereSame(all, StageFilter(q, calendar, 0), StageFilter(q, calendar, 1));
    }
  }

  lemma RouteStage(all: seq<Doc<Trip>>, q: TripQuery, calendar: string -> DayBounds)
    ensures Where(all, StageFilter(q, calendar, 2)) ==
      if Supplied(q.routeId) then Where(Where(all, StageFilter(q, calendar, 1)), OnRoute(q.routeId.value))
      else Where(all, StageFilter(q, calendar, 1))
  {
    if Supplied(q.routeId) {
      WhereWhere(all, StageFilter(q, calendar, 1), OnRoute(q.routeId.value), StageFilter(q, calendar, 2));
    } else {
      WhereSame(all, StageFilter(q, calendar, 1), StageFilter(q, calendar, 2));
    }
  }

  lemma BusStage(all: seq<Doc<Trip>>, q: TripQuery, calendar: string -> DayBounds)
    ensures Where(all, StageFilter(q, calendar, 3)) ==
      if Supplied(q.busId) then Where(Where(all, StageFilter(q, calendar, 2)), OnBus(q.busId.value))
      else Where(all, StageFilter(q, calendar, 2))
  {
    if Supplied(q.busId) {
      WhereWhere(all, StageFilter(q, calendar, 2), OnBus(q.busId.value), StageFilter(q, calendar, 3));
    } else {
      WhereSame(all, StageFilter(q, calendar, 2), StageFilter(q, calendar, 3));
    }
  }

  /** A date adds two range clauses, the day's start and its end. */
  lemma DateStage(all: seq<Doc<Trip>>, q: TripQuery, calendar: string -> DayBounds)
    ensures Where(all, StageFilter(q, calendar, 5)) ==
      if Supplied(q.date) then
        Where(Where(Where(all, StageFilter(q, calendar, 3)), DepartsFrom(calendar(q.date.value).start)),
              DepartsUntil(calendar(q.date.value).end))
      else Where(all, StageFilter(q, calendar, 3))
  {
    if Supplied(q.date) {
      var day := calendar(q.date.value);
      WhereWhere(all, StageFilter(q, calendar, 3), DepartsFrom(day.start), StageFilter(q, calendar, 4));
      WhereWhere(all, StageFilter(q, calendar, 4), DepartsUntil(day.end), StageFilter(q, calendar, 5));
    } else {
      WhereSame(all, StageFilter(q, calendar, 3), StageFilter(q, calendar, 5));
    }
  }

  /**
   * The trips the list shows, whatever the query's stages: stored trips the
   * query string admits, latest departure first, at most 100, and the 100
   * latest when there are more.
   */
  lemma TopTrips(trips: Collection<Trip>, q: TripQuery, calendar: string -> DayBounds)
    ensures var top := Take(SortDesc(Where(Snapshot(trips), StageFilter(q, calendar, 5)), Departure), TRIP_LIMIT);
      && |top| <= TRIP_LIMIT
      && SortedDesc(top, Departure)
      && (forall d :: d in top ==> d.id in trips.docs && d.data == trips.docs[d.id] && TripMatches(q, calendar, d.data))
      && (|top| < TRIP_LIMIT ==>
            forall id :: id in trips.docs && TripMatches(q, calendar, trips.docs[id]) ==> Doc(id, trips.docs[id]) in top)
      && (forall d, id ::
            (&& d in top && id in trips.docs && TripMatches(q, calendar, trips.docs[id])
             && Doc(id, trips.docs[id]) !in top)
            ==> trips.docs[id].scheduledDeparture <= d.data.scheduledDeparture)
      && (forall i, j :: 0 <= i < j < |top| ==> top[i].id != top[j].id)
  {
    var admit := StageFilter(q, calendar, 5);
    TopOfSorted(Where(Snapshot(trips), admit), Departure, TRIP_LIMIT);
    TopUnique(trips, admit, Departure, TRIP_LIMIT);
    ListedTripsMatch(trips, q, calendar);
    MatchingTripsQueried(trips, q, calendar);
    LaterTripsListed(trips, q, calendar);
  }

  lemma ListedTripsMatch(trips: Collection<Trip>, q: TripQuery, calendar: string -> DayBounds)
    ensures var top := Take(SortDesc(Where(Snapshot(trips), StageFilter(q, calendar, 5)), Departure), TRIP_LIMIT);
      forall d :: d in top ==> d.id in trips.docs && d.data == trips.docs[d.id] && TripMatches(q, calendar, d.data)
  {
    var admit := StageFilter(q, calendar, 5);
    var query := Where(Snapshot(trips), admit);
    var top := Take(SortDesc(query, Departure), TRIP_LIMIT);
    TopOfSorted(query, Departure, TRIP_LIMIT);
    forall d | d in top
      ensures d.id in trips.docs && d.data == trips.docs[d.id] && TripMatches(q, calendar, d.data)
    {
      assert d in query;
      assert admit(d);
    }
  }

  lemma MatchingTripsQueried(trips: Collection<Trip>, q: TripQuery, calendar: string -> DayBounds)
    ensures forall id :: id in trips.docs && TripMatches(q, calendar, trips.docs[id]) ==>
      Doc(id, trips.docs[id]) in Where(Snapshot(trips), StageFilter(q, calendar, 5))
  {
    var admit := StageFilter(q, calendar, 5);
    forall id | id in trips.docs && TripMatches(q, calendar, trips.docs[id])
      ensures Doc(id, trips.docs[id]) in Where(Snapshot(trips), admit)
    {
      assert admit(Doc(id, trips.docs[id]));
    }
  }

  lemma LaterTripsListed(trips: Collection<Trip>, q: TripQuery, calendar: string -> DayBounds)
    ensures var top := Take(SortDesc(Where(Snapshot(trips), StageFilter(q, calendar, 5)), Departure), TRIP_LIMIT);
      forall d, id ::
        (&& d in top && id in trips.docs && TripMatches(q, calendar, trips.docs[id])
         && Doc(id, trips.docs[id]) !in top)
        ==> trips.docs[id].scheduledDeparture <= d.data.scheduledDeparture
  {
    var query := Where(Snapshot(trips), StageFilter(q, calendar, 5));
    var top := Take(SortDesc(query, Departure), TRIP_LIMIT);
    TopOfSorted(query, Departure, TRIP_LIMIT);
    MatchingTripsQueried(trips, q, calendar);
    forall d, id |
      && d in top && id in trips.docs && TripMatches(q, calendar, trips.docs[id])
      && Doc(id, trips.docs[id]) !in top
      ensures trips.docs[id].scheduledDeparture <= d.data.scheduledDeparture
    {
      var e := Doc(id, trips.docs[id]);
      assert Departure(e) <= Departure(d);
    }
  }

  /**
   * `getAllTrips`: the query gains one `where` per supplied filter (two for
   * a date), is ordered by departure, latest first, and cut at 100. The list
   * holds stored trips that pass every filter; when it holds fewer than 100
   * it holds all of them; and no trip it leaves out departs later than one it
   * keeps.
   */
  method GetAllTrips(db: Database, q: TripQuery, calendar: string -> DayBounds) returns (r: Listing<Doc<Trip>>)
    ensures r.count == |r.data| <= TRIP_LIMIT
    ensures SortedDesc(r.data, Departure)
    ensures forall d :: d in r.data ==>
      d.id in db.trips.docs && d.data == db.trips.docs[d.id] && TripMatches(q, calendar, d.data)
    ensures |r.data| < TRIP_LIMIT ==>
      forall id :: id in db.trips.docs && TripMatches(q, calendar, db.trips.docs[id]) ==>
        Doc(id, db.trips.docs[id]) in r.data
    ensures forall d, id ::
      (&& d in r.data && id in db.trips.docs && TripMatches(q, calendar, db.trips.docs[id])
       && Doc(id, db.trips.docs[id]) !in r.data)
      ==> db.trips.docs[id].scheduledDeparture <= d.data.scheduledDeparture
    ensures forall i, j :: 0 <= i < j < |r.data| ==> r.data[i].id != r.data[j].id
  {
    var all := Snapshot(db.trips);
    // Each stage keeps `query == Where(all, StageFilter(q, calendar, k))`.
    var query := all;
    WhereAll(all, StageFilter(q, calendar, 0));
    StatusStage(all, q, calendar);
    if Supplied(q.status) {
      query := Where(query, TripStatusIs(q.status.value));
    }
    RouteStage(all, q, calendar);
    if Supplied(q.routeId) {
      query := Where(query, OnRoute(q.routeId.value));
    }
    BusStage(all, q, calendar);
    if Supplied(q.busId) {
      query := Where(query, OnBus(q.busId.value));
    }
    DateStage(all, q, calendar);
    if Supplied(q.date) {
      var day := calendar(q.date.value);
      query := Where(Where(query, DepartsFrom(day.start)), DepartsUntil(day.end));
    }
    var data := Take(SortDesc(query, Departure), TRIP_LIMIT);
    TopTrips(db.trips, q, calendar);
    r := Listing(|data|, data);
  }

  /** The body of `getTripById`: the trip, with its route's and its bus's data or null for each. */
  datatype TripDetails = TripDetails(trip: Doc<Trip>, route: Option<Route>, bus: Option<Bus>)

  /**
   * `getTripById`: 404 for an unknown trip; otherwise the trip with its route
   * and bus, each null exactly when the trip's reference dangles.
   */
  function GetTripById(db: Database, id: string): (o: Outcome<TripDetails>)
    reads db
    ensures o.NotFound? <==> id !in db.trips.docs
    ensures o.NotFound? ==> o.error == TRIP_NOT_FOUND
    ensures o.Status() == 200 <==> id in db.trips.docs
    ensures !o.BadRequest?
    ensures o.Ok? ==>
      var t := db.trips.docs[id];
      && o.value.trip == Doc(id, t)
      && (o.value.route.None? <==> t.routeId !in db.routes.docs)
      && (o.value.route.Some? ==> o.value.route.value == db.routes.docs[t.routeId])
      && (o.value.bus.None? <==> t.busId !in db.buses.docs)
      && (o.value.bus.Some? ==> o.value.bus.value == db.buses.docs[t.busId])
  {
    match Get(db.trips, id)
    case None => NotFound(TRIP_NOT_FOUND)
    case Some(doc) =>
      var routeDoc := Get(db.routes, doc.data.routeId);
      var busDoc := Get(db.buses, doc.data.busId);
      Ok(TripDetails(
        doc,
        if routeDoc.Some? then Some(routeDoc.value.data) else None,
        if busDoc.Some? then Some(busDoc.value.data) else None))
  }

  /** One entry of `getActiveTrips`: the trip with its bus's position and registration, or null for each. */
  datatype ActiveTrip = ActiveTrip(trip: Doc<Trip>, currentLocation: Option<Location>, busRegistration: Option<string>)

  /**
   * `busData?.currentLocation || null` and `busData?.registrationNumber || null`:
   * null for a dangling bus, for a bus without a position, and for an empty
   * registration.
   */
  function ActiveTripEntry(buses: Collection<Bus>, d: Doc<Trip>): (e: ActiveTrip)
    ensures e.trip == d
    ensures e.currentLocation.Some? <==> d.data.busId in buses.docs && buses.docs[d.data.busId].currentLocation.Some?
    ensures e.currentLocation.Some? ==> e.currentLocation == buses.docs[d.data.busId].currentLocation
    ensures e.busRegistration.Some? <==> d.data.busId in buses.docs && buses.docs[d.data.busId].registrationNumber != ""
    ensures e.busRegistration.Some? ==> e.busRegistration.value == buses.docs[d.data.busId].registrationNumber
  {
    match Get(buses, d.data.busId)
    case None => ActiveTrip(d, None, None)
    case Some(bus) =>
      ActiveTrip(
        d,
        bus.data.currentLocation,
        if bus.data.registrationNumber != "" then Some(bus.data.registrationNumber) else None)
  }

  function EntriesOf(buses: Collection<Bus>, ts: seq<Doc<Trip>>): (r: seq<ActiveTrip>)
    ensures |r| == |ts|
    ensures forall i :: 0 <= i < |ts| ==> r[i] == ActiveTripEntry(buses, ts[i])
  {
    seq(|ts|, i requires 0 <= i < |ts| => ActiveTripEntry(buses, ts[i]))
  }

  /** `getActiveTrips`: one entry per active trip, in query order, none dropped. */
  function GetActiveTrips(db: Database): (r: Listing<ActiveTrip>)
    reads db
    ensures r.count == |r.data| == |ActiveTrips(db.trips)|
    ensures forall i :: 0 <= i < |r.data| ==> r.data[i].trip == ActiveTrips(db.trips)[i]
    ensures forall i :: 0 <= i < |r.data| ==> r.data[i] == ActiveTripEntry(db.buses, ActiveTrips(db.trips)[i])
    ensures forall e :: e in r.data ==> e.trip.id in db.trips.docs && e.trip.data == db.trips.docs[e.trip.id] && e.trip.data.status == ACTIVE
  {
    var entries := EntriesOf(db.buses, ActiveTrips(db.trips));
    Listing(|entries|, entries)
  }

  /** Every active trip of the store has its entry in `getActiveTrips`, with its bus's data. */
  lemma EveryActiveTripListed(db: Database, id: string)
    requires id in db.trips.docs && db.trips.docs[id].status == ACTIVE
    ensures exists i ::
      0 <= i < |GetActiveTrips(db).data| &&
      GetActiveTrips(db).data[i] == ActiveTripEntry(db.buses, Doc(id, db.trips.docs[id]))
  {
    var q := ActiveTrips(db.trips);
    var i :| 0 <= i < |q| && q[i] == Doc(id, db.trips.docs[id]);
    assert GetActiveTrips(db).data[i] == ActiveTripEntry(db.buses, q[i]);
  }
}
