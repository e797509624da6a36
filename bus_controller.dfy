/**
 * The handlers of src/controllers/busController.js over the abstract store:
 * the filtered bus list, one bus, its status with the current trip, and the
 * location update, the one write the API performs.
 */
module BusController {
  import opened Common
  import opened DocStore
  import opened Store

  const COORDINATES_REQUIRED: string := "Latitude and longitude are required"

  /** `where('operatorId', '==', operatorId)` */
  function OperatorIs(operatorId: string): Doc<Bus> -> bool {
    (d: Doc<Bus>) => d.data.operatorId == operatorId
  }

  /** `where('status', '==', status)` */
  function BusStatusIs(status: string): Doc<Bus> -> bool {
    (d: Doc<Bus>) => d.data.status == status
  }

  /** What the optional query-string filters of the bus list admit: an absent or empty filter admits every bus. */
  function BusFilter(operatorId: Option<string>, status: Option<string>): Doc<Bus> -> bool {
    (d: Doc<Bus>) =>
      && (Supplied(operatorId) ==> d.data.operatorId == operatorId.value)
      && (Supplied(status) ==> d.data.status == status.value)
  }

  /**
   * `getAllBuses`: the query starts as the whole collection and gains one
   * `where` per supplied filter. The list holds exactly the stored buses that
   * pass every supplied filter, each once and in query order.
   */
  method GetAllBuses(db: Database, operatorId: Option<string>, status: Option<string>) returns (r: Listing<Doc<Bus>>)
    ensures r.count == |r.data|
    ensures r.data == Where(Snapshot(db.buses), BusFilter(operatorId, status))
    ensures forall d :: d in r.data ==>
      && d.id in db.buses.docs && d.data == db.buses.docs[d.id]
      && (Supplied(operatorId) ==> d.data.operatorId == operatorId.value)
      && (Supplied(status) ==> d.data.status == status.value)
    ensures forall id ::
      (&& id in db.buses.docs
       && (Supplied(operatorId) ==> db.buses.docs[id].operatorId == operatorId.value)
       && (Supplied(status) ==> db.buses.docs[id].status == status.value))
      ==> Doc(id, db.buses.docs[id]) in r.data
    ensures !Supplied(operatorId) && !Supplied(status) ==> r.data == Snapshot(db.buses)
  {
    var all := Snapshot(db.buses);
    var query := all;
    if Supplied(operatorId) {
      query := Where(query, OperatorIs(operatorId.value));
    }
    if Supplied(status) {
      query := Where(query, BusStatusIs(status.value));
    }
    var filter := BusFilter(operatorId, status);
    if Supplied(operatorId) && Supplied(status) {
      WhereWhere(all, OperatorIs(operatorId.value), BusStatusIs(status.value), filter);
    } else if Supplied(operatorId) {
      WhereSame(all, OperatorIs(operatorId.value), filter);
    } else if Supplied(status) {
      WhereSame(all, BusStatusIs(status.value), filter);
    } else {
      WhereAll(all, filter);
    }
    assert forall id :: id in db.buses.docs && filter(Doc(id, db.buses.docs[id])) ==> Doc(id, db.buses.docs[id]) in all;
    r := Listing(|query|, query);
  }

  /** `getBusById`: 404 for an unknown id, otherwise the stored bus under the requested id. */
  function GetBusById(db: Database, id: string): (o: Outcome<Doc<Bus>>)
    reads db
    ensures o.NotFound? <==> id !in db.buses.docs
    ensures o.NotFound? ==> o.error == BUS_NOT_FOUND
    ensures !o.BadRequest?
    ensures o.Ok? ==> o.value.id == id && o.value.data == db.buses.docs[id]
    ensures o.Status() == 200 <==> id in db.buses.docs
  {
    match Get(db.buses, id)
    case None => NotFound(BUS_NOT_FOUND)
    case Some(d) => Ok(d)
  }

  /** The request body's fields; Undefined when the body does not carry one. */
  datatype LocationBody = LocationBody(latitude: JsonValue, longitude: JsonValue, speed: JsonValue, heading: JsonValue)

  /** `updateData`: the two fields the update writes. */
  datatype LocationUpdate = LocationUpdate(currentLocation: Location, lastUpdated: Time)

  /**
   * Building `updateData`: the coordinates always, `speed` and `heading` only
   * when the body carries them, all numbers passed through `parseFloat`, and
   * the server's clock reading as both timestamps.
   */
  method BuildUpdate(body: LocationBody, parseFloat: JsonValue -> JsonValue, now: Time) returns (u: LocationUpdate)
    ensures u.currentLocation.latitude == parseFloat(body.latitude)
    ensures u.currentLocation.longitude == parseFloat(body.longitude)
    ensures u.currentLocation.timestamp == now && u.lastUpdated == now
    ensures u.currentLocation.speed.Some? <==> body.speed != Undefined
    ensures u.currentLocation.speed.Some? ==> u.currentLocation.speed.value == parseFloat(body.speed)
    ensures u.currentLocation.heading.Some? <==> body.heading != Undefined
    ensures u.currentLocation.heading.Some? ==> u.currentLocation.heading.value == parseFloat(body.heading)
  {
    var location := Location(parseFloat(body.latitude), parseFloat(body.longitude), None, None, now);
    if body.speed != Undefined {
      location := location.(speed := Some(parseFloat(body.speed)));
    }
    if body.heading != Undefined {
      location := location.(heading := Some(parseFloat(body.heading)));
    }
    u := LocationUpdate(location, now);
  }

  /** A bus with the two fields the API writes blanked out: what an update must leave alone. */
  function Static(b: Bus): Bus {
    b.(currentLocation := None, lastUpdated := None)
  }

  /** `doc.update(updateData)`: both fields are replaced wholesale and no other field is touched. */
  function ApplyUpdate(b: Bus, u: LocationUpdate): (n: Bus)
    ensures Static(n) == Static(b)
    ensures n.currentLocation == Some(u.currentLocation) && n.lastUpdated == Some(u.lastUpdated)
  {
    b.(currentLocation := Some(u.currentLocation), lastUpdated := Some(u.lastUpdated))
  }

  /** Applying an update depends on the bus only through the fields the update leaves alone. */
  lemma UpdateForgetsEarlierLocation(b: Bus, c: Bus, u: LocationUpdate)
    requires Static(b) == Static(c)
    ensures ApplyUpdate(b, u) == ApplyUpdate(c, u)
  {
  }

  /**
   * `updateBusLocation`. A falsy latitude or longitude is refused with 400
   * before the store is read; an unknown bus with 404; in both cases nothing
   * is written. Otherwise that one bus gets its new location and timestamp,
   * every other bus and collection is unchanged, and the answer is the
   * re-read document.
   */
  method UpdateBusLocation(db: Database, id: string, body: LocationBody, parseFloat: JsonValue -> JsonValue, now: Time)
    returns (o: Outcome<Doc<Bus>>)
    modifies db
    ensures Falsy(body.latitude) || Falsy(body.longitude) ==>
      o == BadRequest(COORDINATES_REQUIRED) && unchanged(db)
    ensures !Falsy(body.latitude) && !Falsy(body.longitude) && id !in old(db.buses.docs) ==>
      o == NotFound(BUS_NOT_FOUND) && unchanged(db)
    ensures o.Ok? <==> !Falsy(body.latitude) && !Falsy(body.longitude) && id in old(db.buses.docs)
    ensures o.Status() == 400 <==> Falsy(body.latitude) || Falsy(body.longitude)
    ensures o.Ok? ==>
      && o.value.id == id
      && Static(o.value.data) == Static(old(db.buses.docs[id]))
      && o.value.data.lastUpdated == Some(now)
      && o.value.data.currentLocation.Some?
      && o.value.data.currentLocation.value.latitude == parseFloat(body.latitude)
      && o.value.data.currentLocation.value.longitude == parseFloat(body.longitude)
      && o.value.data.currentLocation.value.timestamp == now
      && o.value.data.currentLocation.value.speed == (if body.speed != Undefined then Some(parseFloat(body.speed)) else None)
      && o.value.data.currentLocation.value.heading == (if body.heading != Undefined then Some(parseFloat(body.heading)) else None)
    ensures o.Ok? ==>
      && db.buses.ids == old(db.buses.ids)
      && db.buses.docs == old(db.buses.docs)[id := o.value.data]
      && db.routes == old(db.routes) && db.trips == old(db.trips)
  {
    if Falsy(body.latitude) || Falsy(body.longitude) {
      return BadRequest(COORDINATES_REQUIRED);
    }
    if Get(db.buses, id).None? {
      return NotFound(BUS_NOT_FOUND);
    }
    var u := BuildUpdate(body, parseFloat, now);
    var updated := ApplyUpdate(db.buses.docs[id], u);
    var docs := db.buses.docs[id := updated];
    assert docs.Keys == db.buses.docs.Keys;
    db.buses := RawCollection(db.buses.ids, docs);
    var reread := Get(db.buses, id);
    o := Ok(reread.value);
  }

  /** The body of `getBusStatus`. */
  datatype BusStatus = BusStatus(
    busId: string,
    registrationNumber: string,
    status: string,
    currentLocation: Option<Location>,
    lastUpdated: Option<Time>,
    currentTrip: Option<Doc<Trip>>)

  /**
   * `getBusStatus`: 404 for an unknown bus; otherwise its status fields and
   * `currentTrip`, which is null exactly when no trip of the bus is active,
   * and otherwise the first such trip the query returns.
   */
  method GetBusStatus(db: Database, id: string) returns (o: Outcome<BusStatus>)
    ensures o.NotFound? <==> id !in db.buses.docs
    ensures o.NotFound? ==> o.error == BUS_NOT_FOUND
    ensures !o.BadRequest?
    ensures o.Ok? ==>
      && o.value.busId == id
      && o.value.registrationNumber == db.buses.docs[id].registrationNumber
      && o.value.status == db.buses.docs[id].status
      && o.value.currentLocation == db.buses.docs[id].currentLocation
      && o.value.lastUpdated == db.buses.docs[id].lastUpdated
    ensures o.Ok? ==>
      (o.value.currentTrip.None? <==>
        forall t :: t in db.trips.docs ==> !(db.trips.docs[t].busId == id && db.trips.docs[t].status == ACTIVE))
    ensures o.Ok? && o.value.currentTrip.Some? ==>
      var trip := o.value.currentTrip.value;
      trip.id in db.trips.docs && trip.data == db.trips.docs[trip.id]
      && trip.data.busId == id && trip.data.status == ACTIVE
  {
    var busDoc := Get(db.buses, id);
    if busDoc.None? {
      return NotFound(BUS_NOT_FOUND);
    }
    var bus := busDoc.value.data;
    var tripSnapshot := CurrentTripQuery(db.trips, id);
    var currentTrip: Option<Doc<Trip>> := None;
    if tripSnapshot != [] {
      currentTrip := Some(tripSnapshot[0]);
    }
    o := Ok(BusStatus(id, bus.registrationNumber, bus.status, bus.currentLocation, bus.lastUpdated, currentTrip));
  }
}
