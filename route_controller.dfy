/**
 * The handlers of src/controllers/routeController.js over the abstract
 * store: every route, one route, and the buses of one route's active trips.
 */
module RouteController {
  import opened Common
  import opened DocStore
  import opened Store

  /** `getAllRoutes`: every stored route once, with its id, in query order. */
  function GetAllRoutes(db: Database): (r: Listing<Doc<Route>>)
    reads db
    ensures r.count == |r.data| == |db.routes.ids|
    ensures forall i :: 0 <= i < |r.data| ==> r.data[i] == Doc(db.routes.ids[i], db.routes.docs[db.routes.ids[i]])
    ensures forall id :: id in db.routes.docs ==> Doc(id, db.routes.docs[id]) in r.data
  {
    var routes := Snapshot(db.routes);
    Listing(|routes|, routes)
  }

  /** `getRouteById`: 404 for an unknown id, otherwise the stored route under the requested id. */
  function GetRouteById(db: Database, id: string): (o: Outcome<Doc<Route>>)
    reads db
    ensures o.NotFound? <==> id !in db.routes.docs
    ensures o.NotFound? ==> o.error == ROUTE_NOT_FOUND
    ensures !o.BadRequest?
    ensures o.Ok? ==> o.value.id == id && o.value.data == db.routes.docs[id]
    ensures o.Status() == 200 <==> id in db.routes.docs
  {
    match Get(db.routes, id)
    case None => NotFound(ROUTE_NOT_FOUND)
    case Some(d) => Ok(d)
  }

  /** The body of `getBusesOnRoute`; the notice comes only when the route has no active trip. */
  datatype RouteBuses = RouteBuses(count: nat, data: seq<Doc<Bus>>, message: Option<string>)

  /** `tripsSnapshot.docs.map(doc => doc.data().busId)` */
  function BusIdsOf(ts: seq<Doc<Trip>>): (r: seq<string>)
    ensures |r| == |ts|
    ensures forall i :: 0 <= i < |ts| ==> r[i] == ts[i].data.busId
  {
    seq(|ts|, i requires 0 <= i < |ts| => ts[i].data.busId)
  }

  /**
   * `getBusesOnRoute`: 404 for an unknown route. With no active trip on the
   * route, count 0, no buses and the notice. Otherwise the buses named by the
   * active trips, in trip order, with a dangling bus id dropped; there is no
   * notice even when every id dangles.
   */
  function GetBusesOnRoute(db: Database, id: string): (o: Outcome<RouteBuses>)
    reads db
    ensures o.NotFound? <==> id !in db.routes.docs
    ensures o.NotFound? ==> o.error == ROUTE_NOT_FOUND
    ensures !o.BadRequest?
    ensures o.Ok? ==> o.value.count == |o.value.data|
    ensures o.Ok? ==>
      (o.value.message.Some? <==>
        forall t :: t in db.trips.docs ==> !(db.trips.docs[t].routeId == id && db.trips.docs[t].status == ACTIVE))
    ensures o.Ok? && o.value.message.Some? ==> o.value.message.value == NO_ACTIVE_BUSES && o.value.data == []
    ensures o.Ok? ==>
      IdsOf(o.value.data) == Where(BusIdsOf(RouteActiveTrips(db.trips, id)), Known(db.buses))
    ensures o.Ok? ==> forall d :: d in o.value.data ==> d.id in db.buses.docs && d.data == db.buses.docs[d.id]
  {
    match Get(db.routes, id)
    case None => NotFound(ROUTE_NOT_FOUND)
    case Some(_) =>
      var trips := RouteActiveTrips(db.trips, id);
      var busIds := BusIdsOf(trips);
      if |busIds| == 0 then
        assert busIds == [];
        Ok(RouteBuses(0, [], Some(NO_ACTIVE_BUSES)))
      else
        assert trips[0] in trips;
        var buses := Somes(GetEach(db.buses, busIds));
        ExistingDocs(db.buses, busIds);
        Ok(RouteBuses(|buses|, buses, None))
  }

  /**
   * A bus is listed once per active trip of the route it serves, and a bus
   * id that names no bus is not listed at all.
   */
  lemma BusListedOncePerTrip(db: Database, id: string, busId: string)
    requires id in db.routes.docs
    ensures GetBusesOnRoute(db, id).Ok?
    ensures multiset(IdsOf(GetBusesOnRoute(db, id).value.data))[busId] ==
      if busId in db.buses.docs then multiset(BusIdsOf(RouteActiveTrips(db.trips, id)))[busId] else 0
  {
    WhereCount(BusIdsOf(RouteActiveTrips(db.trips, id)), Known(db.buses), busId);
  }
}
