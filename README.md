# NTC Bus Tracking API — a verified model of its request handling

The Bus-tracker service is a REST API over a document store with three
collections: buses, routes and trips. It identifies the caller by the
`x-api-key` header as NTC_ADMIN, OPERATOR or PUBLIC. It serves read views
that join the collections, and it lets operators report a bus's position.
This project models, in Dafny:

- **The API-key gate** of `src/middleware/auth.js`.
  - `authenticate` maps the header to a role, checking NTC_ADMIN, then OPERATOR, then PUBLIC.
  - A missing key gets 401 and an unknown key gets 403.
  - `requireRole(...)` admits only the roles it lists (module `Auth`).
- **The route table** of `src/routes/index.js`, together with the parts of the router it relies on.
  - Layers go onto the router's stack in registration order.
  - A request goes to the first layer whose verb and pattern match. A GET layer also serves HEAD.
  - `:param` stands for exactly one non-empty path segment.
  - The matched layer's middleware chain runs until one middleware replies or the handler is reached (modules `Express` and `Routes`).
- **The twelve controller handlers** of the bus, trip, tracking and route controllers (modules `BusController`, `TripController`, `TrackingController` and `RouteController`).
  - They work over an in-memory document store (modules `DocStore` and `Store`).
  - A collection is `ids`, its query order, plus `docs`, an id-to-document map.
  - `where` is `Where` (a filter), `orderBy(…, 'desc')` is `SortDesc` (a sort by a key, largest first), `limit` is `Take` (a prefix), `doc(id).get()` is `Get`, and `Promise.all` over lookups is `GetEach` (one lookup per id, in order).
  - A handler answers `Ok(payload)`, `BadRequest(error)` or `NotFound(error)`.
  - The location update is a method that takes the database object and changes its bus collection in place (`modifies db`).

The proved properties cover the following:

- the exact outcomes of the key gate;
- which middleware guards each endpoint, and what a given key gets from each;
- the unreachable `/trips/active` endpoint, with a corrected route order;
- what each filter admits;
- the top-100 ordering of the trip list;
- null fields for dangling references;
- which list items are kept and which dropped, and their order;
- `count` always equals the length of `data`;
- the location update writes to exactly one bus.

Some behaviour of the code is easy to misread. The model follows the code on each point:

- The endpoint list in `src/routes/index.js:63` advertises `GET /api/trips/active` as "Get all active trips". But `/trips/:id` (line 20) is registered before `/trips/active` (line 21) and takes that request, so `getActiveTrips` is never reached (see Findings).
- `lastUpdated` is whatever the server clock gives (`FieldValue.serverTimestamp()`), and nothing makes it grow from one update to the next. The model takes the clock reading as a parameter `now` and claims no ordering.
- Buses-on-route returns the bus documents only, without the trips that named them.
- The route-tracking notice "No active buses on this route currently" appears only when the route has no active trip. When a route has active trips but every bus they name is missing, the answer is `count: 0` with no notice.

The body check `!latitude || !longitude` also refuses a coordinate of 0, since 0 is falsy. Nothing else in `src/controllers/busController.js` limits the coordinates. The model keeps this refusal of 0 as written (`Falsy`).

## Model

| member | source | states |
|---|---|---|
| `Common.Outcome.Status` | src/controllers/busController.js:70-84 | a handler's answer is sent with status 200 exactly when it is `Ok`, 400 exactly when it is `BadRequest` and 404 exactly when it is `NotFound`; the by-id handlers and the location update state their status codes through it |
| `Auth.Identify` | src/middleware/auth.js:10-36 | a missing or empty key is refused with 401 "API key is required". A supplied key is granted a role exactly when some configured key equals it, and is otherwise refused with 403 "Invalid API key". The granted role's key is set and equals the header, and no role checked earlier has that key, so NTC_ADMIN wins over OPERATOR over PUBLIC. A role whose key is unset is never granted |
| `Auth.Authenticate` | src/middleware/auth.js:10-36 | `next()` is called exactly when `Identify` grants a role, and then `req.userRole` is that role's name. On a refusal the reply is `Identify`'s and `userRole` is untouched |
| `Auth.RequireRole` | src/middleware/auth.js:38-48 | passes exactly when `userRole` is the name of an allowed role; otherwise 403 "Insufficient permissions" with the allowed roles listed |
| `Auth.JoinNames` | src/middleware/auth.js:43 | `allowedRoles.join(', ')` is empty exactly when no role is listed, and starts with the first role's name |
| `Auth.JoinNamesSnoc` | src/middleware/auth.js:43 | the separator goes between names only: listing one more role appends ", " and its name |
| `Auth.LocationGateMessage` | src/middleware/auth.js:43 | the refusal of `requireRole('OPERATOR', 'NTC_ADMIN')` names the roles in the order given, joined by ", " |
| `Routes.MatchPath` | src/routes/index.js:11-24 | a pattern matches exactly the paths of its length whose segments equal its literals and are non-empty at its parameters; every parameter name is captured |
| `Routes.MatchPathKeys` | src/routes/index.js:11-24 | a match captures no name other than the pattern's parameter names |
| `Routes.MatchPathBindings` | src/routes/index.js:11-24 | each parameter name is bound to the path segment under its rightmost occurrence in the pattern, so `/buses/:id` binds `id` to the second segment |
| `Routes.FirstMatchFrom` | src/routes/index.js:11-43 | the index found matches, and no layer between the start and it matches; when none is found, no layer from the start matches |
| `Routes.FirstMatch` | src/routes/index.js:11-43 | the layer chosen is the first one in registration order that takes the verb and path; when none is chosen, no layer takes them |
| `Routes.RunChain` | src/routes/index.js:27-31 | a chain with no middleware passes and keeps the role it was given |
| `Routes.ChainOutcome` | src/routes/index.js:27-31 | a chain that contains `authenticate` passes only a key `authenticate` grants, and leaves that key's role; a chain without it leaves the role it was given; a chain that halts sends the key refusal of `authenticate` or the 403 of one of its role checks |
| `Routes.Serve` | src/routes/index.js:11-43 | a request gets no route exactly when no layer takes it |
| `Routes.ServeFirstLayer` | src/routes/index.js:11-43 | the first layer that takes the request decides it: its chain runs with no role recorded, and either the chain's reply is sent or that layer's handler runs with the parameters its pattern captured and the role the chain recorded |
| `Routes.UnguardedServe` | src/routes/index.js:34-43 | the first matching layer, when it runs no middleware, is reached with no role recorded |
| `Routes.Router.Get` | src/routes/index.js:11-24 | `router.get` appends one GET layer with that pattern, chain and handler, after every layer already on the stack |
| `Routes.Router.Put` | src/routes/index.js:27-31 | `router.put` appends one PUT layer with that pattern, chain and handler, after every layer already on the stack |
| `Routes.Router.Find` | src/routes/index.js:11-43 | the scan of the stack returns the first matching layer, the same one `FirstMatch` chooses |
| `Routes.Router.Handle` | src/routes/index.js:11-43 | dispatching a request runs the first matching layer's middleware in order and stops at the first reply. The outcome is `Serve`'s, and a request that reaches its handler carries the captured parameters and the role the chain recorded |
| `Routes.BuildApiRouter` | src/routes/index.js:8-43 | the successive `router.get`/`router.put` calls leave a fresh router whose stack is the fourteen layers in source order |
| `Routes.ApiRoutes` | src/routes/index.js:11-43 | the registered stack has fourteen layers |
| `Routes.EachHandlerOnce` | src/routes/index.js:11-43 | each controller function is mounted once; `/trips/:id` is the eighth layer and `/trips/active` the ninth |
| `Routes.FixedApiRoutes` | src/routes/index.js:19-21 | the corrected stack has as many layers as the registered one |
| `Routes.FixedRoutesSwapTrips` | src/routes/index.js:20-21 | the corrected stack differs from the registered one only by exchanging the two trip layers |
| `Routes.FirstMatchIs` | src/routes/index.js:11-43 | a layer that matches, with none before it matching, is the first match |
| `Routes.SwapKeepsFirstMatch` | src/routes/index.js:20-21 | exchanging two neighbouring layers, the second of which does not match, leaves the matching layer unchanged |
| `Routes.TablesAreGated` | src/routes/index.js:11-40 | in both the registered table and the corrected one, every data endpoint's chain is exactly `authenticate`, the location update's is `authenticate`, `requireRole('OPERATOR', 'NTC_ADMIN')`, and `/health` and `/` run no middleware |
| `Routes.LayersAreGated` | src/routes/index.js:11-43 | every registered layer keeps the role discipline: `authenticate` alone on reads, `authenticate` then `requireRole('OPERATOR', 'NTC_ADMIN')` on the location update, nothing on `/health` and `/` |
| `Routes.KeyChain` | src/routes/index.js:11-24 | the chain `[authenticate]` passes exactly the keys that authenticate, with their role, and otherwise replies with the key refusal |
| `Routes.OperatorChain` | src/routes/index.js:27-31 | the location update's chain passes OPERATOR and NTC_ADMIN keys, refuses a PUBLIC key with "Insufficient permissions", and refuses other keys as `authenticate` does |
| `Routes.DataHandlersRunAuthenticated` | src/routes/index.js:11-31 | in any table gated like this one, a data handler runs only after `authenticate` granted the key a role, and with that role |
| `Routes.MissingKeyIsRefused` | src/routes/index.js:11-43 | without a key, every data endpoint answers 401 "API key is required"; only `/health` and `/` are reached, and with no role |
| `Routes.OnlyOperatorsUpdateLocation` | src/routes/index.js:27-31 | the location update is reached only with role OPERATOR or NTC_ADMIN |
| `Routes.ReadsNeedOnlyAKey` | src/routes/index.js:11-24 | a key that authenticates is never refused on a GET or HEAD request |
| `Routes.PublicKeyCannotUpdateLocation` | src/routes/index.js:27-31 | with a PUBLIC key that is not also an operator or admin key, `PUT /buses/:id/location` answers 403 "Insufficient permissions", "This endpoint requires one of the following roles: OPERATOR, NTC_ADMIN" |
| `Routes.OperatorKeyUpdatesLocation` | src/routes/index.js:27-31 | an OPERATOR or NTC_ADMIN key reaches the location update with `id` bound to the bus id and its role recorded |
| `Routes.HealthIsFirst` | src/routes/index.js:34 | `GET /health` is taken first by the `/health` layer, the thirteenth |
| `Routes.IndexIsFirst` | src/routes/index.js:43 | `GET /` is taken first by the `/` layer, the last one, since every other pattern has a segment |
| `Routes.HealthAndIndexAreOpen` | src/routes/index.js:34-43 | `GET /health` and `GET /` reach their handlers with any key or none, and record no role |
| `Routes.TripsActiveGoesToTripById` | src/routes/index.js:20-21 | as registered, `GET /trips/active` with a valid key reaches `getTripById` with `id` = "active" |
| `Routes.ShadowedPattern` | src/routes/index.js:20-21 | every request `/trips/active` takes, `/trips/:id` takes too |
| `Routes.ShadowedUnreachable` | src/routes/index.js:20-21 | a layer below one that takes every request it takes never runs its handler, when no other layer mounts that handler |
| `Routes.ActiveTripsUnreachable` | src/routes/index.js:20-21 | as registered, no request of any verb, path or key reaches `getActiveTrips` |
| `Routes.FixedRoutesReachActiveTrips` | src/routes/index.js:20-21 | with `/trips/active` registered first, `GET /trips/active` with a valid key reaches `getActiveTrips` |
| `Routes.FixedRoutesKeepTripById` | src/routes/index.js:20 | with the corrected order, every trip id other than "active" still reaches `getTripById` |
| `Routes.FixedRoutesAgreeElsewhere` | src/routes/index.js:11-43 | the corrected order changes the outcome of no request other than `/trips/active` |
| `Routes.SameLayerSameServe` | src/routes/index.js:11-43 | two tables whose first matching layers coincide serve the request alike |
| `DocStore.Get` | src/controllers/busController.js:39-41 | a lookup finds a document exactly when the id is stored, and then it is that id's data under that id |
| `DocStore.Snapshot` | src/controllers/routeController.js:4-9 | a collection read lists every stored document once, in query order, with its id |
| `DocStore.Where` | src/controllers/tripController.js:8-16 | a `where` keeps exactly the elements that satisfy it, and is never longer than its input |
| `DocStore.WhereWhere` | src/controllers/busController.js:9-14 | two `where` clauses in a row select what their conjunction selects, in the same order |
| `DocStore.WhereSame` | src/controllers/busController.js:9-14 | filters that agree on every element select the same subsequence |
| `DocStore.WhereAll` | src/controllers/busController.js:7 | with no `where` clause the query is the whole collection |
| `DocStore.WhereCount` | src/controllers/routeController.js:89-94 | a filter keeps every copy of an element it admits and no copy of one it rejects |
| `DocStore.Take` | src/controllers/tripController.js:28 | `limit(n)` is the first n elements, or all of them when there are fewer |
| `DocStore.Insert` | src/controllers/tripController.js:28 | inserting into a descending sequence keeps it descending and adds exactly that element |
| `DocStore.SortDesc` | src/controllers/tripController.js:28 | `orderBy(key, 'desc')` is a rearrangement of the query with the largest key first |
| `DocStore.TopOfSorted` | src/controllers/tripController.js:28 | `orderBy(key, 'desc').limit(n)` keeps at most n elements, sorted, all from the query and no element more often than the query has it. It keeps everything when the query is short, and no element it drops has a larger key than one it keeps |
| `DocStore.SubUnique` | src/controllers/tripController.js:28-32 | part of a document list with distinct ids, taken with multiplicity, has distinct ids too |
| `DocStore.TopUnique` | src/controllers/tripController.js:6-28 | a filtered, sorted and capped snapshot lists no document id twice |
| `DocStore.Somes` | src/controllers/trackingController.js:130 | dropping the nulls keeps exactly the values that were found |
| `DocStore.GetEach` | src/controllers/routeController.js:84-87 | one lookup per id, in id order |
| `DocStore.ExistingDocs` | src/controllers/routeController.js:84-94 | looking ids up and keeping what exists yields the documents of exactly the stored ids, in id order; a dangling id is dropped and a repeated id repeats its document |
| `Store.ActiveTrips` | src/controllers/tripController.js:90-92 | the active-trip query returns exactly the stored trips whose status is "active" |
| `Store.RouteActiveTrips` | src/controllers/trackingController.js:89-92 | the query returns exactly the stored active trips of the route |
| `Store.CurrentTripQuery` | src/controllers/busController.js:140-144 | the `limit(1)` query is empty exactly when no trip of the bus is active; otherwise it is the first such trip in query order |
| `BusController.GetAllBuses` | src/controllers/busController.js:4-34 | the list holds exactly the stored buses that pass every supplied `operatorId`/`status` filter, in query order; an absent or empty filter imposes nothing; `count` is the list's length |
| `BusController.GetBusById` | src/controllers/busController.js:36-62 | 404 "Bus not found" exactly for an unknown id, never 400, and status 200 exactly for a stored id, with the stored bus under the requested id |
| `BusController.BuildUpdate` | src/controllers/busController.js:87-101 | the new location holds the parsed coordinates and the server time. It has a speed, or a heading, exactly when the body carries one, parsed |
| `BusController.ApplyUpdate` | src/controllers/busController.js:103 | the update replaces `currentLocation` and `lastUpdated` and leaves every other field of the bus as it was |
| `BusController.UpdateForgetsEarlierLocation` | src/controllers/busController.js:87-103 | the updated bus does not depend on its previous location or timestamp: nothing of the old position is carried over |
| `BusController.UpdateBusLocation` | src/controllers/busController.js:64-123 | status 400 exactly when the latitude or longitude is falsy, and 404 for an unknown bus, both leaving the store unchanged. Otherwise exactly that bus's location and timestamp change, all other buses and both other collections stay as they were, and the answer is the re-read document |
| `BusController.GetBusStatus` | src/controllers/busController.js:125-173 | 404 for an unknown bus; otherwise its status fields, with `currentTrip` null exactly when no trip of the bus is active, and otherwise an active trip of that bus |
| `TripController.StatusStage` | src/controllers/tripController.js:8-10 | the `status` clause narrows the query to the trips of that status, and an absent status leaves it as it was |
| `TripController.RouteStage` | src/controllers/tripController.js:11-13 | the `routeId` clause narrows the query to the trips of that route, and an absent route leaves it as it was |
| `TripController.BusStage` | src/controllers/tripController.js:14-16 | the `busId` clause narrows the query to the trips of that bus, and an absent bus leaves it as it was |
| `TripController.DateStage` | src/controllers/tripController.js:17-26 | a date adds the two range clauses, departure no earlier than the day's start and no later than its end; no date leaves the query as it was |
| `TripController.ListedTripsMatch` | src/controllers/tripController.js:8-28 | every trip the capped query keeps is stored under its id and passes every supplied filter |
| `TripController.MatchingTripsQueried` | src/controllers/tripController.js:8-26 | every stored trip that passes every supplied filter is in the filtered query |
| `TripController.LaterTripsListed` | src/controllers/tripController.js:28 | no matching trip the cap drops departs later than a trip it keeps |
| `TripController.TopTrips` | src/controllers/tripController.js:8-28 | the filtered, sorted and capped query holds at most 100 distinct stored trips that pass every filter, latest departure first. It holds all of them when fewer than 100, and the 100 latest otherwise |
| `TripController.GetAllTrips` | src/controllers/tripController.js:3-46 | at most 100 trips, sorted by departure descending, each passing every supplied filter and the date's day bounds inclusive, all of them when fewer than 100, none left out departing later than one kept, and no trip twice; `count` is the list's length |
| `TripController.GetTripById` | src/controllers/tripController.js:48-86 | 404 "Trip not found" exactly for an unknown trip, and status 200 exactly for a stored one; then the trip, with `route` null exactly when its route is missing and `bus` null exactly when its bus is missing |
| `TripController.ActiveTripEntry` | src/controllers/tripController.js:95-106 | an active trip's entry carries the trip. Its `currentLocation` and `busRegistration` are null exactly when the bus is missing or has no position, or an empty registration, and are otherwise the bus's |
| `TripController.GetActiveTrips` | src/controllers/tripController.js:88-123 | one entry per active trip, in query order, none dropped; entry i is the i-th active trip with, when its bus exists, that bus's current location and its registration (each null when missing or empty, as `|| null` makes it); `count` is the list's length |
| `TripController.EveryActiveTripListed` | src/controllers/tripController.js:90-114 | every stored active trip has its entry in the listing |
| `TrackingController.TrackBus` | src/controllers/trackingController.js:3-71 | 404 for an unknown bus; otherwise the bus's summary and position. `currentTrip` is null exactly when no trip of the bus is active. `route` is set only with a current trip, and then exactly when that trip's route exists |
| `TrackingController.BusOnTrip` | src/controllers/trackingController.js:110-113 | a trip's lookup is null exactly when its bus is missing |
| `TrackingController.EntriesFor` | src/controllers/trackingController.js:109-130 | one entry per trip whose bus exists, in order |
| `TrackingController.KeptInTripOrder` | src/controllers/trackingController.js:109-130 | dropping null lookups leaves the entries of exactly the trips whose bus exists, in trip order |
| `TrackingController.EntriesOfKeptTrips` | src/controllers/trackingController.js:109-130 | after the null lookups are dropped, the entry at each position belongs to the trip at that position among the trips whose bus exists |
| `TrackingController.TrackRoute` | src/controllers/trackingController.js:73-150 | 404 for an unknown route. With no active trip on it, the route and the notice. Otherwise one entry per active trip whose bus exists, in trip order, with `count` its length; each entry carries the trip's bus id, that bus's registration, position, status and last update, and the trip's id and times |
| `RouteController.GetAllRoutes` | src/controllers/routeController.js:3-23 | every stored route once, with its id, in query order; `count` is the list's length |
| `RouteController.GetRouteById` | src/controllers/routeController.js:25-51 | 404 "Route not found" exactly for an unknown id, and status 200 exactly for a stored id, with the stored route under the requested id |
| `RouteController.GetBusesOnRoute` | src/controllers/routeController.js:53-108 | 404 for an unknown route. With no active trip, count 0, no buses and the notice. Otherwise the stored buses named by the active trips, one per trip in trip order (the bus id of each trip, looked up), with dangling ids dropped and a bus serving two trips listed twice; `count` is the list's length |
| `RouteController.BusListedOncePerTrip` | src/controllers/routeController.js:84-94 | a bus appears once per active trip of the route it serves, and a dangling bus id not at all |

## Findings

| source | as written | input that shows it | evidently intended | confidence | as-written member | corrected member |
|---|---|---|---|---|---|---|
| src/routes/index.js:20-21 | `/trips/:id` is registered before `/trips/active`, so under first-match dispatch it takes `/trips/active` with `id` = "active" and `getActiveTrips` is never reached | `GET /api/trips/active` with any valid key | `/trips/active` reaches `getActiveTrips`, as the endpoint list at line 63 advertises, and other trip ids still reach `getTripById` | high; not executed | `Routes.ActiveTripsUnreachable` | `Routes.FixedRoutesReachActiveTrips` |

`Routes.ApiRoutes` is the table as registered, and `Routes.TripsActiveGoesToTripById` shows where the request goes instead. `Routes.FixedApiRoutes` is the corrected table. `Routes.FixedRoutesKeepTripById` and `Routes.FixedRoutesAgreeElsewhere` show that the correction changes nothing else. The gating lemmas hold of both tables.

## Left out

- The document store itself is replaced by in-memory collections. Indexes, the composite indexes a multi-field query needs, and query failures are not modelled.
- The 500 responses are not modelled. Every handler's `catch` fires only when the store or the network throws.
- An empty reference id is not modelled either. Looking one up throws in the store, so it too would end in a 500.
- The JSON envelope is not modelled: `success`, `res.json` and the `message` field of a successful update.
- `parseFloat` is a parameter of the location update. The model does not compute the float it returns.
- `FieldValue.serverTimestamp()` is a parameter `now`, and nothing is claimed about its growth.
- `new Date(date)` and `setHours` are a parameter `calendar`, giving a day's bounds. Local time zones and invalid dates are not modelled.
- Query-string values are single strings. Repeated parameters, which arrive as arrays, are not modelled.
- `Promise.all` is a sequential map. The concurrency of the lookups does not change the result.
- The key table is a parameter (`ApiKeys`), standing for the environment variables that `dotenv` loads.
- `src/scripts/seedData.js` is not part of this model: it only reads files and writes documents.
- The `/health` timestamp and the static payload of `/` are left out. The model keeps these two endpoints in the table and shows that they are open.
- Paths arrive already split at '/', relative to the router's mount point. Trailing slashes, case-insensitive matching, percent-decoding, the automatic OPTIONS reply and what happens after no route matches are not modelled.
- The spread `{ id: doc.id, ...doc.data() }` is modelled as the pair `Doc(id, data)`. A stored document with a field of its own named `id` would override the id in the JSON body, and that is not modelled.
- A route's fields are kept as an uninterpreted map. Bus fields the code never reads are left out.
- Firestore's `orderBy` leaves out documents that lack the field. Every modelled trip has a departure time, so this does not arise.
- TripController.GetAllTrips: trips with the same departure time may come in any order. Firestore breaks such ties by document id; the model claims only the departure order.
- BusController.UpdateBusLocation: the 400 check is written on the parsed JSON body. A body too malformed to parse never reaches the handler, and is not modelled.
- BusController.UpdateBusLocation: requests are modelled one at a time. The source reads the bus (busController.js:78), updates it (:103) and reads it again (:106) as three separate store calls, with no transaction. The proved reply equals this update's data only when no other write lands in between. Concurrent updates are last-write-wins, so the reply may show another request's write, and a bus deleted between :78 and :103 makes `update` throw (a 500). None of this is modelled.
