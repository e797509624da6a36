/**
 * The route table of src/routes/index.js and Express's dispatch over it.
 * `router.get`/`router.put` append a layer (verb, path pattern, middleware
 * chain, handler) to the router's stack in registration order; a request
 * goes to the FIRST layer whose verb and pattern match, whose chain then
 * runs middleware by middleware until one replies or the handler is reached.
 */
module Routes {
  import opened Common
  import opened Express
  import opened Auth

  /** One segment of a path pattern: literal text, or `:name`, which captures one segment. */
  datatype Segment = Literal(text: string) | Param(name: string)

  /** The middleware the table uses: `authenticate` and `requireRole(...allowed)`. */
  datatype Middleware = CheckApiKey | CheckRole(allowed: seq<Role>)

  /** The controller function, or inline handler, at the end of a chain. */
  datatype Handler =
    | GetAllRoutes | GetRouteById | GetBusesOnRoute
    | GetAllBuses | GetBusById | GetBusStatus | UpdateBusLocation
    | GetAllTrips | GetTripById | GetActiveTrips
    | TrackBus | TrackRoute
    | Health | ApiIndex

  datatype Layer = Layer(verb: Verb, pattern: seq<Segment>, chain: seq<Middleware>, handler: Handler)

  predicate SegmentMatches(seg: Segment, part: string) {
    match seg
    case Literal(text) => part == text
    case Param(_) => part != ""
  }

  /**
   * Matching a pattern against a path: equal length, literals equal, and
   * every parameter segment non-empty. The captured parameters map each
   * name to its segment (the rightmost one if a name repeats).
   */
  function MatchPath(pattern: seq<Segment>, path: seq<string>): (r: Option<map<string, string>>)
    ensures r.Some? <==>
      |pattern| == |path| && forall i :: 0 <= i < |path| ==> SegmentMatches(pattern[i], path[i])
    ensures r.Some? ==> forall i :: 0 <= i < |path| && pattern[i].Param? ==> pattern[i].name in r.value
    decreases |pattern|
  {
    if |pattern| != |path| then None
    else if pattern == [] then Some(map[])
    else if !SegmentMatches(pattern[0], path[0]) then None
    else
      match MatchPath(pattern[1..], path[1..])
      case None =>
        assert !forall i :: 1 <= i < |path| ==> SegmentMatches(pattern[i], path[i]) by {
          assert !forall i :: 0 <= i < |path| - 1 ==> SegmentMatches(pattern[1..][i], path[1..][i]);
        }
        None
      case Some(rest) =>
        match pattern[0]
        case Literal(_) => Some(rest)
        case Param(name) => Some(if name in rest then rest else rest[name := path[0]])
  }

  /** A match binds only the pattern's parameter names. */
  lemma {:induction false} MatchPathKeys(pattern: seq<Segment>, path: seq<string>)
    requires MatchPath(pattern, path).Some?
    ensures forall k :: k in MatchPath(pattern, path).value ==> exists i :: 0 <= i < |pattern| && pattern[i] == Param(k)
    decreases |pattern|
  {
    if pattern != [] {
      var rest := MatchPath(pattern[1..], path[1..]).value;
      MatchPathKeys(pattern[1..], path[1..]);
      forall k | k in rest ensures exists i :: 0 < i < |pattern| && pattern[i] == Param(k) {
        var j :| 0 <= j < |pattern| - 1 && pattern[1..][j] == Param(k);
        assert pattern[j + 1] == Param(k);
      }
    }
  }

  /** Each parameter name is bound to the segment under its rightmost occurrence in the pattern. */
  lemma {:induction false} MatchPathBindings(pattern: seq<Segment>, path: seq<string>)
    requires MatchPath(pattern, path).Some?
    ensures forall i ::
      (&& 0 <= i < |path| && pattern[i].Param?
       && (forall j :: i < j < |path| ==> pattern[j] != Param(pattern[i].name)))
      ==> MatchPath(pattern, path).value[pattern[i].name] == path[i]
    decreases |pattern|
  {
    if pattern != [] {
      var r := MatchPath(pattern, path).value;
      var rest := MatchPath(pattern[1..], path[1..]).value;
      MatchPathBindings(pattern[1..], path[1..]);
      MatchPathKeys(pattern[1..], path[1..]);
      forall i |
        && 0 <= i < |path| && pattern[i].Param?
        && (forall j :: i < j < |path| ==> pattern[j] != Param(pattern[i].name))
        ensures r[pattern[i].name] == path[i]
      {
        if i == 0 {
          forall k | k in rest
            ensures k != pattern[0].name
          {
            var j :| 0 <= j < |pattern| - 1 && pattern[1..][j] == Param(k);
            assert pattern[j + 1] == Param(k);
          }
        } else {
          assert pattern[1..][i - 1] == pattern[i] && path[1..][i - 1] == path[i];
          assert forall j :: i - 1 < j < |path| - 1 ==> pattern[1..][j] == pattern[j + 1];
          assert rest[pattern[i].name] == path[i];
        }
      }
    }
  }

  /** A GET route also serves HEAD requests. */
  predicate Handles(layer: Layer, verb: Verb) {
    layer.verb == verb || (layer.verb == GET && verb == HEAD)
  }

  predicate LayerMatches(layer: Layer, verb: Verb, path: seq<string>) {
    Handles(layer, verb) && MatchPath(layer.pattern, path).Some?
  }

  function FirstMatchFrom(table: seq<Layer>, verb: Verb, path: seq<string>, from: nat): (r: Option<nat>)
    requires from <= |table|
    ensures r.Some? ==>
      && from <= r.value < |table|
      && LayerMatches(table[r.value], verb, path)
      && forall j :: from <= j < r.value ==> !LayerMatches(table[j], verb, path)
    ensures r.None? ==> forall j :: from <= j < |table| ==> !LayerMatches(table[j], verb, path)
    decreases |table| - from
  {
    if from == |table| then None
    else if LayerMatches(table[from], verb, path) then Some(from)
    else FirstMatchFrom(table, verb, path, from + 1)
  }

  /** The index of the first layer, in registration order, that takes the request. */
  function FirstMatch(table: seq<Layer>, verb: Verb, path: seq<string>): (r: Option<nat>)
    ensures r.Some? ==>
      && r.value < |table|
      && LayerMatches(table[r.value], verb, path)
      && forall j :: 0 <= j < r.value ==> !LayerMatches(table[j], verb, path)
    ensures r.None? ==> forall j :: 0 <= j < |table| ==> !LayerMatches(table[j], verb, path)
  {
    FirstMatchFrom(table, verb, path, 0)
  }

  /** How a chain ends: every middleware called `next()` (leaving `req.userRole`), or one replied. */
  datatype ChainResult = Passed(userRole: Option<string>) | Halted(reply: Reply)

  /** The chain run in order, each middleware seeing the role the earlier ones recorded. */
  function RunChain(keys: ApiKeys, chain: seq<Middleware>, apiKey: Option<string>, userRole: Option<string>): (r: ChainResult)
    ensures chain == [] ==> r == Passed(userRole)
    decreases |chain|
  {
    if chain == [] then Passed(userRole)
    else
      match chain[0]
      case CheckApiKey =>
        (match Identify(keys, apiKey)
         case Granted(role) => RunChain(keys, chain[1..], apiKey, Some(RoleName(role)))
         case Denied(reply) => Halted(reply))
      case CheckRole(allowed) =>
        (match RequireRole(allowed, userRole)
         case Next => RunChain(keys, chain[1..], apiKey, userRole)
         case Stop(reply) => Halted(reply))
  }

  /**
   * A chain that passes and contains `authenticate` leaves the role of the
   * presented key; one without it leaves the role it was given. A chain that
   * halts sends either the refusal of `authenticate` or the 403 of one of its
   * role checks.
   */
  lemma {:induction false} ChainOutcome(keys: ApiKeys, chain: seq<Middleware>, apiKey: Option<string>, userRole: Option<string>)
    ensures var r := RunChain(keys, chain, apiKey, userRole);
      && (r.Passed? && CheckApiKey in chain ==>
           Identify(keys, apiKey).Granted? && r.userRole == Some(RoleName(Identify(keys, apiKey).role)))
      && (r.Passed? && CheckApiKey !in chain ==> r.userRole == userRole)
      && (r.Halted? ==>
           || (CheckApiKey in chain && Identify(keys, apiKey) == Denied(r.reply))
           || (exists m :: m in chain && m.CheckRole? && r.reply == InsufficientPermissions(m.allowed)))
    decreases |chain|
  {
    if chain != [] {
      assert forall m :: m in chain[1..] ==> m in chain;
      assert CheckApiKey in chain <==> chain[0] == CheckApiKey || CheckApiKey in chain[1..];
      match chain[0]
      case CheckApiKey =>
        if Identify(keys, apiKey).Granted? {
          ChainOutcome(keys, chain[1..], apiKey, Some(RoleName(Identify(keys, apiKey).role)));
        }
      case CheckRole(allowed) =>
        if RequireRole(allowed, userRole).Next? {
          ChainOutcome(keys, chain[1..], apiKey, userRole);
        }
    }
  }

  /** What becomes of a request: no route took it, a middleware replied, or the handler runs. */
  datatype Dispatch =
    | NoRoute
    | Rejected(reply: Reply)
    | Reached(handler: Handler, params: map<string, string>, userRole: Option<string>)

  /**
   * A request no layer takes gets no route; otherwise the first layer that
   * takes it runs its chain with no role recorded yet, and either a
   * middleware's reply is sent or that layer's handler runs with the
   * parameters its pattern captured and the role the chain recorded.
   */
  function Serve(keys: ApiKeys, table: seq<Layer>, verb: Verb, path: seq<string>, apiKey: Option<string>): (d: Dispatch)
    ensures d.NoRoute? <==> FirstMatch(table, verb, path).None?
  {
    match FirstMatch(table, verb, path)
    case None => NoRoute
    case Some(i) =>
      match RunChain(keys, table[i].chain, apiKey, None)
      case Halted(reply) => Rejected(reply)
      case Passed(role) => Reached(table[i].handler, MatchPath(table[i].pattern, path).value, role)
  }

  /**
   * The first layer, in registration order, that takes the request decides
   * it: its chain runs with no role recorded yet, and either the chain's
   * reply is sent or that layer's handler runs with the parameters its
   * pattern captured and the role the chain recorded.
   */
  lemma ServeFirstLayer(keys: ApiKeys, table: seq<Layer>, verb: Verb, path: seq<string>, apiKey: Option<string>, i: nat)
    requires i < |table| && LayerMatches(table[i], verb, path)
    requires forall j :: 0 <= j < i ==> !LayerMatches(table[j], verb, path)
    ensures var d := Serve(keys, table, verb, path, apiKey);
      var chain := RunChain(keys, table[i].chain, apiKey, None);
      && !d.NoRoute?
      && (d.Rejected? <==> chain.Halted?)
      && (d.Rejected? ==> chain == Halted(d.reply))
      && (d.Reached? ==>
           && chain == Passed(d.userRole)
           && d.handler == table[i].handler
           && d.params == MatchPath(table[i].pattern, path).value)
  {
    FirstMatchIs(table, verb, path, i);
  }

  /** An Express router: the stack of layers registered on it so far. */
  class Router {
    var stack: seq<Layer>

    constructor ()
      ensures stack == []
    {
      stack := [];
    }

    /** `router.get(pattern, ...chain, handler)` */
    method Get(pattern: seq<Segment>, chain: seq<Middleware>, handler: Handler)
      modifies this
      ensures stack == old(stack) + [Layer(GET, pattern, chain, handler)]
    {
      stack := stack + [Layer(GET, pattern, chain, handler)];
    }

    /** `router.put(pattern, ...chain, handler)` */
    method Put(pattern: seq<Segment>, chain: seq<Middleware>, handler: Handler)
      modifies this
      ensures stack == old(stack) + [Layer(PUT, pattern, chain, handler)]
    {
      stack := stack + [Layer(PUT, pattern, chain, handler)];
    }

    /** The scan of the stack for the first layer that takes the request. */
    method Find(verb: Verb, path: seq<string>) returns (found: Option<nat>)
      ensures found.Some? ==>
        && found.value < |stack|
        && LayerMatches(stack[found.value], verb, path)
        && forall j :: 0 <= j < found.value ==> !LayerMatches(stack[j], verb, path)
      ensures found.None? ==> forall j :: 0 <= j < |stack| ==> !LayerMatches(stack[j], verb, path)
      ensures found == FirstMatch(stack, verb, path)
    {
      var i := 0;
      while i < |stack|
        invariant 0 <= i <= |stack|
        invariant forall j :: 0 <= j < i ==> !LayerMatches(stack[j], verb, path)
        invariant FirstMatchFrom(stack, verb, path, i) == FirstMatch(stack, verb, path)
      {
        var layer := stack[i];
        if Handles(layer, verb) && MatchPath(layer.pattern, path).Some? {
          return Some(i);
        }
        i := i + 1;
      }
      return None;
    }

    /**
     * Dispatch of one request: find the layer, record its parameters, run
     * its chain middleware by middleware, and stop at the first reply.
     */
    method Handle(keys: ApiKeys, req: Request) returns (d: Dispatch)
      requires req.userRole == None
      modifies req
      ensures d == Serve(keys, stack, req.verb, req.path, req.apiKey)
      ensures d.Reached? ==> req.userRole == d.userRole && req.params == d.params
    {
      var found := Find(req.verb, req.path);
      if found.None? {
        return NoRoute;
      }
      var i := found.value;
      var layer := stack[i];
      req.params := MatchPath(layer.pattern, req.path).value;
      var k := 0;
      while k < |layer.chain|
        invariant 0 <= k <= |layer.chain|
        decreases |layer.chain| - k
        invariant req.params == MatchPath(layer.pattern, req.path).value
        invariant RunChain(keys, layer.chain[k..], req.apiKey, req.userRole) == RunChain(keys, layer.chain, req.apiKey, None)
      {
        ghost var role := req.userRole;
        var step: Step;
        match layer.chain[k] {
          case CheckApiKey =>
            step := Authenticate(keys, req);
          case CheckRole(allowed) =>
            step := RequireRole(allowed, req.userRole);
        }
        assert layer.chain[k..][1..] == layer.chain[k + 1..];
        if step.Stop? {
          assert RunChain(keys, layer.chain[k..], req.apiKey, role) == Halted(step.reply);
          return Rejected(step.reply);
        }
        assert RunChain(keys, layer.chain[k..], req.apiKey, role) == RunChain(keys, layer.chain[k + 1..], req.apiKey, req.userRole);
        k := k + 1;
      }
      assert layer.chain[k..] == [];
      return Reached(layer.handler, req.params, req.userRole);
    }
  }


  const LOCATION_ROLES: seq<Role> := [Operator, NtcAdmin]

  // The layers src/routes/index.js registers, one per `router.get`/`router.put` call.
  const ALL_ROUTES := Layer(GET, [Literal("routes")], [CheckApiKey], GetAllRoutes)
  const ONE_ROUTE := Layer(GET, [Literal("routes"), Param("id")], [CheckApiKey], GetRouteById)
  const ROUTE_BUSES := Layer(GET, [Literal("routes"), Param("id"), Literal("buses")], [CheckApiKey], GetBusesOnRoute)
  const ALL_BUSES := Layer(GET, [Literal("buses")], [CheckApiKey], GetAllBuses)
  const ONE_BUS := Layer(GET, [Literal("buses"), Param("id")], [CheckApiKey], GetBusById)
  const BUS_STATUS := Layer(GET, [Literal("buses"), Param("id"), Literal("status")], [CheckApiKey], GetBusStatus)
  const ALL_TRIPS := Layer(GET, [Literal("trips")], [CheckApiKey], GetAllTrips)
  const ONE_TRIP := Layer(GET, [Literal("trips"), Param("id")], [CheckApiKey], GetTripById)
  const ACTIVE_TRIPS := Layer(GET, [Literal("trips"), Literal("active")], [CheckApiKey], GetActiveTrips)
  const TRACK_BUS := Layer(GET, [Literal("tracking"), Literal("bus"), Param("busId")], [CheckApiKey], TrackBus)
  const TRACK_ROUTE := Layer(GET, [Literal("tracking"), Literal("route"), Param("routeId")], [CheckApiKey], TrackRoute)
  const BUS_LOCATION :=
    Layer(PUT, [Literal("buses"), Param("id"), Literal("location")], [CheckApiKey, CheckRole(LOCATION_ROLES)], UpdateBusLocation)
  const HEALTH := Layer(GET, [Literal("health")], [], Health)
  const INDEX := Layer(GET, [], [], ApiIndex)

  /** The stack as registered, in source order. */
  function ApiRoutes(): (r: seq<Layer>)
    ensures |r| == 14
  {
    [ ALL_ROUTES, ONE_ROUTE, ROUTE_BUSES, ALL_BUSES, ONE_BUS, BUS_STATUS,
      ALL_TRIPS, ONE_TRIP, ACTIVE_TRIPS, TRACK_BUS, TRACK_ROUTE, BUS_LOCATION, HEALTH, INDEX ]
  }

  /** The same stack with `/trips/active` registered before `/trips/:id`, as the API index advertises. */
  function FixedApiRoutes(): (r: seq<Layer>)
    ensures |r| == |ApiRoutes()|
  {
    [ ALL_ROUTES, ONE_ROUTE, ROUTE_BUSES, ALL_BUSES, ONE_BUS, BUS_STATUS,
      ALL_TRIPS, ACTIVE_TRIPS, ONE_TRIP, TRACK_BUS, TRACK_ROUTE, BUS_LOCATION, HEALTH, INDEX ]
  }

  /** Each controller function is mounted once; `/trips/:id` is the eighth layer and `/trips/active` the ninth. */
  lemma EachHandlerOnce()
    ensures forall i, j :: 0 <= i < j < |ApiRoutes()| ==> ApiRoutes()[i].handler != ApiRoutes()[j].handler
    ensures ApiRoutes()[7].pattern == [Literal("trips"), Param("id")]
    ensures ApiRoutes()[8].pattern == [Literal("trips"), Literal("active")]
  {
  }

  /** The corrected stack differs from the registered one only by exchanging the two trip layers. */
  lemma FixedRoutesSwapTrips()
    ensures FixedApiRoutes()[7] == ApiRoutes()[8] && FixedApiRoutes()[8] == ApiRoutes()[7]
    ensures forall k :: 0 <= k < |ApiRoutes()| && k != 7 && k != 8 ==> FixedApiRoutes()[k] == ApiRoutes()[k]
  {
  }

  /** The module's top level: the successive `router.get`/`router.put` calls. */
  method BuildApiRouter() returns (router: Router)
    ensures fresh(router)
    ensures router.stack == ApiRoutes()
  {
    router := new Router();
    // After each call the stack ends in the layer ApiRoutes() lists at that position.
    router.Get([Literal("routes")], [CheckApiKey], GetAllRoutes);
    assert router.stack[0] == ALL_ROUTES;
    router.Get([Literal("routes"), Param("id")], [CheckApiKey], GetRouteById);
    assert router.stack[1] == ONE_ROUTE;
    router.Get([Literal("routes"), Param("id"), Literal("buses")], [CheckApiKey], GetBusesOnRoute);
    assert router.stack[2] == ROUTE_BUSES;
    router.Get([Literal("buses")], [CheckApiKey], GetAllBuses);
    assert router.stack[3] == ALL_BUSES;
    router.Get([Literal("buses"), Param("id")], [CheckApiKey], GetBusById);
    assert router.stack[4] == ONE_BUS;
    router.Get([Literal("buses"), Param("id"), Literal("status")], [CheckApiKey], GetBusStatus);
    assert router.stack[5] == BUS_STATUS;
    router.Get([Literal("trips")], [CheckApiKey], GetAllTrips);
    assert router.stack[6] == ALL_TRIPS;
    router.Get([Literal("trips"), Param("id")], [CheckApiKey], GetTripById);
    assert router.stack[7] == ONE_TRIP;
    router.Get([Literal("trips"), Literal("active")], [CheckApiKey], GetActiveTrips);
    assert router.stack[8] == ACTIVE_TRIPS;
    router.Get([Literal("tracking"), Literal("bus"), Param("busId")], [CheckApiKey], TrackBus);
    assert router.stack[9] == TRACK_BUS;
    router.Get([Literal("tracking"), Literal("route"), Param("routeId")], [CheckApiKey], TrackRoute);
    assert router.stack[10] == TRACK_ROUTE;
    router.Put([Literal("buses"), Param("id"), Literal("location")], [CheckApiKey, CheckRole(LOCATION_ROLES)], UpdateBusLocation);
    assert router.stack[11] == BUS_LOCATION;
    router.Get([Literal("health")], [], Health);
    assert router.stack[12] == HEALTH;
    router.Get([], [], ApiIndex);
  }

  /** A layer that takes the request, with none before it taking it, is the first match. */
  lemma FirstMatchIs(table: seq<Layer>, verb: Verb, path: seq<string>, i: nat)
    requires i < |table| && LayerMatches(table[i], verb, path)
    requires forall j :: 0 <= j < i ==> !LayerMatches(table[j], verb, path)
    ensures FirstMatch(table, verb, path) == Some(i)
  {
  }

  /**
   * Exchanging two neighbouring layers, the second of which does not take
   * the request, leaves the layer that takes it unchanged.
   */
  lemma SwapKeepsFirstMatch(a: seq<Layer>, f: seq<Layer>, p: nat, verb: Verb, path: seq<string>)
    requires p + 1 < |a| && |f| == |a|
    requires f[p] == a[p + 1] && f[p + 1] == a[p]
    requires forall k :: 0 <= k < |a| && k != p && k != p + 1 ==> f[k] == a[k]
    requires !LayerMatches(a[p + 1], verb, path)
    ensures FirstMatch(a, verb, path).Some? <==> FirstMatch(f, verb, path).Some?
    ensures FirstMatch(a, verb, path).Some? ==>
      f[FirstMatch(f, verb, path).value] == a[FirstMatch(a, verb, path).value]
  {
  }

  /** The role discipline a table keeps, layer by layer. */
  predicate GatedLayer(l: Layer) {
    && (IsDataHandler(l.handler) && l.handler != UpdateBusLocation ==> l.chain == [CheckApiKey])
    && (l.handler == UpdateBusLocation ==> l.chain == [CheckApiKey, CheckRole(LOCATION_ROLES)] && l.verb == PUT)
    && (!IsDataHandler(l.handler) ==> l.chain == [])
  }

  predicate IsDataHandler(h: Handler) {
    h != Health && h != ApiIndex
  }

  /**
   * Every data endpoint runs `authenticate` first; reads run nothing else;
   * the location update also runs `requireRole('OPERATOR', 'NTC_ADMIN')`;
   * the health probe and the index run no middleware at all.
   */
  predicate Gated(table: seq<Layer>) {
    forall l :: l in table ==> GatedLayer(l)
  }

  lemma TablesAreGated()
    ensures Gated(ApiRoutes())
    ensures Gated(FixedApiRoutes())
  {
    LayersAreGated();
    forall l | l in FixedApiRoutes()
      ensures l in ApiRoutes()
    {
      FixedRoutesSwapTrips();
      var k :| 0 <= k < |FixedApiRoutes()| && FixedApiRoutes()[k] == l;
      assert FixedApiRoutes()[k] == ApiRoutes()[if k == 7 then 8 else if k == 8 then 7 else k];
    }
  }

  lemma LayersAreGated()
    ensures Gated(ApiRoutes())
  {
    assert GatedLayer(ALL_ROUTES) && GatedLayer(ONE_ROUTE) && GatedLayer(ROUTE_BUSES);
    assert GatedLayer(ALL_BUSES) && GatedLayer(ONE_BUS) && GatedLayer(BUS_STATUS);
    assert GatedLayer(ALL_TRIPS) && GatedLayer(ONE_TRIP) && GatedLayer(ACTIVE_TRIPS);
    assert GatedLayer(TRACK_BUS) && GatedLayer(TRACK_ROUTE) && GatedLayer(BUS_LOCATION);
    assert GatedLayer(HEALTH) && GatedLayer(INDEX);
  }

  /** `[authenticate]` passes exactly the keys that authenticate, with their role. */
  lemma KeyChain(keys: ApiKeys, apiKey: Option<string>, role: Option<string>)
    ensures RunChain(keys, [CheckApiKey], apiKey, role) ==
      match Identify(keys, apiKey)
      case Granted(r) => Passed(Some(RoleName(r)))
      case Denied(reply) => Halted(reply)
  {
  }

  /** `[authenticate, requireRole('OPERATOR', 'NTC_ADMIN')]` passes only OPERATOR and NTC_ADMIN keys. */
  lemma OperatorChain(keys: ApiKeys, apiKey: Option<string>, role: Option<string>)
    ensures RunChain(keys, [CheckApiKey, CheckRole(LOCATION_ROLES)], apiKey, role) ==
      match Identify(keys, apiKey)
      case Granted(r) =>
        if r != Public then Passed(Some(RoleName(r))) else Halted(InsufficientPermissions(LOCATION_ROLES))
      case Denied(reply) => Halted(reply)
  {
    assert [CheckApiKey, CheckRole(LOCATION_ROLES)][1..] == [CheckRole(LOCATION_ROLES)];
    assert [CheckRole(LOCATION_ROLES)][1..] == [];
    match Identify(keys, apiKey)
    case Granted(r) =>
      if r == Public {
        forall q | q in LOCATION_ROLES ensures RoleName(q) != RoleName(Public) {
          assert q == Operator || q == NtcAdmin;
        }
      } else {
        assert LOCATION_ROLES[if r == Operator then 0 else 1] == r;
        assert RequireRole(LOCATION_ROLES, Some(RoleName(r))) == Next;
        assert RunChain(keys, [CheckRole(LOCATION_ROLES)], apiKey, Some(RoleName(r))) == Passed(Some(RoleName(r)));
      }
    case Denied(_) =>
  }

  /** A data handler runs only after `authenticate` granted the key a role, and with that role. */
  lemma DataHandlersRunAuthenticated(keys: ApiKeys, table: seq<Layer>, verb: Verb, path: seq<string>, apiKey: Option<string>)
    requires Gated(table)
    ensures var d := Serve(keys, table, verb, path, apiKey);
      d.Reached? && IsDataHandler(d.handler) ==>
        Identify(keys, apiKey).Granted? && d.userRole == Some(RoleName(Identify(keys, apiKey).role))
  {
    var found := FirstMatch(table, verb, path);
    if found.Some? {
      assert GatedLayer(table[found.value]);
      KeyChain(keys, apiKey, None);
      OperatorChain(keys, apiKey, None);
    }
  }

  /** Without a key, every data endpoint answers 401 "API key is required"; only `/health` and `/` answer. */
  lemma MissingKeyIsRefused(keys: ApiKeys, table: seq<Layer>, verb: Verb, path: seq<string>, apiKey: Option<string>)
    requires Gated(table)
    requires !Supplied(apiKey)
    ensures var d := Serve(keys, table, verb, path, apiKey);
      && (d.Reached? ==> !IsDataHandler(d.handler) && d.userRole == None)
      && (d.Rejected? ==> d.reply == MISSING_KEY)
  {
    var found := FirstMatch(table, verb, path);
    if found.Some? {
      assert GatedLayer(table[found.value]);
      KeyChain(keys, apiKey, None);
      OperatorChain(keys, apiKey, None);
    }
  }

  /** The location update runs only for OPERATOR and NTC_ADMIN. */
  lemma OnlyOperatorsUpdateLocation(keys: ApiKeys, table: seq<Layer>, verb: Verb, path: seq<string>, apiKey: Option<string>)
    requires Gated(table)
    ensures var d := Serve(keys, table, verb, path, apiKey);
      d.Reached? && d.handler == UpdateBusLocation ==>
        d.userRole == Some("OPERATOR") || d.userRole == Some("NTC_ADMIN")
  {
    var found := FirstMatch(table, verb, path);
    if found.Some? {
      assert GatedLayer(table[found.value]);
      OperatorChain(keys, apiKey, None);
    }
  }

  /** A key that authenticates is never refused on a GET or HEAD request: reads carry no role gate. */
  lemma ReadsNeedOnlyAKey(keys: ApiKeys, table: seq<Layer>, verb: Verb, path: seq<string>, apiKey: Option<string>)
    requires Gated(table)
    requires verb == GET || verb == HEAD
    requires Identify(keys, apiKey).Granted?
    ensures !Serve(keys, table, verb, path, apiKey).Rejected?
  {
    var found := FirstMatch(table, verb, path);
    if found.Some? {
      assert GatedLayer(table[found.value]);
      KeyChain(keys, apiKey, None);
    }
  }

  /** A PUBLIC key is refused with 403 before the location update runs. */
  lemma PublicKeyCannotUpdateLocation(keys: ApiKeys, id: string)
    requires Supplied(keys.public)
    requires keys.public != keys.ntcAdmin && keys.public != keys.operator
    requires id != ""
    ensures Serve(keys, ApiRoutes(), PUT, ["buses", id, "location"], keys.public) ==
      Rejected(Reply(403, "Insufficient permissions",
                     "This endpoint requires one of the following roles: OPERATOR, NTC_ADMIN"))
  {
    var path := ["buses", id, "location"];
    assert MatchPath(BUS_LOCATION.pattern, path).Some?;
    FirstMatchIs(ApiRoutes(), PUT, path, 11);
    assert Identify(keys, keys.public) == Granted(Public);
    OperatorChain(keys, keys.public, None);
    LocationGateMessage();
  }

  /** An OPERATOR or NTC_ADMIN key reaches the location update, with the bus id as parameter. */
  lemma OperatorKeyUpdatesLocation(keys: ApiKeys, id: string, apiKey: Option<string>)
    requires Identify(keys, apiKey).Granted? && Identify(keys, apiKey).role != Public
    requires id != ""
    ensures Serve(keys, ApiRoutes(), PUT, ["buses", id, "location"], apiKey) ==
      Reached(UpdateBusLocation, map["id" := id], Some(RoleName(Identify(keys, apiKey).role)))
  {
    var path := ["buses", id, "location"];
    assert MatchPath(BUS_LOCATION.pattern, path) == Some(map["id" := id]);
    FirstMatchIs(ApiRoutes(), PUT, path, 11);
    OperatorChain(keys, apiKey, None);
  }

  /** `/health` and `/` answer whatever key is sent, and record no role. */
  lemma HealthAndIndexAreOpen(keys: ApiKeys, apiKey: Option<string>)
    ensures Serve(keys, ApiRoutes(), GET, ["health"], apiKey) == Reached(Health, map[], None)
    ensures Serve(keys, ApiRoutes(), GET, [], apiKey) == Reached(ApiIndex, map[], None)
  {
    var t := ApiRoutes();
    HealthIsFirst();
    assert t[12] == HEALTH && MatchPath(HEALTH.pattern, ["health"]) == Some(map[]);
    UnguardedServe(keys, t, GET, ["health"], apiKey, 12);
    IndexIsFirst();
    assert t[13] == INDEX;
    UnguardedServe(keys, t, GET, [], apiKey, 13);
  }

  /** The first matching layer, when it runs no middleware, is reached with no role recorded. */
  lemma UnguardedServe(keys: ApiKeys, table: seq<Layer>, verb: Verb, path: seq<string>, apiKey: Option<string>, i: nat)
    requires FirstMatch(table, verb, path) == Some(i) && table[i].chain == []
    ensures Serve(keys, table, verb, path, apiKey) == Reached(table[i].handler, MatchPath(table[i].pattern, path).value, None)
  {
  }

  lemma HealthIsFirst()
    ensures FirstMatch(ApiRoutes(), GET, ["health"]) == Some(12)
  {
    var t := ApiRoutes();
    assert MatchPath(HEALTH.pattern, ["health"]) == Some(map[]);
    forall j | 0 <= j < 12
      ensures !LayerMatches(t[j], GET, ["health"])
    {
      assert |t[j].pattern| != 1 || !SegmentMatches(t[j].pattern[0], "health");
    }
    FirstMatchIs(t, GET, ["health"], 12);
  }

  lemma IndexIsFirst()
    ensures FirstMatch(ApiRoutes(), GET, []) == Some(13)
  {
    var t := ApiRoutes();
    forall j | 0 <= j < 13
      ensures !LayerMatches(t[j], GET, [])
    {
      assert |t[j].pattern| != 0;
    }
    FirstMatchIs(t, GET, [], 13);
  }

  /** As registered, GET `/trips/active` is taken by `/trips/:id`, with id "active". */
  lemma TripsActiveGoesToTripById(keys: ApiKeys, apiKey: Option<string>)
    requires Identify(keys, apiKey).Granted?
    ensures Serve(keys, ApiRoutes(), GET, ["trips", "active"], apiKey) ==
      Reached(GetTripById, map["id" := "active"], Some(RoleName(Identify(keys, apiKey).role)))
  {
    var t, path := ApiRoutes(), ["trips", "active"];
    assert MatchPath(ONE_TRIP.pattern, path) == Some(map["id" := "active"]);
    forall j | 0 <= j < 7
      ensures !LayerMatches(t[j], GET, path)
    {
      assert |t[j].pattern| != 2 || !SegmentMatches(t[j].pattern[0], path[0]);
    }
    FirstMatchIs(t, GET, path, 7);
    KeyChain(keys, apiKey, None);
  }

  /** As registered, no request of any verb, path or key reaches `getActiveTrips`. */
  lemma ActiveTripsUnreachable(keys: ApiKeys, verb: Verb, path: seq<string>, apiKey: Option<string>)
    ensures var d := Serve(keys, ApiRoutes(), verb, path, apiKey);
      !(d.Reached? && d.handler == GetActiveTrips)
  {
    ShadowedPattern();
    EachHandlerOnce();
    ShadowedUnreachable(keys, ApiRoutes(), verb, path, apiKey, 7, 8);
  }

  /** Whatever `/trips/active` takes, `/trips/:id` takes too. */
  lemma ShadowedPattern()
    ensures forall verb, path :: LayerMatches(ACTIVE_TRIPS, verb, path) ==> LayerMatches(ONE_TRIP, verb, path)
  {
    forall verb, path | LayerMatches(ACTIVE_TRIPS, verb, path)
      ensures LayerMatches(ONE_TRIP, verb, path)
    {
      assert SegmentMatches(ACTIVE_TRIPS.pattern[1], path[1]);
      assert SegmentMatches(ONE_TRIP.pattern[1], path[1]);
    }
  }

  /**
   * A layer below one that takes every request it takes never runs its
   * handler, when no other layer mounts that handler.
   */
  lemma ShadowedUnreachable(keys: ApiKeys, table: seq<Layer>, verb: Verb, path: seq<string>, apiKey: Option<string>, p: nat, q: nat)
    requires p < q < |table|
    requires forall verb, path :: LayerMatches(table[q], verb, path) ==> LayerMatches(table[p], verb, path)
    requires forall i :: 0 <= i < |table| && i != q ==> table[i].handler != table[q].handler
    ensures var d := Serve(keys, table, verb, path, apiKey);
      !(d.Reached? && d.handler == table[q].handler)
  {
    var first := FirstMatch(table, verb, path);
    if first.Some? {
      ServeFirstLayer(keys, table, verb, path, apiKey, first.value);
    }
  }

  /** With the corrected order, GET `/trips/active` reaches `getActiveTrips`. */
  lemma FixedRoutesReachActiveTrips(keys: ApiKeys, apiKey: Option<string>)
    requires Identify(keys, apiKey).Granted?
    ensures Serve(keys, FixedApiRoutes(), GET, ["trips", "active"], apiKey) ==
      Reached(GetActiveTrips, map[], Some(RoleName(Identify(keys, apiKey).role)))
  {
    var f, path := FixedApiRoutes(), ["trips", "active"];
    assert f[7] == ACTIVE_TRIPS && MatchPath(ACTIVE_TRIPS.pattern, path) == Some(map[]);
    forall j | 0 <= j < 7
      ensures !LayerMatches(f[j], GET, path)
    {
      assert |f[j].pattern| != 2 || !SegmentMatches(f[j].pattern[0], path[0]);
    }
    FirstMatchIs(f, GET, path, 7);
    KeyChain(keys, apiKey, None);
  }

  /** With the corrected order, every trip id other than "active" still reaches `getTripById`. */
  lemma FixedRoutesKeepTripById(keys: ApiKeys, apiKey: Option<string>, id: string)
    requires Identify(keys, apiKey).Granted?
    requires id != "" && id != "active"
    ensures Serve(keys, FixedApiRoutes(), GET, ["trips", id], apiKey) ==
      Reached(GetTripById, map["id" := id], Some(RoleName(Identify(keys, apiKey).role)))
  {
    var f, path := FixedApiRoutes(), ["trips", id];
    assert f[8] == ONE_TRIP && MatchPath(ONE_TRIP.pattern, path) == Some(map["id" := id]);
    FirstMatchIs(f, GET, path, 8);
    KeyChain(keys, apiKey, None);
  }

  /** The correction changes the outcome of no request other than `/trips/active`. */
  lemma FixedRoutesAgreeElsewhere(keys: ApiKeys, verb: Verb, path: seq<string>, apiKey: Option<string>)
    requires path != ["trips", "active"]
    ensures Serve(keys, FixedApiRoutes(), verb, path, apiKey) == Serve(keys, ApiRoutes(), verb, path, apiKey)
  {
    var a, f := ApiRoutes(), FixedApiRoutes();
    assert a[8] == ACTIVE_TRIPS;
    assert forall k :: 0 <= k < |a| && k != 7 && k != 8 ==> f[k] == a[k];
    SwapKeepsFirstMatch(a, f, 7, verb, path);
    SameLayerSameServe(keys, a, f, verb, path, apiKey);
  }

  /** Two tables whose first matching layers coincide serve the request alike. */
  lemma SameLayerSameServe(keys: ApiKeys, a: seq<Layer>, f: seq<Layer>, verb: Verb, path: seq<string>, apiKey: Option<string>)
    requires FirstMatch(a, verb, path).Some? <==> FirstMatch(f, verb, path).Some?
    requires FirstMatch(a, verb, path).Some? ==>
      f[FirstMatch(f, verb, path).value] == a[FirstMatch(a, verb, path).value]
    ensures Serve(keys, f, verb, path, apiKey) == Serve(keys, a, verb, path, apiKey)
  {
  }
}
