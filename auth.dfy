/**
 * The API-key gate of src/middleware/auth.js. A static table gives one key
 * per role; `authenticate` turns the `x-api-key` header into a role (or
 * rejects the request) and `requireRole(...)` admits only the listed roles.
 */
module Auth {
  import opened Common
  import opened Express

  datatype Role = NtcAdmin | Operator | Public

  /** The role strings the code stores in `req.userRole`. */
  function RoleName(r: Role): string {
    match r
    case NtcAdmin => "NTC_ADMIN"
    case Operator => "OPERATOR"
    case Public => "PUBLIC"
  }

  /** The configured key of each role; None when its environment variable is unset. */
  datatype ApiKeys = ApiKeys(ntcAdmin: Option<string>, operator: Option<string>, public: Option<string>)

  function KeyOf(keys: ApiKeys, r: Role): Option<string> {
    match r
    case NtcAdmin => keys.ntcAdmin
    case Operator => keys.operator
    case Public => keys.public
  }

  /** The order in which a key is compared against the table: NTC_ADMIN, OPERATOR, PUBLIC. */
  function Rank(r: Role): nat {
    match r
    case NtcAdmin => 0
    case Operator => 1
    case Public => 2
  }

  const MISSING_KEY: Reply :=
    Reply(401, "API key is required", "Please provide an API key in the x-api-key header")
  const INVALID_KEY: Reply :=
    Reply(403, "Invalid API key", "The provided API key is not valid")

  datatype Decision = Granted(role: Role) | Denied(reply: Reply)

  /**
   * The decision `authenticate` takes on a header value. A missing or empty
   * key is refused with 401; a key equal to a configured key gets the first
   * role in NTC_ADMIN, OPERATOR, PUBLIC order whose key it is; any other key
   * is refused with 403. A role whose key is unset is never granted.
   */
  function Identify(keys: ApiKeys, apiKey: Option<string>): (d: Decision)
    ensures !Supplied(apiKey) ==> d == Denied(MISSING_KEY)
    ensures Supplied(apiKey) ==> (d.Granted? <==> exists r :: KeyOf(keys, r) == apiKey)
    ensures Supplied(apiKey) && d.Denied? ==> d.reply == INVALID_KEY
    ensures d.Granted? ==>
      && KeyOf(keys, d.role).Some?
      && KeyOf(keys, d.role) == apiKey
      && forall r :: Rank(r) < Rank(d.role) ==> KeyOf(keys, r) != apiKey
  {
    if !Supplied(apiKey) then Denied(MISSING_KEY)
    else if apiKey == keys.ntcAdmin then assert KeyOf(keys, NtcAdmin) == apiKey; Granted(NtcAdmin)
    else if apiKey == keys.operator then assert KeyOf(keys, Operator) == apiKey; Granted(Operator)
    else if apiKey == keys.public then assert KeyOf(keys, Public) == apiKey; Granted(Public)
    else
      Denied(INVALID_KEY)
  }

  /**
   * The `authenticate` middleware: on success it records the role name in
   * `req.userRole` and calls `next()` once; on failure it sends the refusal
   * and leaves the request as it was.
   */
  method Authenticate(keys: ApiKeys, req: Request) returns (step: Step)
    modifies req`userRole
    ensures step.Next? <==> Identify(keys, req.apiKey).Granted?
    ensures step.Next? ==> req.userRole == Some(RoleName(Identify(keys, req.apiKey).role))
    ensures step.Stop? ==> step.reply == Identify(keys, req.apiKey).reply && req.userRole == old(req.userRole)
  {
    match Identify(keys, req.apiKey)
    case Granted(role) =>
      req.userRole := Some(RoleName(role));
      step := Next;
    case Denied(reply) =>
      step := Stop(reply);
  }

  /** `allowedRoles.join(', ')`: empty only for no roles, and led by the first role's name. */
  function JoinNames(roles: seq<Role>): (r: string)
    ensures r == "" <==> roles == []
    ensures roles != [] ==> RoleName(roles[0]) <= r
    decreases |roles|
  {
    if |roles| == 0 then ""
    else if |roles| == 1 then RoleName(roles[0])
    else RoleName(roles[0]) + ", " + JoinNames(roles[1..])
  }

  /** The separator goes between names only: appending a role appends ", " and its name. */
  lemma {:induction false} JoinNamesSnoc(roles: seq<Role>, x: Role)
    requires roles != []
    ensures JoinNames(roles + [x]) == JoinNames(roles) + ", " + RoleName(x)
    decreases |roles|
  {
    if |roles| > 1 {
      assert (roles + [x])[1..] == roles[1..] + [x];
      JoinNamesSnoc(roles[1..], x);
    }
  }

  function PermissionMessage(allowed: seq<Role>): string {
    "This endpoint requires one of the following roles: " + JoinNames(allowed)
  }

  function InsufficientPermissions(allowed: seq<Role>): Reply {
    Reply(403, "Insufficient permissions", PermissionMessage(allowed))
  }

  /**
   * The middleware built by `requireRole(...allowed)`: it calls `next()`
   * exactly when `req.userRole` is the name of an allowed role, and
   * otherwise refuses with 403, naming the allowed roles in the order given.
   */
  function RequireRole(allowed: seq<Role>, userRole: Option<string>): (step: Step)
    ensures step.Next? <==> exists r :: r in allowed && userRole == Some(RoleName(r))
    ensures step.Stop? ==> step.reply == InsufficientPermissions(allowed)
  {
    var names := seq(|allowed|, i requires 0 <= i < |allowed| => RoleName(allowed[i]));
    if userRole.Some? && userRole.value in names then
      Next
    else
      assert forall r :: r in allowed ==> RoleName(r) in names by {
        forall r | r in allowed ensures RoleName(r) in names {
          var i :| 0 <= i < |allowed| && allowed[i] == r;
          assert names[i] == RoleName(r);
        }
      }
      Stop(InsufficientPermissions(allowed))
  }

  /** The gate on location updates names its roles in declaration order, joined by ", ". */
  lemma LocationGateMessage()
    ensures InsufficientPermissions([Operator, NtcAdmin]) ==
      Reply(403, "Insufficient permissions",
            "This endpoint requires one of the following roles: OPERATOR, NTC_ADMIN")
  {
  }
}
