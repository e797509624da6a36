/**
 * The few parts of the Express framework the API relies on: request verbs,
 * the request object that middleware annotates, and the two things a
 * middleware can do, pass control on with `next()` or end the request.
 */
module Express {
  import opened Common

  datatype Verb = GET | HEAD | POST | PUT | PATCH | DELETE | OPTIONS

  /** A response a middleware sends instead of calling `next()`: `res.status(s).json({ error, message })`. */
  datatype Reply = Reply(status: nat, error: string, message: string)

  /** The effect of one middleware: `next()` was called (once), or a reply was sent. */
  datatype Step = Next | Stop(reply: Reply)

  /**
   * The request object passed along a route's chain. The path is relative
   * to the router and already split at '/' (so `/trips/active` is
   * `["trips", "active"]`); `apiKey` is the `x-api-key` header.
   */
  class Request {
    const verb: Verb
    const path: seq<string>
    const apiKey: Option<string>
    var params: map<string, string>
    var userRole: Option<string>

    constructor (verb: Verb, path: seq<string>, apiKey: Option<string>)
      ensures this.verb == verb && this.path == path && this.apiKey == apiKey
      ensures params == map[] && userRole == None
    {
      this.verb := verb;
      this.path := path;
      this.apiKey := apiKey;
      params := map[];
      userRole := None;
    }
  }
}
