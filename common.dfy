/**
 * Value types shared by the whole model: optional values, timestamps, the
 * values a JSON request body can carry, and the outcomes a controller
 * answers with when the document store does not throw.
 */
module Common {

  datatype Option<+T> = None | Some(value: T)

  /** A point in time in milliseconds. The store's server clock and the local calendar are abstract. */
  type Time = int

  /** A field of a parsed JSON request body; `Undefined` when the field is absent. */
  datatype JsonValue =
    | Undefined
    | Null
    | Bool(b: bool)
    | Number(n: real)
    | Text(s: string)
    | Structured  // an object or an array: always truthy

  /** JavaScript falsiness, the test `!v` (there is no NaN in parsed JSON). */
  predicate Falsy(v: JsonValue) {
    v == Undefined || v == Null || v == Bool(false) || v == Number(0.0) || v == Text("")
  }

  /**
   * A header or query-string value is truthy when it is present and not
   * empty; only then does the code act on it (`if (status)`, `if (!apiKey)`).
   */
  predicate Supplied(p: Option<string>) {
    p.Some? && p.value != ""
  }

  /** The answer of a controller: 200 with a payload, 400 or 404 with an error text. */
  datatype Outcome<T> = Ok(value: T) | BadRequest(error: string) | NotFound(error: string)
  {
    function Status(): (code: nat)
      ensures code == 200 <==> Ok?
      ensures code == 400 <==> BadRequest?
      ensures code == 404 <==> NotFound?
    {
      match this
      case Ok(_) => 200
      case BadRequest(_) => 400
      case NotFound(_) => 404
    }
  }

  /** The `{ count, data }` body of a list endpoint. */
  datatype Listing<T> = Listing(count: nat, data: seq<T>)
}
