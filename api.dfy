/** What the routes read from a request and what they answer, without the HTTP plumbing. */
module Api {
  import opened Wrappers

  /** A property of a parsed JSON request body, as destructuring sees it. */
  datatype Field<T> = Undefined | Null | Given(value: T)

  /** JavaScript truthiness of a text property: only a non-empty string is truthy. */
  predicate Truthy(f: Field<string>) {
    f.Given? && f.value != ""
  }

  /** A text property bound as a query parameter: `undefined` and `null` both bind `NULL`. */
  function Bound(f: Field<string>): (r: Option<string>)
    ensures r.Some? <==> f.Given?
    ensures f.Given? ==> r.value == f.value
  {
    match f
    case Given(s) => Some(s)
    case _ => None
  }

  /** A query-string switch that is on only when the parameter is exactly `'true'`. */
  predicate SwitchOn(p: Option<string>) {
    p == Some("true")
  }

  /** `Response.json(body)` (200), `Response.json(body, { status: 201 })`, and the two error
      answers `{ error: message }` with status 400 and 500. */
  datatype Response<T> = Ok(body: T) | Created(body: T) | BadRequest(error: string) | ServerError(error: string)

  /** A destructuring default (`{ x = d } = body`): it replaces `undefined` only, so an explicit
      `null` is kept and binds `NULL`. */
  function WithDefault(f: Field<string>, d: string): (r: Option<string>)
    ensures f.Undefined? ==> r == Some(d)
    ensures f.Null? ==> r == None
    ensures f.Given? ==> r == Some(f.value)
  {
    match f
    case Undefined => Some(d)
    case Null => None
    case Given(s) => Some(s)
  }

  /** `context_profile_ids = []` followed by `.length`: the ids, `[]` when the property is
      missing, and `None` for `null`, whose `.length` throws. */
  function ProfileIdList(f: Field<seq<int>>): (r: Option<seq<int>>)
    ensures f.Undefined? ==> r == Some([])
    ensures r.None? <==> f.Null?
    ensures f.Given? ==> r == Some(f.value)
  {
    match f
    case Undefined => Some([])
    case Null => None
    case Given(ids) => Some(ids)
  }
}
