/** Values shared by every handler: optional request fields, handler outcomes and
    the JavaScript truthiness rules the handlers rely on (`a || b`, `if (x)`). */
module Common {

  datatype Option<+T> = None | Some(value: T)

  /** What a handler answers: the JSON body of a 2xx response, or the status code
      with the message the handler sends.  `ServerError` is the catch-all 500 path,
      taken when the store refuses a write (a NULL in a NOT NULL column, a value
      outside an ENUM). */
  datatype Outcome<+T> =
    | Ok(value: T)
    | NotFound(message: string)
    | BadRequest(message: string)
    | Unauthorized(message: string)
    | ServerError

  /** An optional string field is truthy when it is present and not empty. */
  predicate Truthy(s: Option<string>)
  {
    s.Some? && s.value != ""
  }

  /** `a || b` for a string field `a` that may be absent. */
  function OrString(a: Option<string>, b: string): string
  {
    if Truthy(a) then a.value else b
  }

  /** `a || b` for a numeric field: absent and 0 are falsy. */
  function OrInt(a: Option<int>, b: int): int
  {
    if a.Some? && a.value != 0 then a.value else b
  }

  /** `a || b` for an optional field whose falsy values are only absent ones
      (a date string, or a value that is never 0 or empty). */
  function OrOption<T>(a: Option<T>, b: Option<T>): Option<T>
  {
    if a.Some? then a else b
  }

  /** The template `${a} ${b}`: the two parts joined by one space. */
  function JoinWithSpace(a: string, b: string): (r: string)
    ensures |r| == |a| + 1 + |b|
    ensures r[..|a|] == a && r[|a|] == ' ' && r[|a| + 1..] == b
  {
    a + " " + b
  }

  /** How a nullable text column renders inside a template literal: NULL prints as "null". */
  function TemplateText(s: Option<string>): string
  {
    if s.Some? then s.value else "null"
  }
}
