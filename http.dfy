/** HTTP-facing shapes shared by both bridge applications: an optional value and
    a reply that is either a body or an HTTPException (status code and detail). */
module Http {

  datatype Option<+T> = None | Some(value: T)

  /** A handler's reply: a JSON body, or an HTTPException with its status code
      and detail string. */
  datatype Result<+T> = Ok(value: T) | Err(status: int, detail: string)

  /** Re-types an error reply so that it can be returned from a handler with a
      different body type. */
  function Forward<T, U>(r: Result<T>): (u: Result<U>)
    requires r.Err?
    ensures u.Err? && u.status == r.status && u.detail == r.detail
  {
    Err(r.status, r.detail)
  }

  /** Python's `s.startswith(p)`. */
  predicate StartsWith(s: string, p: string) {
    |p| <= |s| && s[..|p|] == p
  }

  /** What the ASGI server sends when a handler lets an exception escape: a bare
      500 with the text "Internal Server Error". */
  const Uncaught: Result<()> := Err(500, "Internal Server Error")
}
