/**
 * What a handler hands back to the framework: the response (reduced to its
 * status, body text and redirect target), the backend calls it made and the
 * cookies it set.
 */
module Http {
  import opened Wrappers
  import Store

  /** `String(form.get(key) ?? "")`: a form field, the empty string when it is missing. */
  function FormValue(field: Option<string>): (s: string)
    ensures field.Some? ==> s == field.value
    ensures field.None? ==> s == ""
  {
    field.GetOr("")
  }

  datatype Response =
    | NoContent                        // `new Response(null, { status: 204 })`
    | Text(code: int, body: string)    // `new Response(body, { status: code })`
    | SeeOther(location: string)       // `Response.redirect(new URL(location, request.url), 303)`
  {
    function Status(): int {
      match this
      case NoContent => 204
      case Text(code, _) => code
      case SeeOther(_) => 303
    }
  }

  datatype SameSite = Lax | Strict | NoRestriction

  datatype CookieOptions = CookieOptions(
    httpOnly: bool, secure: bool, sameSite: SameSite, path: string, maxAge: int)

  /** One `cookies.set(name, value, options)`. */
  datatype SetCookie = SetCookie(name: string, value: string, options: CookieOptions)

  /** Everything one handler invocation does that can be observed. */
  datatype Run = Run(response: Response, calls: seq<Store.Call>, cookies: seq<SetCookie>)

  /** The cookies a response carries, in the order the handler set them. */
  class CookieJar {
    var sent: seq<SetCookie>

    constructor ()
      ensures sent == []
    {
      sent := [];
    }

    method Set(c: SetCookie)
      modifies this
      ensures sent == old(sent) + [c]
    {
      sent := sent + [c];
    }
  }
}
