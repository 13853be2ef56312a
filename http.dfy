/** Request cookies and response effects shared by the middleware and the controller. */
module Http {

  import opened Wrappers
  import opened Jwt

  /** The `cookieOptions` object of the middleware and of the controller. */
  datatype CookieOptions = CookieOptions(httpOnly: bool, secure: bool, sameSite: string, path: string)

  /** `secure` is `process.env.NODE_ENV === "production"`. */
  function CookieOptionsFor(production: bool): (o: CookieOptions)
    ensures o.httpOnly && o.sameSite == "lax" && o.path == "/"
    ensures o.secure <==> production
  {
    CookieOptions(true, production, "lax", "/")
  }

  const AccessCookie: string := "accessToken"
  const RefreshCookie: string := "refreshToken"

  /** One `res.cookie(name, value, options)` or `res.clearCookie(name, options)` call. */
  datatype CookieOp =
    | SetCookie(name: string, value: Token, options: CookieOptions)
    | ClearCookie(name: string, options: CookieOptions)

  /** The two cookies the server reads; `None` when the browser sent none. */
  datatype Cookies = Cookies(accessToken: Option<Token>, refreshToken: Option<Token>)

  /** A cookie value is truthy in JavaScript unless it is missing or empty. */
  predicate Present(c: Option<Token>)
  {
    c.Some? && c.value != Forged("")
  }

  /** The cookie operations of a response set the named cookie to `v`. */
  predicate SetsCookie(ops: seq<CookieOp>, name: string, v: Token)
  {
    exists i :: 0 <= i < |ops| && ops[i].SetCookie? && ops[i].name == name && ops[i].value == v
  }

  /** A response as the handlers produce it: status, JSON message, cookie calls, user in the body. */
  datatype Response = Response(status: int, message: string, cookies: seq<CookieOp>, user: Option<UserSnapshot>)
}
