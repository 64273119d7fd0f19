/**
 * The access-code check behind the access page (src/app/api/access/route.ts):
 * the posted code is compared with the configured secret, and a match sets
 * the `access_granted` cookie that the request filter looks for.
 */
module AccessRoute {

  import opened Types

  /** The `code` field of the posted JSON: absent, a string, or any other JSON value. */
  datatype CodeField = Absent | Text(s: string) | NonText

  /**
   * What `await req.json()` and the destructuring `{ code }` make of the body:
   * text that is not JSON and the JSON `null` both throw; any other JSON value
   * yields its `code` field.
   */
  datatype Body = Unparsable | JsonNull | Json(code: CodeField)

  /** The options `jar.set` is given. */
  datatype Cookie = Cookie(
    value: string,
    httpOnly: bool,
    sameSite: string,
    secure: bool,
    path: string,
    maxAge: nat)

  /** The JSON body and status of the response; `message` is absent on success. */
  datatype Response = Response(status: nat, success: bool, message: Option<string>)

  /** The response, and the cookie set alongside it if any. */
  datatype Decision = Decision(response: Response, cookie: Option<Cookie>)

  const GateCookieName: string := "access_granted"

  /** `access_granted=1` for the whole site, for eight hours, over HTTPS only. */
  const GateCookie: Cookie := Cookie("1", true, "lax", true, "/", 60 * 60 * 8)

  /** `code === expected`: strict equality holds only between equal strings. */
  predicate CodeMatches(code: CodeField, expected: string) {
    code.Text? && code.s == expected
  }

  /** `POST(req)` with the `ACCESS_CODE` setting `expected`, where unset and empty are both falsy. */
  function Decide(body: Body, expected: Option<string>): (d: Decision)
    ensures d.response.success <==> d.response.status == 200
    ensures d.response.success <==> d.cookie.Some?
    ensures d.response.success ==> d.response.message.None?
    ensures !d.response.success ==> d.response.message.Some?
  {
    if !body.Json? then Decision(Response(400, false, Some("Bad request")), None)
    else if expected.None? || expected.value == "" then Decision(Response(500, false, Some("Server not configured")), None)
    else if CodeMatches(body.code, expected.value) then Decision(Response(200, true, None), Some(GateCookie))
    else Decision(Response(401, false, Some("Invalid code")), None)
  }

  /** A body that cannot be read is refused before the secret is looked at. */
  lemma BadBodyFirst(body: Body, expected: Option<string>)
    requires !body.Json?
    ensures Decide(body, expected).response == Response(400, false, Some("Bad request"))
    ensures Decide(body, expected).cookie.None?
  {
  }

  /** Without a configured secret every readable request gets 500, whatever the code. */
  lemma UnconfiguredRefuses(code: CodeField, expected: Option<string>)
    requires expected.None? || expected.value == ""
    ensures Decide(Json(code), expected).response.status == 500
    ensures Decide(Json(code), expected).cookie.None?
  {
  }

  /**
   * Access is granted exactly when the body is readable, a secret is
   * configured and the code is that very string; then the gate cookie is
   * set. Every other readable request with a secret configured gets 401.
   */
  lemma GrantedExactly(body: Body, expected: Option<string>)
    ensures Decide(body, expected).response.success <==>
      body.Json? && expected.Some? && expected.value != "" && CodeMatches(body.code, expected.value)
    ensures Decide(body, expected).response.success ==> Decide(body, expected).cookie == Some(GateCookie)
    ensures body.Json? && expected.Some? && expected.value != "" && !CodeMatches(body.code, expected.value) ==>
      Decide(body, expected).response == Response(401, false, Some("Invalid code"))
  {
  }

  /** A missing or non-string code never matches. */
  lemma NonTextNeverGranted(code: CodeField, expected: Option<string>)
    requires !code.Text?
    ensures !Decide(Json(code), expected).response.success
  {
  }

  /** The gate cookie lasts 28800 seconds and covers every path. */
  lemma GateCookieShape()
    ensures GateCookie.maxAge == 28800 && GateCookie.path == "/" && GateCookie.value == "1"
    ensures GateCookie.httpOnly && GateCookie.secure && GateCookie.sameSite == "lax"
  {
  }

  /** The response's cookie store. */
  class CookieJar {
    var cookies: map<string, Cookie>

    constructor ()
      ensures cookies == map[]
    {
      cookies := map[];
    }

    /** `jar.set(name, value, options)`: replaces any cookie of that name. */
    method Set(name: string, cookie: Cookie)
      modifies this
      ensures cookies == old(cookies)[name := cookie]
    {
      cookies := cookies[name := cookie];
    }
  }

  /** `POST(req)`: answers as `Decide` does, touching the jar only when access is granted. */
  method Post(jar: CookieJar, body: Body, expected: Option<string>) returns (response: Response)
    modifies jar
    ensures response == Decide(body, expected).response
    ensures response.success ==> jar.cookies == old(jar.cookies)[GateCookieName := GateCookie]
    ensures !response.success ==> jar.cookies == old(jar.cookies)
  {
    if !body.Json? {
      return Response(400, false, Some("Bad request"));
    }
    if expected.None? || expected.value == "" {
      return Response(500, false, Some("Server not configured"));
    }
    if CodeMatches(body.code, expected.value) {
      jar.Set(GateCookieName, GateCookie);
      return Response(200, true, None);
    }
    return Response(401, false, Some("Invalid code"));
  }
}
