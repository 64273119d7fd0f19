/**
 * The request filter in front of every page (src/middleware.ts): a request
 * passes when its path is exempt or when it carries an `access_granted`
 * cookie; otherwise it is redirected to the access page, with the original
 * path in the `next` query parameter.
 */
module Middleware {

  import opened Types
  import opened Text

  /** The parts of the request URL the filter reads and rewrites. */
  datatype Url = Url(pathname: string, query: seq<(string, string)>)

  /** `NextResponse.next()` or `NextResponse.redirect(url)`. */
  datatype Outcome = Pass | Redirect(target: Url)

  /** The paths let through without a cookie: four prefixes and two exact paths. */
  predicate Exempt(pathname: string) {
    || StartsWith(pathname, "/access")
    || StartsWith(pathname, "/_next")
    || StartsWith(pathname, "/favicon")
    || StartsWith(pathname, "/api/access")
    || pathname == "/robots.txt"
    || pathname == "/sitemap.xml"
  }

  /** The query parameters not named `name`, in their order. */
  function Others(query: seq<(string, string)>, name: string): (r: seq<(string, string)>)
    ensures forall i :: 0 <= i < |r| ==> r[i].0 != name
    decreases |query|
  {
    if query == [] then []
    else (if query[0].0 == name then [] else [query[0]]) + Others(query[1..], name)
  }

  /** `searchParams.get(name)`: the value of the first parameter called `name`. */
  function Get(query: seq<(string, string)>, name: string): (r: Option<string>)
    ensures r.None? <==> forall i :: 0 <= i < |query| ==> query[i].0 != name
    decreases |query|
  {
    if query == [] then None
    else if query[0].0 == name then Some(query[0].1)
    else Get(query[1..], name)
  }

  /**
   * `searchParams.set(name, value)`: the first parameter called `name` takes
   * the value and the later ones are removed; without one, the pair is appended.
   */
  function SetParam(query: seq<(string, string)>, name: string, value: string): seq<(string, string)>
    decreases |query|
  {
    if query == [] then [(name, value)]
    else if query[0].0 == name then [(name, value)] + Others(query[1..], name)
    else [query[0]] + SetParam(query[1..], name, value)
  }

  /**
   * After `set`, `get` returns the new value, exactly one parameter carries
   * the name, and every other parameter is kept, in its order.
   */
  lemma {:induction false} SetParamEffect(query: seq<(string, string)>, name: string, value: string)
    ensures Get(SetParam(query, name, value), name) == Some(value)
    ensures Others(SetParam(query, name, value), name) == Others(query, name)
    ensures |SetParam(query, name, value)| == |Others(query, name)| + 1
    decreases |query|
  {
    if query == [] {
    } else if query[0].0 == name {
      var rest := Others(query[1..], name);
      OthersIdempotent(query[1..], name);
      assert ([(name, value)] + rest)[1..] == rest;
    } else {
      var rest := SetParam(query[1..], name, value);
      SetParamEffect(query[1..], name, value);
      assert ([query[0]] + rest)[1..] == rest;
    }
  }

  /** Removing the parameters called `name` a second time removes nothing. */
  lemma {:induction false} OthersIdempotent(query: seq<(string, string)>, name: string)
    ensures Others(Others(query, name), name) == Others(query, name)
    decreases |query|
  {
    if query != [] {
      var rest := Others(query[1..], name);
      OthersIdempotent(query[1..], name);
      if query[0].0 != name {
        assert ([query[0]] + rest)[1..] == rest;
      } else {
        assert Others(query, name) == [] + rest == rest;
      }
    }
  }

  /** `middleware(req)`, given the request URL and the `access_granted` cookie if any. */
  function FilterRequest(url: Url, gate: Option<string>): (o: Outcome)
    ensures o.Redirect? <==> !Exempt(url.pathname) && gate.None?
  {
    if Exempt(url.pathname) then Pass
    else if gate.None? then Redirect(Url("/access", SetParam(url.query, "next", url.pathname)))
    else Pass
  }

  /** An exempt path passes whatever the cookie. */
  lemma ExemptPasses(url: Url, gate: Option<string>)
    requires Exempt(url.pathname)
    ensures FilterRequest(url, gate) == Pass
  {
  }

  /** Exemption is by string prefix, not by path segment. */
  lemma PrefixNotSegment()
    ensures Exempt("/accessibility")
    ensures !Exempt("/robots.txt/x")
  {
    assert "/accessibility"[..7] == "/access";
    var p := "/robots.txt/x";
    assert p[1] == 'r' && p[2] == 'o' && |p| == 13;
    assert !StartsWith(p, "/access") && !StartsWith(p, "/_next") && !StartsWith(p, "/favicon");
    assert !StartsWith(p, "/api/access");
  }

  /** The cookie's presence decides; its value is never read. */
  lemma CookieValueIgnored(url: Url, v1: string, v2: string)
    ensures FilterRequest(url, Some(v1)) == FilterRequest(url, Some(v2)) == Pass
  {
  }

  /**
   * A redirect goes to '/access' with `next` set to the original path, keeps
   * every other query parameter in order, and leads to a path that passes,
   * so following it never redirects again.
   */
  lemma RedirectTarget(url: Url, gate: Option<string>)
    requires FilterRequest(url, gate).Redirect?
    ensures var t := FilterRequest(url, gate).target;
      && t.pathname == "/access"
      && Get(t.query, "next") == Some(url.pathname)
      && Others(t.query, "next") == Others(url.query, "next")
      && FilterRequest(t, gate) == Pass
  {
    SetParamEffect(url.query, "next", url.pathname);
    assert StartsWith("/access", "/access");
  }
}
