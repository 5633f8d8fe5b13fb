/**
 * The redirect decision of the session middleware: a request without a
 * session for a path that is not public, not framework or API traffic and not
 * a file is sent to the onboarding start; every other request passes through.
 */
module Middleware {

  const PublicPaths: seq<string> := ["/", "/login", "/register", "/auth/callback"]
  const ExemptPrefixes: seq<string> := ["/_next", "/api", "/static"]
  const OnboardingPath: string := "/onboarding"

  /** A request URL: its pathname and everything else about it, kept as one opaque part. */
  datatype Url = Url(pathname: string, rest: string)

  datatype MiddlewareResponse =
    | Redirect(location: Url)
    | PassThrough

  /** `s.startsWith(prefix)`, character by character. */
  function StartsWith(s: string, prefix: string): (b: bool)
    ensures b <==> prefix <= s
  {
    if prefix == [] then true
    else if s == [] then false
    else s[0] == prefix[0] && StartsWith(s[1..], prefix[1..])
  }

  /** `s.includes(c)` for a one-character search string. */
  function Includes(s: string, c: char): (b: bool)
    ensures b <==> exists i :: 0 <= i < |s| && s[i] == c
  {
    if s == [] then false
    else s[0] == c || Includes(s[1..], c)
  }

  /** The condition of the redirect: no session, and none of the exemptions applies. */
  predicate ShouldRedirect(session: bool, pathname: string)
  {
    && !session
    && pathname !in PublicPaths
    && !StartsWith(pathname, "/_next")
    && !StartsWith(pathname, "/api")
    && !StartsWith(pathname, "/static")
    && !Includes(pathname, '.')
  }

  /** `updateSession`'s answer: a redirect to the onboarding start, or the pass-through response. */
  function UpdateSession(session: bool, url: Url): (r: MiddlewareResponse)
    ensures r.Redirect? ==> r.location == url.(pathname := OnboardingPath)
  {
    if ShouldRedirect(session, url.pathname) then Redirect(url.(pathname := OnboardingPath)) else PassThrough
  }

  /** A path is exempt when it is public, starts with an exempt prefix, or contains a dot. */
  predicate Exempt(pathname: string)
  {
    || pathname in PublicPaths
    || (exists k :: 0 <= k < |ExemptPrefixes| && ExemptPrefixes[k] <= pathname)
    || '.' in pathname
  }

  /**
   * The decision in full: a request is redirected exactly when it has no
   * session and its path is not exempt; the redirect keeps the URL but for its
   * pathname.
   */
  lemma RedirectRule(session: bool, url: Url)
    ensures UpdateSession(session, url).Redirect? <==> !session && !Exempt(url.pathname)
    ensures UpdateSession(session, url).PassThrough? <==> session || Exempt(url.pathname)
  {
    var p := url.pathname;
    if (exists k :: 0 <= k < |ExemptPrefixes| && ExemptPrefixes[k] <= p) {
      var k :| 0 <= k < |ExemptPrefixes| && ExemptPrefixes[k] <= p;
      assert k == 0 || k == 1 || k == 2;
    }
    if ExemptPrefixes[0] <= p { assert StartsWith(p, "/_next"); }
    if ExemptPrefixes[1] <= p { assert StartsWith(p, "/api"); }
    if ExemptPrefixes[2] <= p { assert StartsWith(p, "/static"); }
  }

  /** Public paths match as whole strings: a trailing slash makes "/login/" protected. */
  lemma PublicPathsMatchWhole()
    ensures UpdateSession(false, Url("/login/", "")) == Redirect(Url(OnboardingPath, ""))
    ensures UpdateSession(false, Url("/login", "")) == PassThrough
  {
    var p := "/login/";
    assert p !in PublicPaths by {
      assert |p| == 7;
    }
    assert p[1] == 'l';
    assert !StartsWith(p, "/_next") by { assert "/_next"[1] == '_'; }
    assert !StartsWith(p, "/api") by { assert "/api"[1] == 'a'; }
    assert !StartsWith(p, "/static") by { assert "/static"[1] == 's'; }
    assert !Includes(p, '.') by {
      forall i | 0 <= i < |p| ensures p[i] != '.' {
      }
    }
  }

  /** Prefixes are plain string prefixes: "/apiary" is exempt like "/api/tips". */
  lemma PrefixesArePlain()
    ensures UpdateSession(false, Url("/apiary", "")) == PassThrough
  {
    assert StartsWith("/apiary", "/api");
  }
}
