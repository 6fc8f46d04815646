/** Which refresh cookie reaches which endpoint: path-match, section 5.1.4 of RFC 6265. */
module SessionCookies {
  import opened SessionRefresh

  const AUTH := "/api/auth"

  /** The path a refresh cookie is set on. */
  function CookiePath(s: Scope): string {
    match s
    case Common => AUTH
    case Hotel(id) => AUTH + "/hotel/" + id
  }

  /** The name of the cookie a scope's endpoints set and read. */
  function CookieName(s: Scope): string {
    if s.Hotel? then "refresh_hotel" else "refresh_token"
  }

  /** The path a tab posts its refresh to. */
  function RefreshPath(s: Scope): string {
    CookiePath(s) + "/refresh"
  }

  /** The path a tab posts its sign-out to. */
  function LogoutPath(s: Scope): string {
    CookiePath(s) + "/logout"
  }

  predicate PathMatch(cookiePath: string, requestPath: string) {
    || cookiePath == requestPath
    || (&& |cookiePath| < |requestPath| && cookiePath == requestPath[..|cookiePath|]
        && ((cookiePath != "" && cookiePath[|cookiePath|-1] == '/') || requestPath[|cookiePath|] == '/'))
  }

  /** The cookie of `s` is sent to the path and read there by an endpoint of `endpoint`. */
  predicate Reaches(s: Scope, endpoint: Scope, requestPath: string) {
    PathMatch(CookiePath(s), requestPath) && CookieName(s) == CookieName(endpoint)
  }

  /** Hotel identifiers are UUIDs. */
  predicate ValidScope(s: Scope) {
    s.Hotel? ==> s.id != "" && '/' !in s.id
  }

  lemma SlashSplits(a: string, b: string, rest: string)
    requires '/' !in a && '/' !in b && |a| <= |b + rest| && a == (b + rest)[..|a|]
    requires rest != "" && rest[0] == '/' && |a| < |b + rest| && (b + rest)[|a|] == '/'
    ensures a == b
  {
    assert |b| <= |a| by {
      assert forall i :: 0 <= i < |b| ==> (b + rest)[i] == b[i] && b[i] in b;
    }
    assert |a| <= |b| by {
      assert (b + rest)[|b|] == '/';
      assert forall i :: 0 <= i < |a| ==> (b + rest)[i] == a[i] && a[i] in a;
    }
    assert (b + rest)[..|a|] == b;
  }

  lemma SlashTells(prefix: string, a: string, b: string, tail: string)
    requires '/' !in a && tail != "" && tail[0] == '/'
    ensures prefix + a != prefix + (b + tail)
  {
    var at := |prefix| + |b|;
    assert (prefix + (b + tail))[at] == '/';
    if |a| > |b| {
      assert (prefix + a)[at] == a[|b|] && a[|b|] in a;
    }
  }

  /** A refresh reads the cookie of its own scope and no other: another hotel's cookie is not even sent. */
  lemma OnlyOwnCookie(s: Scope, endpoint: Scope)
    requires ValidScope(s) && ValidScope(endpoint)
    ensures Reaches(s, endpoint, RefreshPath(endpoint)) <==> s == endpoint
    ensures Reaches(s, endpoint, LogoutPath(endpoint)) <==> s == endpoint
  {
    OnlyOwnPath(s, endpoint, "/refresh");
    OnlyOwnPath(s, endpoint, "/logout");
  }

  lemma OnlyOwnPath(s: Scope, endpoint: Scope, tail: string)
    requires ValidScope(s) && ValidScope(endpoint) && |tail| > 1 && tail[0] == '/'
    ensures PathMatch(CookiePath(s), CookiePath(endpoint) + tail) && CookieName(s) == CookieName(endpoint) <==> s == endpoint
  {
    var cookie, request := CookiePath(s), CookiePath(endpoint) + tail;
    if s == endpoint {
      assert request[..|cookie|] == cookie && request[|cookie|] == tail[0];
    } else if s.Hotel? && endpoint.Hotel? && PathMatch(cookie, request) {
      var prefix := AUTH + "/hotel/";
      assert cookie == prefix + s.id && request == prefix + (endpoint.id + tail);
      HotelPaths(prefix, s.id, endpoint.id, tail);
    }
  }

  lemma HotelPaths(prefix: string, a: string, b: string, tail: string)
    requires a != "" && '/' !in a && '/' !in b && |tail| > 1 && tail[0] == '/'
    requires PathMatch(prefix + a, prefix + (b + tail))
    ensures a == b
  {
    var cookie, request := prefix + a, prefix + (b + tail);
    SlashTells(prefix, a, b, tail);
    assert cookie[|cookie|-1] == a[|a|-1];
    assert request[|cookie|] == (b + tail)[|a|];
    assert a == cookie[|prefix|..] == request[..|cookie|][|prefix|..] == (b + tail)[..|a|];
    SlashSplits(a, b, tail);
  }
}
