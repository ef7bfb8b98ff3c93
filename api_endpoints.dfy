/**
 * `APIEndpoints`: the backend's endpoint table. Every endpoint has a path, a URL string under
 * `https://api.fluentpro.com/v1`, an HTTP method and the same two JSON headers.
 */
module Endpoints {
  import opened Wrappers
  import opened Text

  datatype Endpoint =
    | Login | Signup | RefreshToken | Logout | Auth0Callback
    | UserProfile | UpdateProfile
    | Lessons | LessonDetail(id: string) | Progress

  const BaseURL := "https://api.fluentpro.com"
  const ApiVersion := "v1"
  const LessonsPrefix := "/lessons/"

  function Path(e: Endpoint): (p: string)
    ensures p != [] && p[0] == '/'
  {
    match e
    case Login => "/auth/login"
    case Signup => "/auth/signup"
    case RefreshToken => "/auth/refresh"
    case Logout => "/auth/logout"
    case Auth0Callback => "/auth/auth0/callback"
    case UserProfile => "/user/profile"
    case UpdateProfile => "/user/profile/update"
    case Lessons => "/lessons"
    case LessonDetail(id) => LessonsPrefix + id
    case Progress => "/user/progress"
  }

  /** The string `url` hands to `URL(string:)`: base URL, `/`, version, path. */
  function UrlString(e: Endpoint): string {
    BaseURL + "/" + ApiVersion + Path(e)
  }

  /** `getFullURL(for:)` is the endpoint's own `url`. */
  function GetFullUrl(e: Endpoint): (r: string)
    ensures r == "https://api.fluentpro.com/v1" + Path(e)
  {
    UrlString(e)
  }

  datatype HttpMethod = Get | Post | Put | Delete

  function MethodName(m: HttpMethod): string {
    match m
    case Get => "GET"
    case Post => "POST"
    case Put => "PUT"
    case Delete => "DELETE"
  }

  function Method(e: Endpoint): (m: HttpMethod)
    ensures m == Post <==> IsAuthEndpoint(e)
    ensures m != Delete
  {
    match e
    case Login | Signup | RefreshToken | Logout | Auth0Callback => Post
    case UserProfile | Lessons | LessonDetail(_) | Progress => Get
    case UpdateProfile => Put
  }

  /** The JSON headers every endpoint starts with; the bearer token is added by the network service. */
  function Headers(e: Endpoint): (h: map<string, string>)
    ensures h.Keys == {"Content-Type", "Accept"}
    ensures forall k | k in h :: h[k] == "application/json"
  {
    map["Content-Type" := "application/json", "Accept" := "application/json"]
  }

  predicate IsAuthEndpoint(e: Endpoint) {
    e.Login? || e.Signup? || e.RefreshToken? || e.Logout? || e.Auth0Callback?
  }

  // ---------------------------------------------------------------------------
  // Routing back: the path determines the endpoint

  /** The endpoint a path belongs to, if any. */
  function EndpointOfPath(p: string): Option<Endpoint> {
    if p == "/auth/login" then Some(Login)
    else if p == "/auth/signup" then Some(Signup)
    else if p == "/auth/refresh" then Some(RefreshToken)
    else if p == "/auth/logout" then Some(Logout)
    else if p == "/auth/auth0/callback" then Some(Auth0Callback)
    else if p == "/user/profile" then Some(UserProfile)
    else if p == "/user/profile/update" then Some(UpdateProfile)
    else if p == "/lessons" then Some(Lessons)
    else if p == "/user/progress" then Some(Progress)
    else if HasPrefix(p, LessonsPrefix) then Some(LessonDetail(p[|LessonsPrefix|..]))
    else None
  }

  /** A lesson path is none of the fixed paths: each differs from it in length or in a character of the prefix. */
  lemma LessonPathIsNotFixed(id: string)
    ensures var p := LessonsPrefix + id;
      p != "/auth/login" && p != "/auth/signup" && p != "/auth/refresh" && p != "/auth/logout" &&
      p != "/auth/auth0/callback" && p != "/user/profile" && p != "/user/profile/update" &&
      p != "/lessons" && p != "/user/progress"
  {
    var p := LessonsPrefix + id;
    assert p[1] == 'l';
    assert |p| >= 9;
  }

  /** Every path routes back to its endpoint. */
  lemma PathRoundTrip(e: Endpoint)
    ensures EndpointOfPath(Path(e)) == Some(e)
  {
    if e.LessonDetail? {
      LessonPathIsNotFixed(e.id);
      var p := Path(e);
      assert p[..|LessonsPrefix|] == LessonsPrefix;
      assert p[|LessonsPrefix|..] == e.id;
    }
  }

  /** Hence no two endpoints share a path, and so no two share a URL string. */
  lemma UrlInjective(e1: Endpoint, e2: Endpoint)
    requires UrlString(e1) == UrlString(e2)
    ensures e1 == e2
  {
    var base := BaseURL + "/" + ApiVersion;
    assert UrlString(e1) == base + Path(e1) && UrlString(e2) == base + Path(e2);
    assert Path(e1) == UrlString(e1)[|base|..];
    assert Path(e2) == UrlString(e2)[|base|..];
    PathRoundTrip(e1);
    PathRoundTrip(e2);
  }

  /** Every URL string is the versioned base followed by a path that starts with `/`. */
  lemma UrlShape(e: Endpoint)
    ensures UrlString(e) == "https://api.fluentpro.com/v1" + Path(e)
    ensures Path(e) != [] && Path(e)[0] == '/'
    ensures GetFullUrl(e) == UrlString(e)
  {
    if e.LessonDetail? {
      assert Path(e)[0] == LessonsPrefix[0];
    }
  }

  /** The five auth endpoints post, `updateProfile` puts, and the other four get. */
  lemma MethodCases(e: Endpoint)
    ensures Method(e) == Post <==> IsAuthEndpoint(e)
    ensures Method(e) == Put <==> e.UpdateProfile?
    ensures Method(e) == Get <==> !IsAuthEndpoint(e) && !e.UpdateProfile?
    ensures Method(e) != Delete
  {
  }

  /** The same two JSON headers for every endpoint. */
  lemma HeadersAreJson(e: Endpoint)
    ensures Headers(e).Keys == {"Content-Type", "Accept"}
    ensures forall k | k in Headers(e) :: Headers(e)[k] == "application/json"
  {
  }
}
