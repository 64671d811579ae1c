/**
 * AuthManager: the session token kept in a browser cookie, the OAuth login
 * link, and the authorization code carried by the page URL. The browser's
 * cookie jar and `window.location` are the state of a `Browser` object;
 * parsing of the URL's query string is taken as already done (the query is a
 * list of name/value pairs in order).
 */
module Auth {
  import opened Wrappers

  const TokenKey := "jwt_token"
  const AuthorizePrefix := "https://hh.ru/oauth/authorize?response_type=code&client_id="
  const RedirectParam := "&redirect_uri="

  /** The part of `window.location` the manager reads and writes. */
  datatype Location = Location(origin: string, pathname: string, search: seq<(string, string)>)

  class Browser {
    var cookies: map<string, string>
    /** `window.location`; None when there is no `window` (server-side rendering). */
    var window: Option<Location>

    constructor (cookies: map<string, string>, window: Option<Location>)
      ensures this.cookies == cookies && this.window == window
    {
      this.cookies := cookies;
      this.window := window;
    }
  }

  /** `Cookies.get('jwt_token')`: undefined when the cookie is missing. */
  function GetToken(cookies: map<string, string>): (t: Option<string>)
    ensures t.Some? <==> TokenKey in cookies
    ensures t.Some? ==> t.value == cookies[TokenKey]
  {
    if TokenKey in cookies then Some(cookies[TokenKey]) else None
  }

  /** `!!getToken()`: a stored, non-empty token. */
  predicate IsAuthenticated(cookies: map<string, string>)
    ensures IsAuthenticated(cookies) <==> TokenKey in cookies && cookies[TokenKey] != ""
  {
    Truthy(GetToken(cookies))
  }

  /** `setToken(token)`: the token is stored under `jwt_token` and read back unchanged. */
  method SetToken(b: Browser, token: string)
    modifies b
    ensures b.cookies == old(b.cookies)[TokenKey := token]
    ensures b.window == old(b.window)
    ensures GetToken(b.cookies) == Some(token)
    ensures IsAuthenticated(b.cookies) <==> token != ""
  {
    b.cookies := b.cookies[TokenKey := token];
  }

  /** `removeToken()`: afterwards there is no token and no session. */
  method RemoveToken(b: Browser)
    modifies b
    ensures b.cookies == old(b.cookies) - {TokenKey}
    ensures b.window == old(b.window)
    ensures GetToken(b.cookies) == None && !IsAuthenticated(b.cookies)
  {
    b.cookies := b.cookies - {TokenKey};
  }

  /** A template literal renders an unset environment variable as "undefined". */
  function EnvText(v: Option<string>): string {
    if v.Some? then v.value else "undefined"
  }

  /** `getLoginUrl()`: "#" without a window, otherwise the provider's authorize link back to this origin. */
  function LoginUrl(window: Option<Location>, clientId: Option<string>): (url: string)
    ensures window.None? <==> url == "#"
    ensures window.Some? ==> |AuthorizePrefix| <= |url| && url[..|AuthorizePrefix|] == AuthorizePrefix
    ensures window.Some? ==> |window.value.origin| <= |url| && url[|url| - |window.value.origin|..] == window.value.origin
  {
    if window.None? then "#"
    else
      var url := AuthorizePrefix + EnvText(clientId) + RedirectParam + window.value.origin;
      assert |url| >= |AuthorizePrefix| > 1;
      url
  }

  /** `new URLSearchParams(search).get(name)`: the first value given to `name`, or null. */
  function QueryGet(search: seq<(string, string)>, name: string): (r: Option<string>)
    ensures r.None? <==> forall i :: 0 <= i < |search| ==> search[i].0 != name
    ensures r.Some? ==> exists i :: 0 <= i < |search| && search[i] == (name, r.value)
                                    && forall j :: 0 <= j < i ==> search[j].0 != name
  {
    if search == [] then None
    else if search[0].0 == name then Some(search[0].1)
    else
      var r := QueryGet(search[1..], name);
      if r.Some? then
        ghost var i :| 0 <= i < |search[1..]| && search[1..][i] == (name, r.value)
                        && forall j :: 0 <= j < i ==> search[1..][j].0 != name;
        assert search[i + 1] == (name, r.value);
        r
      else r
  }

  /** `getAuthCodeFromUrl()`: null without a window, else the URL's `code` parameter. */
  function AuthCode(window: Option<Location>): (code: Option<string>)
    ensures window.None? ==> code.None?
    ensures window.Some? ==> code == QueryGet(window.value.search, "code")
  {
    if window.None? then None else QueryGet(window.value.search, "code")
  }

  /** `clearAuthCodeFromUrl()`: the page URL becomes "/", so no code is left to read. */
  method ClearAuthCodeFromUrl(b: Browser)
    modifies b
    ensures b.cookies == old(b.cookies)
    ensures old(b.window).None? ==> b.window.None?
    ensures old(b.window).Some? ==> b.window == Some(Location(old(b.window).value.origin, "/", []))
    ensures AuthCode(b.window) == None
  {
    if b.window.Some? {
      b.window := Some(Location(b.window.value.origin, "/", []));
    }
  }
}
