/**
 * The session hook: the token, resume and loading/authenticated flags the
 * page reads, and the handlers that move them: fetching the resume, the
 * OAuth code exchange, logout and the start-up decision. Network replies are
 * inputs; the requests sent go to the ApiService log.
 */
module UseAuth {
  import opened Wrappers
  import opened ApiServices
  import opened Auth

  datatype Resume = Resume(id: string, firstName: string, lastName: string, title: string)

  /** The alert shown when the start-up code exchange fails without a `detail`. */
  const AuthErrorFallback := "Ошибка авторизации"

  /** Whether `authenticate` returned normally or rethrew the exchange error. */
  datatype Outcome = Done | Failed(detail: Option<string>)

  /** What start-up does, from the saved token, the URL's code and whether a resume is loaded. */
  datatype InitAction = Restore(token: string) | Exchange(code: string) | Stay

  /**
   * The branch taken by start-up: a saved token restores the session (unless
   * a resume is already loaded); a code is exchanged only when no token was
   * saved; otherwise nothing happens.
   */
  function InitDecision(saved: Option<string>, code: Option<string>, resumeLoaded: bool): (a: InitAction)
    ensures a.Restore? <==> Truthy(saved) && !resumeLoaded
    ensures a.Restore? ==> a.token == saved.value
    ensures a.Exchange? <==> Truthy(code) && !Truthy(saved)
    ensures a.Exchange? ==> a.code == code.value
    ensures a.Stay? <==> (!Truthy(saved) || resumeLoaded) && (!Truthy(code) || Truthy(saved))
  {
    if Truthy(saved) && !resumeLoaded then Restore(saved.value)
    else if Truthy(code) && !Truthy(saved) then Exchange(code.value)
    else Stay
  }

  /** A saved token always wins over a code in the URL: no exchange is ever made while one is stored. */
  lemma SavedTokenPreventsExchange(saved: Option<string>, code: Option<string>, resumeLoaded: bool)
    requires Truthy(saved)
    ensures !InitDecision(saved, code, resumeLoaded).Exchange?
    ensures !resumeLoaded ==> InitDecision(saved, code, resumeLoaded) == Restore(saved.value)
  {
  }

  /** Everything a logout touches: the four state fields and the cookie jar. */
  datatype SessionState = SessionState(
    token: string, resume: Option<Resume>, isLoading: bool, isAuthenticated: bool,
    cookies: map<string, string>)

  /** The state after `logout()`: token removed, fields reset, loading flag kept. */
  function LoggedOut(s: SessionState): (r: SessionState)
    ensures r.token == "" && r.resume.None? && !r.isAuthenticated
    ensures !IsAuthenticated(r.cookies) && GetToken(r.cookies).None?
    ensures r.isLoading == s.isLoading
    ensures forall k :: k in s.cookies && k != TokenKey ==> k in r.cookies && r.cookies[k] == s.cookies[k]
    ensures r.cookies.Keys <= s.cookies.Keys
  {
    SessionState("", None, s.isLoading, false, s.cookies - {TokenKey})
  }

  /** Logging out twice leaves the same state as logging out once. */
  lemma LogoutIdempotent(s: SessionState)
    ensures LoggedOut(LoggedOut(s)) == LoggedOut(s)
  {
  }

  class AuthHook {
    var token: string
    var resume: Option<Resume>
    var isLoading: bool
    var isAuthenticated: bool

    /** The initial hook state: no token, no resume, loading, not authenticated. */
    constructor ()
      ensures token == "" && resume.None? && isLoading && !isAuthenticated
    {
      token := "";
      resume := None;
      isLoading := true;
      isAuthenticated := false;
    }

    function State(b: Browser): SessionState
      reads this, b
    {
      SessionState(token, resume, isLoading, isAuthenticated, b.cookies)
    }

    /**
     * `fetchResume(authToken)`: the API token is set before the request; a
     * failed request is swallowed and leaves the resume as it was.
     */
    method FetchResume(api: ApiService, authToken: string, reply: Option<Resume>)
      modifies this, api
      ensures api.token == authToken
      ensures api.sent == old(api.sent) + [RequestFor(api.baseUrl, authToken, Endpoint.Resume)]
      ensures resume == if reply.Some? then reply else old(resume)
      ensures token == old(token) && isLoading == old(isLoading) && isAuthenticated == old(isAuthenticated)
    {
      api.SetToken(authToken);
      api.Send(Endpoint.Resume);
      if reply.Some? {
        resume := reply;
      }
    }

    /**
     * `authenticate(code)`: exchange the code; on success persist the token,
     * mark the session authenticated, clear the code from the URL and fetch
     * the resume, in that order. A rejected exchange is rethrown and changes
     * nothing but the request log (the code stays in the URL).
     */
    method Authenticate(api: ApiService, b: Browser, code: string, exchange: Reply<string>, resumeReply: Option<Resume>)
      returns (o: Outcome)
      modifies this, api, b
      ensures isLoading == old(isLoading)
      ensures o.Failed? <==> exchange.Rejected?
      ensures exchange.Rejected? ==>
        && o.detail == exchange.detail
        && api.sent == old(api.sent) + [RequestFor(api.baseUrl, old(api.token), AuthCallback(code))]
        && api.token == old(api.token)
        && token == old(token) && isAuthenticated == old(isAuthenticated) && resume == old(resume)
        && b.cookies == old(b.cookies) && b.window == old(b.window)
      ensures exchange.Ok? ==>
        && api.sent == old(api.sent) + [RequestFor(api.baseUrl, old(api.token), AuthCallback(code)),
                                        RequestFor(api.baseUrl, exchange.data, Endpoint.Resume)]
        && api.token == exchange.data
        && b.cookies == old(b.cookies)[TokenKey := exchange.data]
        && GetToken(b.cookies) == Some(exchange.data)
        && AuthCode(b.window) == None
        && token == exchange.data && isAuthenticated
        && resume == if resumeReply.Some? then resumeReply else old(resume)
    {
      api.Send(AuthCallback(code));
      if exchange.Rejected? {
        return Failed(exchange.detail);
      }
      var newToken := exchange.data;
      SetToken(b, newToken);
      token := newToken;
      isAuthenticated := true;
      ClearAuthCodeFromUrl(b);
      FetchResume(api, newToken, resumeReply);
      o := Done;
    }

    /** `logout()`: the cookie is removed and the session fields reset; no request is made. */
    method Logout(b: Browser)
      modifies this, b
      ensures State(b) == LoggedOut(old(State(b)))
      ensures b.window == old(b.window)
    {
      RemoveToken(b);
      token := "";
      resume := None;
      isAuthenticated := false;
    }

    /**
     * The start-up effect, run once over the current state: restore a saved
     * token, or exchange the URL's code (an exchange error becomes an alert),
     * or do nothing; the loading flag drops only if the page is still mounted.
     */
    method InitAuth(api: ApiService, b: Browser, mounted: bool, exchange: Reply<string>, resumeReply: Option<Resume>)
      returns (alert: Option<string>)
      modifies this, api, b
      ensures isLoading == if mounted then false else old(isLoading)
      ensures var a := InitDecision(GetToken(old(b.cookies)), AuthCode(old(b.window)), old(resume).Some?);
        && (a.Restore? ==>
              && api.sent == old(api.sent) + [RequestFor(api.baseUrl, a.token, Endpoint.Resume)]
              && token == a.token && isAuthenticated && api.token == a.token
              && resume == (if resumeReply.Some? then resumeReply else old(resume))
              && b.cookies == old(b.cookies) && b.window == old(b.window) && alert.None?)
        && (a.Exchange? && exchange.Ok? ==>
              && api.sent == old(api.sent) + [RequestFor(api.baseUrl, old(api.token), AuthCallback(a.code)),
                                              RequestFor(api.baseUrl, exchange.data, Endpoint.Resume)]
              && token == exchange.data && isAuthenticated && api.token == exchange.data && alert.None?
              && resume == (if resumeReply.Some? then resumeReply else old(resume))
              && b.cookies == old(b.cookies)[TokenKey := exchange.data] && AuthCode(b.window).None?)
        && (a.Exchange? && exchange.Rejected? ==>
              && api.sent == old(api.sent) + [RequestFor(api.baseUrl, old(api.token), AuthCallback(a.code))]
              && alert == Some(OrElse(exchange.detail, AuthErrorFallback))
              && token == old(token) && isAuthenticated == old(isAuthenticated) && resume == old(resume)
              && api.token == old(api.token) && b.cookies == old(b.cookies) && b.window == old(b.window))
        && (a.Stay? ==>
              && api.sent == old(api.sent) && api.token == old(api.token)
              && token == old(token) && isAuthenticated == old(isAuthenticated) && resume == old(resume)
              && b.cookies == old(b.cookies) && b.window == old(b.window) && alert.None?)
    {
      var savedToken := GetToken(b.cookies);
      var authCode := AuthCode(b.window);
      alert := None;
      if Truthy(savedToken) && resume.None? {
        RestoreSession(api, savedToken.value, resumeReply);
      } else if Truthy(authCode) && !Truthy(savedToken) {
        alert := ExchangeAtStart(api, b, authCode.value, exchange, resumeReply);
      }
      if mounted {
        isLoading := false;
      }
    }

    /** The restore branch of start-up: the saved token becomes the session's, then the resume is fetched with it. */
    method RestoreSession(api: ApiService, saved: string, resumeReply: Option<Resume>)
      modifies this, api
      ensures api.sent == old(api.sent) + [RequestFor(api.baseUrl, saved, Endpoint.Resume)]
      ensures token == saved && isAuthenticated && api.token == saved && isLoading == old(isLoading)
      ensures resume == if resumeReply.Some? then resumeReply else old(resume)
    {
      token := saved;
      isAuthenticated := true;
      FetchResume(api, saved, resumeReply);
    }

    /** The exchange branch of start-up: `authenticate(code)`, with a rethrown failure turned into an alert. */
    method ExchangeAtStart(api: ApiService, b: Browser, code: string, exchange: Reply<string>, resumeReply: Option<Resume>)
      returns (alert: Option<string>)
      modifies this, api, b
      ensures isLoading == old(isLoading)
      ensures exchange.Rejected? ==>
        && alert == Some(OrElse(exchange.detail, AuthErrorFallback))
        && api.sent == old(api.sent) + [RequestFor(api.baseUrl, old(api.token), AuthCallback(code))]
        && api.token == old(api.token)
        && token == old(token) && isAuthenticated == old(isAuthenticated) && resume == old(resume)
        && b.cookies == old(b.cookies) && b.window == old(b.window)
      ensures exchange.Ok? ==>
        && alert.None?
        && api.sent == old(api.sent) + [RequestFor(api.baseUrl, old(api.token), AuthCallback(code)),
                                        RequestFor(api.baseUrl, exchange.data, Endpoint.Resume)]
        && api.token == exchange.data
        && b.cookies == old(b.cookies)[TokenKey := exchange.data]
        && GetToken(b.cookies) == Some(exchange.data) && AuthCode(b.window).None?
        && token == exchange.data && isAuthenticated
        && resume == if resumeReply.Some? then resumeReply else old(resume)
    {
      var o := Authenticate(api, b, code, exchange, resumeReply);
      alert := None;
      if o.Failed? {
        alert := Some(OrElse(o.detail, AuthErrorFallback));
      }
    }
  }
}
