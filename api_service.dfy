/**
 * The REST client: a process-wide instance holding the bearer token, the
 * shape of the request each endpoint method builds, and the log of requests
 * handed to the transport. The transport itself (axios) is not modelled:
 * every call appends its request to `sent`, and its reply is an input of
 * the caller.
 */
module ApiServices {
  import opened Wrappers

  const DefaultBaseUrl := "http://localhost:8000"

  /** `process.env.NEXT_PUBLIC_API_URL || 'http://localhost:8000'`. */
  function BaseUrl(env: Option<string>): (r: string)
    ensures Truthy(env) ==> r == env.value
    ensures !Truthy(env) ==> r == DefaultBaseUrl
  {
    OrElse(env, DefaultBaseUrl)
  }

  datatype Verb = Get | Post

  /** A query parameter value: a string, or a boolean such as `only_with_salary: true`. */
  datatype ParamValue = Text(s: string) | Flag(b: bool)

  datatype Body = NoBody | EmptyObject | MessageBody(message: string)

  datatype Request = Request(
    verb: Verb,
    url: string,
    query: map<string, ParamValue>,
    headers: map<string, string>,
    body: Body)

  /**
   * The endpoint methods. `Detail` is the vacancy-detail lookup the table
   * calls; the ApiService class of the source does not declare it (see the
   * README's findings), and this model adds it as GET /api/vacancy/{id}.
   */
  datatype Endpoint =
    | AuthCallback(code: string)
    | Resume
    | Dictionaries
    | Areas
    | Search(params: map<string, ParamValue>)
    | Analyze(id: string)
    | GenerateLetter(id: string)
    | Apply(id: string, message: string)
    | Detail(id: string)

  /** `getHeaders()`: a bearer header exactly when a token is set. */
  function Headers(token: string): (h: map<string, string>)
    ensures "Authorization" in h <==> token != ""
    ensures "Authorization" in h ==> h["Authorization"] == "Bearer " + token
    ensures h.Keys <= {"Authorization"}
  {
    if token != "" then map["Authorization" := "Bearer " + token] else map[]
  }

  /** The calls that attach `getHeaders()`; the others send no header at all. */
  predicate NeedsAuth(e: Endpoint) {
    !(e.AuthCallback? || e.Dictionaries? || e.Areas?)
  }

  function VacancyPath(id: string, action: string): string {
    "/api/vacancy/" + id + action
  }

  function Path(e: Endpoint): string {
    match e
    case AuthCallback(_) => "/api/auth/callback"
    case Resume => "/api/resume"
    case Dictionaries => "/api/dictionaries"
    case Areas => "/api/areas"
    case Search(_) => "/api/vacancies"
    case Analyze(id) => VacancyPath(id, "/analyze")
    case GenerateLetter(id) => VacancyPath(id, "/generate-letter")
    case Apply(id, _) => VacancyPath(id, "/apply")
    case Detail(id) => VacancyPath(id, "")
  }

  /** The request an endpoint method hands to the transport. */
  function RequestFor(base: string, token: string, e: Endpoint): (r: Request)
    ensures r.url == base + Path(e)
    ensures r.headers == if NeedsAuth(e) then Headers(token) else map[]
    ensures r.verb == Post <==> (e.AuthCallback? || e.Analyze? || e.GenerateLetter? || e.Apply?)
    ensures e.AuthCallback? ==> r.query == map["code" := Text(e.code)] && r.body == NoBody
    ensures e.Search? ==> r.query == e.params
    ensures !(e.AuthCallback? || e.Search?) ==> r.query == map[]
    ensures e.Apply? <==> r.body.MessageBody?
    ensures e.Apply? ==> r.body.message == e.message
  {
    var url := base + Path(e);
    match e
    case AuthCallback(code) => Request(Post, url, map["code" := Text(code)], map[], NoBody)
    case Resume => Request(Get, url, map[], Headers(token), NoBody)
    case Dictionaries => Request(Get, url, map[], map[], NoBody)
    case Areas => Request(Get, url, map[], map[], NoBody)
    case Search(params) => Request(Get, url, params, Headers(token), NoBody)
    case Analyze(_) => Request(Post, url, map[], Headers(token), EmptyObject)
    case GenerateLetter(_) => Request(Post, url, map[], Headers(token), EmptyObject)
    case Apply(_, message) => Request(Post, url, map[], Headers(token), MessageBody(message))
    case Detail(_) => Request(Get, url, map[], Headers(token), NoBody)
  }

  /**
   * A per-vacancy path names its vacancy: two requests for the same action
   * reach the same path only for the same identifier.
   */
  lemma VacancyPathInjective(id1: string, id2: string, action: string)
    requires VacancyPath(id1, action) == VacancyPath(id2, action)
    ensures id1 == id2
  {
    var p := "/api/vacancy/";
    var s1, s2 := VacancyPath(id1, action), VacancyPath(id2, action);
    assert |id1| == |id2|;
    assert id1 == s1[|p|..|p| + |id1|];
    assert id2 == s2[|p|..|p| + |id2|];
  }

  class ApiService {
    const baseUrl: string
    var token: string
    /** Every request handed to the transport, oldest first. */
    var sent: seq<Request>

    /** `private constructor()`: no token yet, nothing sent. */
    constructor (base: string)
      ensures baseUrl == base && token == "" && sent == []
    {
      baseUrl := base;
      token := "";
      sent := [];
    }

    /** `setToken(token)`: every later request carries the new token's header. */
    method SetToken(t: string)
      modifies this
      ensures token == t && sent == old(sent)
    {
      token := t;
    }

    /** One endpoint call: the request it builds goes out with the current token. */
    method Send(e: Endpoint)
      modifies this
      ensures token == old(token)
      ensures sent == old(sent) + [RequestFor(baseUrl, token, e)]
    {
      sent := sent + [RequestFor(baseUrl, token, e)];
    }
  }

  /** The static `instance` slot behind `getInstance()`. */
  class Registry {
    const baseUrl: string
    var instance: ApiService?

    constructor (env: Option<string>)
      ensures baseUrl == BaseUrl(env) && instance == null
    {
      baseUrl := BaseUrl(env);
      instance := null;
    }

    /** Creates the instance on the first call and returns that same one afterwards. */
    method GetInstance() returns (s: ApiService)
      modifies this
      ensures old(instance) != null ==> s == old(instance)
      ensures old(instance) == null ==> fresh(s) && s.token == "" && s.sent == [] && s.baseUrl == baseUrl
      ensures instance == s
    {
      if instance == null {
        instance := new ApiService(baseUrl);
      }
      s := instance;
    }
  }
}
