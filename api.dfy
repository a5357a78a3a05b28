/**
 * The shared HTTP client of `src/api/api.js` and the `Auth` service built on
 * it. The browser state it touches (`localStorage`, `window.location`, the
 * events dispatched on `window`) and the requests it sends live in one
 * `Browser` object; each network call takes its settled outcome as a
 * parameter instead of performing I/O.
 */
module Api {
  import opened Common
  import opened Http
  import opened Session

  const LoginRoute := "/login"

  /** The two window events `login` and `logout` dispatch. */
  datatype Signal = StorageSignal | AuthChange(authenticated: bool)

  /** A dispatched event, with the store as a listener reading it at that moment sees it. */
  datatype Dispatch = Dispatch(signal: Signal, seen: Storage)

  /** The body of a successful `api/login` response. */
  datatype LoginData = LoginData(token: string, user: UserProfile)

  // ---------------------------------------------------------------------------
  // Response interceptor rule
  // ---------------------------------------------------------------------------

  /** The store after the response interceptor saw an error: a 401 clears the session. */
  function StorageAfterError(s: Storage, e: HttpError): (r: Storage)
    ensures IsUnauthorized(e) ==> r.token.None? && r.user.None?
    ensures IsUnauthorized(e) ==> !IsAuthenticated(r) && GetUser(r) == NoUser
    ensures !IsUnauthorized(e) ==> r == s
  {
    if IsUnauthorized(e) then Cleared(s) else s
  }

  /** The location after the response interceptor saw an error: a 401 sends the browser to the login page. */
  function LocationAfterError(location: string, e: HttpError): (r: string)
    ensures IsUnauthorized(e) ==> r == LoginRoute
    ensures !IsUnauthorized(e) ==> r == location
  {
    if IsUnauthorized(e) then LoginRoute else location
  }

  function StorageAfter<T>(s: Storage, o: Outcome<T>): Storage
  {
    if o.Failed? then StorageAfterError(s, o.error) else s
  }

  function LocationAfter<T>(location: string, o: Outcome<T>): string
  {
    if o.Failed? then LocationAfterError(location, o.error) else location
  }

  /** A request sent through the shared client, decorated from the store as it was at send time. */
  function ClientRequest(s: Storage, verb: Verb, path: string, body: map<string, string>): (r: Request)
    ensures r.verb == verb && r.url == path && r.body == body
    ensures IsAuthenticated(s) ==> r.headers == map[AuthorizationHeader := "Bearer " + s.token.value]
    ensures !IsAuthenticated(s) ==> r.headers == map[]
  {
    Request(verb, path, Decorated(s, map[]), body)
  }

  /** The `config` object the request interceptor receives and edits in place. */
  class RequestConfig {
    var url: string
    var headers: map<string, string>
    var params: Option<map<string, Param>>

    constructor (url: string, headers: map<string, string>, params: Option<map<string, Param>>)
      ensures this.url == url && this.headers == headers && this.params == params
    {
      this.url := url;
      this.headers := headers;
      this.params := params;
    }
  }

  class Browser {
    /** `localStorage`. */
    var storage: Storage
    /** `window.location.href`. */
    var location: string
    /** Events dispatched on `window`, oldest first. */
    var events: seq<Dispatch>
    /** Requests sent, oldest first. */
    var requests: seq<Request>

    constructor (storage: Storage, location: string)
      ensures this.storage == storage && this.location == location
      ensures events == [] && requests == []
    {
      this.storage := storage;
      this.location := location;
      events := [];
      requests := [];
    }

    /**
     * The request interceptor: adds the bearer credential read from the store
     * at send time, and drops a `page` parameter the URL already carries.
     */
    method InterceptRequest(config: RequestConfig)
      modifies config
      ensures config.headers == Decorated(storage, old(config.headers))
      ensures config.params == WithoutDuplicatePage(old(config.url), old(config.params))
      ensures config.url == old(config.url)
    {
      var token := storage.token;
      if token.Some? && token.value != "" {
        config.headers := config.headers[AuthorizationHeader := "Bearer " + token.value];
      }
      if config.url != "" && Contains(config.url, "?page=") && config.params.Some?
         && "page" in config.params.value && ParamTruthy(config.params.value["page"])
      {
        config.params := Some(config.params.value - {"page"});
      }
    }

    /**
     * The response interceptor's error path: a 401 removes the token and the
     * user and redirects to the login page; every error is rejected on to the caller.
     */
    method InterceptResponseError(e: HttpError) returns (rejected: HttpError)
      modifies this
      ensures rejected == e
      ensures storage == StorageAfterError(old(storage), e)
      ensures location == LocationAfterError(old(location), e)
      ensures events == old(events) && requests == old(requests)
    {
      if e.response.Some? && e.response.value.status == 401 {
        storage := storage.(token := None);
        storage := storage.(user := None);
        location := LoginRoute;
      }
      rejected := e;
    }

    /** One call through the shared client: both interceptors apply. */
    method Send<T>(verb: Verb, path: string, body: map<string, string>, outcome: Outcome<T>) returns (r: Outcome<T>)
      modifies this
      ensures requests == old(requests) + [ClientRequest(old(storage), verb, path, body)]
      ensures r == outcome
      ensures storage == StorageAfter(old(storage), outcome)
      ensures location == LocationAfter(old(location), outcome)
      ensures events == old(events)
    {
      var config := new RequestConfig(path, map[], None);
      InterceptRequest(config);
      requests := requests + [Request(verb, config.url, config.headers, body)];
      if outcome.Failed? {
        var rejected := InterceptResponseError(outcome.error);
        r := Failed(rejected);
      } else {
        r := outcome;
      }
    }

    /** A call made with a bare HTTP client: no interceptor runs. */
    method SendDirect<T>(verb: Verb, url: string, headers: map<string, string>, outcome: Outcome<T>) returns (r: Outcome<T>)
      modifies this
      ensures requests == old(requests) + [Request(verb, url, headers, map[])]
      ensures r == outcome
      ensures storage == old(storage) && location == old(location) && events == old(events)
    {
      requests := requests + [Request(verb, url, headers, map[])];
      r := outcome;
    }

    /** `Auth.register`: posts the account; it writes nothing to the store itself. */
    method Register<T>(payload: map<string, string>, outcome: Outcome<T>) returns (r: Outcome<T>)
      modifies this
      ensures requests == old(requests) + [ClientRequest(old(storage), Post, "api/register", payload)]
      ensures r == outcome
      ensures storage == StorageAfter(old(storage), outcome)
      ensures location == LocationAfter(old(location), outcome)
      ensures events == old(events)
    {
      r := Send(Post, "api/register", payload, outcome);
    }

    /**
     * `Auth.login`: on success the token and the user are stored before the
     * `storage` and `auth-change(true)` events are dispatched, so listeners
     * see the new session; on failure it writes nothing itself and rethrows.
     */
    method Login(credentials: map<string, string>, outcome: Outcome<LoginData>) returns (r: Outcome<LoginData>)
      modifies this
      ensures requests == old(requests) + [ClientRequest(old(storage), Post, "api/login", credentials)]
      ensures r == outcome
      ensures outcome.Ok? ==>
                && storage == WithLogin(outcome.value.token, outcome.value.user)
                && events == old(events) + [Dispatch(StorageSignal, storage), Dispatch(AuthChange(true), storage)]
                && location == old(location)
      ensures outcome.Failed? ==>
                && storage == StorageAfterError(old(storage), outcome.error)
                && location == LocationAfterError(old(location), outcome.error)
                && events == old(events)
    {
      r := Send(Post, "api/login", credentials, outcome);
      if r.Ok? {
        storage := storage.(token := Some(r.value.token));
        storage := storage.(user := Some(Serialized(r.value.user)));
        events := events + [Dispatch(StorageSignal, storage)];
        events := events + [Dispatch(AuthChange(true), storage)];
      }
    }

    /**
     * `Auth.logout`: whether the server call succeeds or fails, the token and
     * the user are removed and `auth-change(false)` is dispatched; a failure
     * is rethrown after that cleanup.
     */
    method Logout(outcome: Outcome<()>) returns (r: Outcome<()>)
      modifies this
      ensures requests == old(requests) + [ClientRequest(old(storage), Post, "api/logout", map[])]
      ensures r == outcome
      ensures storage == Cleared(old(storage))
      ensures !IsAuthenticated(storage) && GetUser(storage) == NoUser
      ensures events == old(events) + [Dispatch(StorageSignal, storage), Dispatch(AuthChange(false), storage)]
      ensures location == LocationAfter(old(location), outcome)
    {
      r := Send(Post, "api/logout", map[], outcome);
      storage := storage.(token := None);
      storage := storage.(user := None);
      events := events + [Dispatch(StorageSignal, storage)];
      events := events + [Dispatch(AuthChange(false), storage)];
    }

    /** `Auth.me`: fetches the profile; it writes nothing to the store itself. */
    method Me<T>(outcome: Outcome<T>) returns (r: Outcome<T>)
      modifies this
      ensures requests == old(requests) + [ClientRequest(old(storage), Get, "api/me", map[])]
      ensures r == outcome
      ensures storage == StorageAfter(old(storage), outcome)
      ensures location == LocationAfter(old(location), outcome)
      ensures events == old(events)
    {
      r := Send(Get, "api/me", map[], outcome);
    }
  }

  // ---------------------------------------------------------------------------
  // Endpoint paths of the resource services
  // ---------------------------------------------------------------------------

  datatype Resource = Vehicules | Interventions | Users

  /** The collection path, used by the create calls. */
  function CollectionPath(r: Resource): (p: string)
    ensures |p| > 4 && p[..4] == "api/"
    ensures r == Vehicules ==> p == "api/vehicules"
    ensures r == Interventions ==> p == "api/interventions"
    ensures r == Users ==> p == "api/users"
  {
    match r
    case Vehicules => "api/vehicules"
    case Interventions => "api/interventions"
    case Users => "api/users"
  }

  /** The list path of one page, used by the fetch calls. */
  function ListPath(r: Resource, page: int): (p: string)
    ensures |p| == |CollectionPath(r)| + 6 + |IntText(page)|
    ensures p[..|CollectionPath(r)|] == CollectionPath(r)
    ensures p[|CollectionPath(r)|..|CollectionPath(r)| + 6] == "?page="
    ensures p[|CollectionPath(r)| + 6..] == IntText(page)
  {
    CollectionPath(r) + "?page=" + IntText(page)
  }

  /** The path of one entity as the caller spells its id (a route parameter is passed on as text). */
  function ItemPathOf(r: Resource, idText: string): string
  {
    CollectionPath(r) + "/" + idText
  }

  /** An entity path is the collection path, a slash, and the id text exactly as given. */
  lemma ItemPathOfParts(r: Resource, idText: string)
    ensures |ItemPathOf(r, idText)| == |CollectionPath(r)| + 1 + |idText|
    ensures ItemPathOf(r, idText)[..|CollectionPath(r)| + 1] == CollectionPath(r) + "/"
    ensures ItemPathOf(r, idText)[|CollectionPath(r)| + 1..] == idText
  {
  }

  /** The path of one entity with a numeric id, used by the get, update and delete calls. */
  function ItemPath(r: Resource, id: int): string
  {
    ItemPathOf(r, IntText(id))
  }

  /** Each resource has its own collection, so no two resources share a path. */
  lemma CollectionPathsDistinct(r: Resource, other: Resource)
    requires r != other
    ensures CollectionPath(r) != CollectionPath(other)
  {
    assert CollectionPath(r)[4] != CollectionPath(other)[4];
  }

  /** A list path carries `?page=`, followed by text the server reads back as the page number. */
  lemma ListPathCarriesPage(r: Resource, page: int)
    ensures Contains(ListPath(r, page), "?page=")
    ensures ParseInt(ListPath(r, page)[|CollectionPath(r)| + 6..]) == Some(page)
  {
    var base := CollectionPath(r);
    ContainsInfix(base, "?page=", IntText(page));
    ParseIntText(page);
    assert ListPath(r, page)[|base| + 6..] == IntText(page);
  }

  /** An entity path is the collection path, a slash, and text that reads back as the id. */
  lemma ItemPathCarriesId(r: Resource, id: int)
    ensures ItemPath(r, id)[..|CollectionPath(r)| + 1] == CollectionPath(r) + "/"
    ensures ParseInt(ItemPath(r, id)[|CollectionPath(r)| + 1..]) == Some(id)
  {
    var base := CollectionPath(r);
    ParseIntText(id);
    assert ItemPath(r, id)[|base| + 1..] == IntText(id);
  }

  /**
   * A list request never sends its page twice: its URL carries `?page=`, so
   * whatever `page` parameter a caller adds is dropped by the interceptor.
   */
  lemma ListRequestSendsOnePage(r: Resource, page: int, params: Option<map<string, Param>>)
    ensures !HasPageParam(WithoutDuplicatePage(ListPath(r, page), params))
  {
    ListPathCarriesPage(r, page);
  }
}
