/**
 * The session as the browser's `localStorage` holds it: the bearer token
 * under "token" and the signed-in user, serialised as JSON, under "user".
 * The functions here are the store's queries (`Auth.isAuthenticated`,
 * `Auth.getUser`) and the updates that `api.js` and the user form make to
 * it, together with the two pure rules of the request interceptor.
 */
module Session {
  import opened Common

  /** The user record the backend returns; `extra` holds every other field. */
  datatype UserProfile = UserProfile(id: int, name: string, email: string, role: string, extra: map<string, string>)

  /**
   * The text stored under "user": either what `JSON.stringify` wrote for a
   * profile, or some other text (an empty string, or a value this front end
   * did not write).
   */
  datatype StoredUser = Serialized(profile: UserProfile) | Text(text: string)

  /** The two keys of `localStorage` the application uses; `None` is a missing key. */
  datatype Storage = Storage(token: Option<string>, user: Option<StoredUser>)

  /** The result of `Auth.getUser()`: null, the parsed user, or a `JSON.parse` exception. */
  datatype UserRead = NoUser | Parsed(profile: UserProfile) | ParseError

  /** `Auth.isAuthenticated()`: the stored token is present and non-empty. */
  predicate IsAuthenticated(s: Storage)
  {
    Truthy(s.token)
  }

  /**
   * `Auth.getUser()`: a missing or empty value gives null, a serialised
   * profile parses back to itself, and any other text makes `JSON.parse` throw.
   */
  function GetUser(s: Storage): (r: UserRead)
    ensures s.user.None? ==> r == NoUser
    ensures forall u :: s.user == Some(Serialized(u)) ==> r == Parsed(u)
    ensures s.user.Some? && s.user.value.Text? ==> r == if s.user.value.text == "" then NoUser else ParseError
  {
    match s.user
    case None => NoUser
    case Some(Serialized(u)) => Parsed(u)
    case Some(Text(t)) => if t == "" then NoUser else ParseError
  }

  /** Both keys removed, as `logout` and the 401 handler do. */
  function Cleared(s: Storage): (r: Storage)
    ensures !IsAuthenticated(r) && GetUser(r) == NoUser
    ensures r.token.None? && r.user.None?
  {
    Storage(None, None)
  }

  /** The store after a successful `login` wrote the returned token and user. */
  function WithLogin(token: string, user: UserProfile): (r: Storage)
    ensures GetUser(r) == Parsed(user)
    ensures IsAuthenticated(r) <==> token != ""
    ensures r.token == Some(token)
  {
    Storage(Some(token), Some(Serialized(user)))
  }

  /** The store after the user form rewrote the stored profile; the token is kept. */
  function WithProfile(s: Storage, user: UserProfile): (r: Storage)
    ensures GetUser(r) == Parsed(user)
    ensures r.token == s.token && (IsAuthenticated(r) <==> IsAuthenticated(s))
  {
    s.(user := Some(Serialized(user)))
  }

  /** After a login followed by a logout the session is gone, whatever it held before. */
  lemma LoginThenLogout(s: Storage, token: string, user: UserProfile)
    ensures !IsAuthenticated(Cleared(WithLogin(token, user))) && GetUser(Cleared(WithLogin(token, user))) == NoUser
    ensures Cleared(WithLogin(token, user)) == Cleared(s)
  {
  }

  /** Authentication depends on the token alone, even when the stored user is corrupt. */
  lemma AuthenticationIgnoresUser(s: Storage, u: Option<StoredUser>)
    ensures IsAuthenticated(s.(user := u)) == IsAuthenticated(s)
  {
  }

  // ---------------------------------------------------------------------------
  // Request interceptor rules
  // ---------------------------------------------------------------------------

  const AuthorizationHeader := "Authorization"

  /** The request headers after decoration: a bearer credential when a token is stored. */
  function Decorated(s: Storage, headers: map<string, string>): (h: map<string, string>)
    ensures IsAuthenticated(s) ==> AuthorizationHeader in h && h[AuthorizationHeader] == "Bearer " + s.token.value
    ensures !IsAuthenticated(s) ==> h == headers
    ensures forall k :: k != AuthorizationHeader ==> (k in h <==> k in headers)
    ensures forall k :: k in headers && k != AuthorizationHeader ==> h[k] == headers[k]
  {
    if IsAuthenticated(s) then headers[AuthorizationHeader := "Bearer " + s.token.value] else headers
  }

  /** A query parameter value: a number or a string. */
  datatype Param = Num(n: int) | Str(s: string)

  predicate ParamTruthy(p: Param)
  {
    match p
    case Num(n) => n != 0
    case Str(t) => t != ""
  }

  /** The query parameters carry a truthy `page`. */
  predicate HasPageParam(params: Option<map<string, Param>>)
  {
    params.Some? && "page" in params.value && ParamTruthy(params.value["page"])
  }

  /**
   * The query parameters after the interceptor: a truthy `page` parameter is
   * dropped when the URL already carries `?page=`, so the page is not sent twice.
   */
  function WithoutDuplicatePage(url: string, params: Option<map<string, Param>>): (p: Option<map<string, Param>>)
    ensures Contains(url, "?page=") && HasPageParam(params) ==>
              p.Some? && p.value.Keys == params.value.Keys - {"page"}
              && forall k :: k in p.value ==> p.value[k] == params.value[k]
    ensures !(Contains(url, "?page=") && HasPageParam(params)) ==> p == params
    ensures Contains(url, "?page=") ==> !HasPageParam(p)
  {
    if Contains(url, "?page=") && HasPageParam(params) then Some(params.value - {"page"}) else params
  }
}
