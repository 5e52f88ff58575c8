/**
 * The session manager (src/contexts/AuthContext.jsx): the provider's
 * `token`, `user` and `loading` state, its start-up from storage, `login`,
 * `logout`, the derived `isAuthenticated`, the header-sync effect, and the
 * `RequireAuth` route guard.
 */
module AuthContext {
  import opened Wrappers
  import opened Js
  import opened Platform
  import opened ApiClient

  /**
   * The `user` value the backend returns: absent (`undefined`), `null`, or a
   * profile object, kept opaque as its JSON text.
   */
  datatype UserValue = Undefined | Null | Profile(json: string)

  /** JSON text of an object: braces around it. */
  predicate IsObjectText(t: string) {
    |t| >= 2 && t[0] == '{' && t[|t| - 1] == '}'
  }

  /** A user value as the backend can send it: a profile is object text. */
  predicate WellFormedUser(u: UserValue) {
    u.Profile? ==> IsObjectText(u.json)
  }

  /**
   * What `localStorage.setItem("user", JSON.stringify(u))` stores:
   * `JSON.stringify(undefined)` is `undefined`, which storage turns into the
   * text "undefined".
   */
  function StringifyUser(u: UserValue): (t: string)
    ensures WellFormedUser(u) ==> (t == "undefined" <==> u == Undefined)
    ensures WellFormedUser(u) && u != Undefined ==> t == "null" || IsObjectText(t)
  {
    match u
    case Undefined => "undefined"
    case Null => "null"
    case Profile(json) => json
  }

  const SyntaxError := JsError("Unexpected token in JSON", None)

  /** `JSON.parse(text)` for the texts a user value can take; anything else throws. */
  function ParseUser(text: string): (r: Outcome<UserValue>)
    ensures r.Resolved? <==> text == "null" || IsObjectText(text)
    ensures r.Resolved? ==> WellFormedUser(r.value) && r.value != Undefined && StringifyUser(r.value) == text
    ensures r.Rejected? ==> r.error == SyntaxError
  {
    if text == "null" then Resolved(Null)
    else if IsObjectText(text) then Resolved(Profile(text))
    else Rejected(SyntaxError)
  }

  /**
   * Parsing what was stored gives the value back for `null` and profiles, but
   * an absent user is stored as "undefined", which does not parse.
   */
  lemma ParseStringifyUser(u: UserValue)
    requires WellFormedUser(u)
    ensures u != Undefined ==> ParseUser(StringifyUser(u)) == Resolved(u)
    ensures u == Undefined ==> ParseUser(StringifyUser(u)).Rejected?
  {
  }

  /** The provider's session state. */
  datatype Session = Session(token: Option<string>, user: UserValue)

  /** `isAuthenticated` is `!!token`: derived from the token, never stored. */
  predicate Authenticated(s: Session) {
    Truthy(s.token)
  }

  /** The text the provider parses at start-up: `localStorage.getItem("user") || "null"`. */
  function StoredUserText(storage: map<string, string>): string {
    var t := GetItem(storage, UserKey);
    if Truthy(t) then t.value else "null"
  }

  /**
   * The provider's initial state, read from storage without any network
   * call; the unguarded `JSON.parse` makes start-up throw on a stored user
   * text that does not parse.
   */
  function InitialSession(storage: map<string, string>): (r: Outcome<Session>)
    ensures r.Resolved? <==> ParseUser(StoredUserText(storage)).Resolved?
    ensures r.Resolved? ==>
      && r.value.token == GetItem(storage, AccessTokenKey)
      && StringifyUser(r.value.user) == StoredUserText(storage)
    ensures r.Rejected? ==> r.error == SyntaxError
  {
    match ParseUser(StoredUserText(storage))
    case Resolved(u) => Resolved(Session(GetItem(storage, AccessTokenKey), u))
    case Rejected(e) => Rejected(e)
  }

  /**
   * Start-up succeeds unless a non-empty stored user text fails to parse, and
   * then the session is authenticated exactly when a non-empty access token is stored.
   */
  lemma InitialSessionSpec(storage: map<string, string>)
    ensures InitialSession(storage).Rejected? <==>
      Truthy(GetItem(storage, UserKey)) && ParseUser(storage[UserKey]).Rejected?
    ensures InitialSession(storage).Resolved? ==>
      (Authenticated(InitialSession(storage).value) <==>
        AccessTokenKey in storage && storage[AccessTokenKey] != "")
    ensures UserKey !in storage ==> InitialSession(storage) == Resolved(Session(GetItem(storage, AccessTokenKey), Null))
  {
  }

  /** The body of a login response; a missing body is treated as `{}`. */
  datatype LoginBody = LoginBody(accessToken: Option<string>, refreshToken: Option<string>, user: UserValue)

  const EmptyBody := LoginBody(None, None, Undefined)

  const NoTokenError := JsError("Login failed — no token received from backend.", None)

  /**
   * What `login` settles with for a given outcome of the login request:
   * the request's own rejection, a rejection when the body has no non-empty
   * access token, or the body itself.
   */
  function LoginResult(outcome: Outcome<Option<LoginBody>>): (r: Outcome<LoginBody>)
    ensures r.Resolved? <==> outcome.Resolved? && Truthy(outcome.value.GetOr(EmptyBody).accessToken)
    ensures outcome.Rejected? ==> r == Rejected(outcome.error)
    ensures outcome.Resolved? && r.Rejected? ==> r.error == NoTokenError
    ensures r.Resolved? ==> r.value == outcome.value.GetOr(EmptyBody)
  {
    match outcome
    case Rejected(e) => Rejected(e)
    case Resolved(body) =>
      var data := body.GetOr(EmptyBody);
      if Truthy(data.accessToken) then Resolved(data) else Rejected(NoTokenError)
  }

  /** Storage after a successful login has written its keys. */
  function StoreLogin(storage: map<string, string>, data: LoginBody): (s: map<string, string>)
    requires Truthy(data.accessToken)
    ensures GetItem(s, AccessTokenKey) == data.accessToken
    ensures GetItem(s, UserKey) == Some(StringifyUser(data.user))
    ensures GetItem(s, RefreshTokenKey) == (if Truthy(data.refreshToken) then data.refreshToken else GetItem(storage, RefreshTokenKey))
    ensures forall k :: k !in SessionKeys ==> GetItem(s, k) == GetItem(storage, k)
  {
    var s1 := storage[AccessTokenKey := data.accessToken.value];
    var s2 := if Truthy(data.refreshToken) then s1[RefreshTokenKey := data.refreshToken.value] else s1;
    s2[UserKey := StringifyUser(data.user)]
  }

  /**
   * A successful login stores the access token and the user; it stores the
   * refresh token only when one was sent, so an earlier refresh token
   * survives a login without one; every other key is untouched.
   */
  lemma StoreLoginSpec(storage: map<string, string>, data: LoginBody)
    requires Truthy(data.accessToken)
    ensures var s := StoreLogin(storage, data);
      && s[AccessTokenKey] == data.accessToken.value
      && s[UserKey] == StringifyUser(data.user)
      && (Truthy(data.refreshToken) ==> s[RefreshTokenKey] == data.refreshToken.value)
      && (!Truthy(data.refreshToken) ==> GetItem(s, RefreshTokenKey) == GetItem(storage, RefreshTokenKey))
      && forall k :: k !in SessionKeys ==> GetItem(s, k) == GetItem(storage, k)
  {
  }

  /**
   * Reload resumption: after a login whose user is null or a profile,
   * start-up from the stored keys restores the same token and user, so the
   * session is authenticated; after a login whose response had no `user` at
   * all, start-up throws instead.
   */
  lemma ReloadAfterLogin(storage: map<string, string>, data: LoginBody)
    requires Truthy(data.accessToken) && WellFormedUser(data.user)
    ensures data.user != Undefined ==>
      InitialSession(StoreLogin(storage, data)) == Resolved(Session(data.accessToken, data.user))
    ensures data.user != Undefined ==> Authenticated(Session(data.accessToken, data.user))
    ensures data.user == Undefined ==> InitialSession(StoreLogin(storage, data)).Rejected?
  {
    ParseStringifyUser(data.user);
    var s := StoreLogin(storage, data);
    assert GetItem(s, UserKey) == Some(StringifyUser(data.user));
    assert GetItem(s, AccessTokenKey) == data.accessToken;
  }

  /** Storage after `logout`: the three session keys are gone, everything else kept. */
  function LoggedOut(storage: map<string, string>): (s: map<string, string>)
    ensures forall k :: k in s <==> k in storage && k !in SessionKeys
    ensures forall k :: k in s ==> s[k] == storage[k]
  {
    storage - {AccessTokenKey, RefreshTokenKey, UserKey}
  }

  /**
   * Logging out empties the session whatever the prior state (start-up then
   * finds no session), it is idempotent, and it agrees with the 401
   * handler's clearing when no storage removal fails.
   */
  lemma LogoutSpec(storage: map<string, string>)
    ensures forall k :: k in SessionKeys ==> k !in LoggedOut(storage)
    ensures InitialSession(LoggedOut(storage)) == Resolved(Session(None, Null))
    ensures LoggedOut(LoggedOut(storage)) == LoggedOut(storage)
    ensures LoggedOut(storage) == RemoveInOrder(storage, SessionKeys, |SessionKeys|)
  {
    ClearSessionSpec(storage, |SessionKeys|);
    assert GetItem(LoggedOut(storage), UserKey) == None;
  }

  /** The session provider. `client` and `router` are the services it uses. */
  class AuthProvider {
    const client: Client
    const router: Router
    var token: Option<string>
    var user: UserValue
    var loading: bool

    /** `isAuthenticated: !!token`. */
    predicate IsAuthenticated()
      reads this
    {
      Authenticated(Session(token, user))
    }

    /**
     * The header-sync effect has run for the current token: the client's
     * default `Authorization` header follows `token`.
     */
    predicate Valid()
      reads this, client
    {
      HeadersFollow(client.commonHeaders, token)
    }

    /**
     * Mounting the provider: token and user come from storage (the render
     * throws when the stored user does not parse, hence the precondition),
     * `loading` is false, and the header-sync effect runs once.
     */
    constructor (client: Client, router: Router)
      requires InitialSession(client.browser.storage).Resolved?
      modifies client
      ensures this.client == client && this.router == router
      ensures Session(token, user) == InitialSession(client.browser.storage).value
      ensures !loading
      ensures client.commonHeaders == SyncedHeaders(old(client.commonHeaders), token)
      ensures Valid()
    {
      this.client := client;
      this.router := router;
      var s := InitialSession(client.browser.storage).value;
      token := s.token;
      user := s.user;
      loading := false;
      new;
      client.SyncAuthorization(token);
      SyncedHeadersSpec(old(client.commonHeaders), token);
    }

    /** The synchronous start of `login`, before the request is awaited. */
    method BeginLogin()
      requires Valid()
      modifies this`loading
      ensures Valid()
      ensures loading
    {
      loading := true;
    }

    /**
     * The rest of `login`, once the request has settled with `outcome` (the
     * request passes through the client's response interceptor first). It
     * settles with the body or rethrows; storage, token and user change only
     * on success; `loading` is false afterwards either way.
     */
    method FinishLogin(outcome: Outcome<Option<LoginBody>>, removalsBeforeFault: nat) returns (r: Outcome<LoginBody>)
      requires Valid()
      modifies this, client, client.browser
      ensures Valid()
      ensures r == LoginResult(outcome)
      ensures !loading
      ensures r.Resolved? ==>
        && client.browser.storage == StoreLogin(old(client.browser.storage), r.value)
        && token == r.value.accessToken && user == r.value.user
        && client.commonHeaders == SyncedHeaders(old(client.commonHeaders), token)
        && client.browser.href == old(client.browser.href)
      ensures r.Rejected? ==>
        && token == old(token) && user == old(user)
        && client.commonHeaders == old(client.commonHeaders)
        && client.browser.storage ==
             (if IsUnauthorized(outcome) then RemoveInOrder(old(client.browser.storage), SessionKeys, removalsBeforeFault)
              else old(client.browser.storage))
        && client.browser.href == (if IsUnauthorized(outcome) then LoginPath else old(client.browser.href))
    {
      var settled := client.InterceptResponse(outcome, removalsBeforeFault);
      match settled {
        case Rejected(e) =>
          r := Rejected(e);
        case Resolved(body) =>
          var data := body.GetOr(EmptyBody);
          if !Truthy(data.accessToken) {
            r := Rejected(NoTokenError);
          } else {
            client.browser.SetItem(AccessTokenKey, data.accessToken.value);
            if Truthy(data.refreshToken) {
              client.browser.SetItem(RefreshTokenKey, data.refreshToken.value);
            }
            client.browser.SetItem(UserKey, StringifyUser(data.user));
            token := data.accessToken;
            user := data.user;
            client.SyncAuthorization(token);
            SyncedHeadersSpec(old(client.commonHeaders), token);
            r := Resolved(data);
          }
      }
      loading := false;
    }

    /** `login`: both halves as one step. */
    method Login(outcome: Outcome<Option<LoginBody>>, removalsBeforeFault: nat) returns (r: Outcome<LoginBody>)
      requires Valid()
      modifies this, client, client.browser
      ensures Valid()
      ensures r == LoginResult(outcome)
      ensures !loading
      ensures r.Resolved? ==>
        && client.browser.storage == StoreLogin(old(client.browser.storage), r.value)
        && token == r.value.accessToken && user == r.value.user && IsAuthenticated()
        && client.commonHeaders == SyncedHeaders(old(client.commonHeaders), token)
        && client.browser.href == old(client.browser.href)
      ensures r.Rejected? ==>
        && token == old(token) && user == old(user)
        && client.commonHeaders == old(client.commonHeaders)
        && client.browser.storage ==
             (if IsUnauthorized(outcome) then RemoveInOrder(old(client.browser.storage), SessionKeys, removalsBeforeFault)
              else old(client.browser.storage))
        && client.browser.href == (if IsUnauthorized(outcome) then LoginPath else old(client.browser.href))
    {
      BeginLogin();
      r := FinishLogin(outcome, removalsBeforeFault);
    }

    /**
     * `logout`: removes the three session keys, nulls token and user,
     * navigates to `/login`, and the sync effect deletes the default header.
     */
    method Logout()
      modifies this, client, client.browser, router
      ensures client.browser.storage == LoggedOut(old(client.browser.storage))
      ensures token == None && user == Null && !IsAuthenticated()
      ensures loading == old(loading)
      ensures router.history == old(router.history) + [Navigation(LoginPath, false, None)]
      ensures client.commonHeaders == old(client.commonHeaders) - {AuthorizationHeader}
      ensures client.browser.href == old(client.browser.href)
      ensures Valid()
    {
      client.browser.RemoveItem(AccessTokenKey);
      client.browser.RemoveItem(RefreshTokenKey);
      client.browser.RemoveItem(UserKey);
      token := None;
      user := Null;
      router.Navigate(LoginPath, false, None);
      client.SyncAuthorization(token);
      SyncedHeadersSpec(old(client.commonHeaders), token);
    }
  }

  /** What `RequireAuth` renders: its children, or a redirect. */
  datatype GuardDecision = RenderChildren | RedirectTo(nav: Navigation)

  /**
   * `RequireAuth`: children when authenticated; otherwise a replacing
   * redirect to `/login` whose state records the location turned away.
   */
  function RequireAuth(isAuthenticated: bool, location: Location): (r: GuardDecision)
    ensures r.RenderChildren? <==> isAuthenticated
    ensures r.RedirectTo? ==> r.nav == Navigation(LoginPath, true, Some(RouteState(Some(location))))
  {
    if !isAuthenticated then RedirectTo(Navigation(LoginPath, true, Some(RouteState(Some(location)))))
    else RenderChildren
  }
}
