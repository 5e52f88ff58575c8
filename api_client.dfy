/**
 * The shared HTTP client's interceptors (src/api/apiClient.js): every
 * request reads the access token from storage at that moment and attaches
 * it as a bearer credential; every rejected response is passed on
 * unchanged, and a 401 first clears the stored session and forces a full
 * navigation to the login page.
 */
module ApiClient {
  import opened Wrappers
  import opened Js
  import opened Platform

  const AccessTokenKey := "accessToken"
  const RefreshTokenKey := "refreshToken"
  const UserKey := "user"
  /** The session keys, in the order the 401 handler removes them. */
  const SessionKeys: seq<string> := [AccessTokenKey, RefreshTokenKey, UserKey]
  const LoginPath := "/login"
  const AuthorizationHeader := "Authorization"
  const BearerPrefix := "Bearer "

  /** The `Authorization` value for a token. */
  function Bearer(token: string): string {
    BearerPrefix + token
  }

  /**
   * The headers the request interceptor leaves on a request, given the
   * request's own headers (possibly absent) and the stored token.
   */
  function WithBearer(headers: Option<map<string, string>>, token: Option<string>): (r: Option<map<string, string>>)
    ensures !Truthy(token) ==> r == headers
    ensures Truthy(token) ==> r.Some? && AuthorizationHeader in r.value && r.value[AuthorizationHeader] == Bearer(token.value)
    ensures Truthy(token) ==> forall k :: k != AuthorizationHeader ==>
      (k in r.value <==> k in headers.GetOr(map[])) && (k in r.value ==> r.value[k] == headers.GetOr(map[])[k])
  {
    if Truthy(token) then Some(headers.GetOr(map[])[AuthorizationHeader := Bearer(token.value)]) else headers
  }

  /**
   * With a non-empty token the request carries `Bearer <token>` and keeps
   * every other header; otherwise the headers are exactly those it had.
   */
  lemma WithBearerSpec(headers: Option<map<string, string>>, token: Option<string>)
    ensures var r := WithBearer(headers, token);
      && (Truthy(token) ==>
            && r.Some? && AuthorizationHeader in r.value
            && r.value[AuthorizationHeader][..|BearerPrefix|] == BearerPrefix
            && r.value[AuthorizationHeader][|BearerPrefix|..] == token.value)
      && (!Truthy(token) ==> r == headers)
      && forall k :: k != AuthorizationHeader ==>
           (k in r.GetOr(map[]) <==> k in headers.GetOr(map[]))
           && (k in r.GetOr(map[]) ==> r.GetOr(map[])[k] == headers.GetOr(map[])[k])
  {
  }

  /** The response was a rejection carrying an HTTP 401 (`error?.response?.status === 401`). */
  predicate IsUnauthorized<T>(o: Outcome<T>) {
    o.Rejected? && o.error.response.Some? && o.error.response.value.status == 401
  }

  /**
   * Storage after removing `keys` one at a time when only the first `done`
   * removals succeed: the removal after those throws, which ends the sequence.
   */
  function RemoveInOrder(storage: map<string, string>, keys: seq<string>, done: nat): map<string, string>
    decreases keys
  {
    if keys == [] || done == 0 then storage else RemoveInOrder(storage - {keys[0]}, keys[1..], done - 1)
  }

  /** The keys a run of removals gets through. */
  function Removed(keys: seq<string>, done: nat): set<string> {
    set i | 0 <= i < |keys| && i < done :: keys[i]
  }

  /** Removing keys in order deletes exactly the keys it got through and keeps the rest. */
  lemma {:induction false} RemoveInOrderSpec(storage: map<string, string>, keys: seq<string>, done: nat)
    ensures RemoveInOrder(storage, keys, done) == storage - Removed(keys, done)
    decreases keys
  {
    if keys != [] && done != 0 {
      RemoveInOrderSpec(storage - {keys[0]}, keys[1..], done - 1);
      assert Removed(keys, done) == {keys[0]} + Removed(keys[1..], done - 1) by {
        forall k | k in Removed(keys, done) ensures k in {keys[0]} + Removed(keys[1..], done - 1) {
          var i :| 0 <= i < |keys| && i < done && keys[i] == k;
          if i > 0 { assert keys[1..][i - 1] == k; }
        }
        forall k | k in Removed(keys[1..], done - 1) ensures k in Removed(keys, done) {
          var i :| 0 <= i < |keys[1..]| && i < done - 1 && keys[1..][i] == k;
          assert keys[i + 1] == k;
        }
      }
    } else {
      assert Removed(keys, done) == {};
    }
  }

  /**
   * The 401 handler's effect on storage: with no storage failure all three
   * session keys are gone and nothing else changed; a failure after `done`
   * removals leaves the later keys in place.
   */
  lemma ClearSessionSpec(storage: map<string, string>, done: nat)
    ensures done >= |SessionKeys| ==>
      RemoveInOrder(storage, SessionKeys, done) == storage - {AccessTokenKey, RefreshTokenKey, UserKey}
    ensures done == 0 ==> RemoveInOrder(storage, SessionKeys, done) == storage
    ensures done == 1 ==> RemoveInOrder(storage, SessionKeys, done) == storage - {AccessTokenKey}
    ensures done == 2 ==> RemoveInOrder(storage, SessionKeys, done) == storage - {AccessTokenKey, RefreshTokenKey}
  {
    RemoveInOrderSpec(storage, SessionKeys, done);
    if done >= |SessionKeys| {
      assert Removed(SessionKeys, done) == {AccessTokenKey, RefreshTokenKey, UserKey} by {
        assert SessionKeys[0] == AccessTokenKey && SessionKeys[1] == RefreshTokenKey && SessionKeys[2] == UserKey;
      }
    } else if done == 1 {
      assert Removed(SessionKeys, done) == {AccessTokenKey} by {
        assert SessionKeys[0] == AccessTokenKey;
      }
    } else if done == 2 {
      assert Removed(SessionKeys, done) == {AccessTokenKey, RefreshTokenKey} by {
        assert SessionKeys[0] == AccessTokenKey && SessionKeys[1] == RefreshTokenKey;
      }
    }
  }

  /** A request whose headers are still open to the interceptor. */
  class RequestConfig {
    var url: string
    var headers: Option<map<string, string>>

    constructor (url: string, headers: Option<map<string, string>>)
      ensures this.url == url && this.headers == headers
    {
      this.url := url;
      this.headers := headers;
    }
  }

  /** The configured client: the browser it runs in and its default common headers. */
  class Client {
    const browser: Browser
    var commonHeaders: map<string, string>

    constructor (browser: Browser)
      ensures this.browser == browser && commonHeaders == map[]
    {
      this.browser := browser;
      commonHeaders := map[];
    }

    /**
     * Request interceptor: reads `accessToken` from storage now (it is not
     * cached) and, when non-empty, sets `Authorization: Bearer <token>` on
     * the request, creating its headers if it had none. Returns the same request.
     */
    method InterceptRequest(config: RequestConfig) returns (r: RequestConfig)
      modifies config
      ensures r == config
      ensures config.headers == WithBearer(old(config.headers), GetItem(browser.storage, AccessTokenKey))
      ensures config.url == old(config.url)
    {
      var token := GetItem(browser.storage, AccessTokenKey);
      if Truthy(token) {
        var headers := if config.headers.Some? then config.headers.value else map[];
        config.headers := Some(headers[AuthorizationHeader := Bearer(token.value)]);
      }
      r := config;
    }

    /**
     * Response interceptor. A success passes through; a rejection is
     * rejected again with the same error. On a 401 the three session keys
     * are removed in order, a storage exception being swallowed
     * (`removalsBeforeFault` says how many removals succeed before one
     * throws), and `window.location.href` is set to `/login` regardless.
     */
    method InterceptResponse<T>(outcome: Outcome<T>, removalsBeforeFault: nat) returns (r: Outcome<T>)
      modifies browser
      ensures r == outcome
      ensures IsUnauthorized(outcome) ==>
        browser.storage == RemoveInOrder(old(browser.storage), SessionKeys, removalsBeforeFault)
        && browser.href == LoginPath
      ensures !IsUnauthorized(outcome) ==>
        browser.storage == old(browser.storage) && browser.href == old(browser.href)
    {
      if IsUnauthorized(outcome) {
        ClearSessionSpec(browser.storage, removalsBeforeFault);
        // try { removeItem x3 } catch { ignore }: a throwing removal skips the rest
        if removalsBeforeFault > 0 {
          browser.RemoveItem(AccessTokenKey);
          if removalsBeforeFault > 1 {
            browser.RemoveItem(RefreshTokenKey);
            if removalsBeforeFault > 2 {
              browser.RemoveItem(UserKey);
            }
          }
        }
        browser.href := LoginPath;
      }
      r := outcome;
    }

    /**
     * The session's header-sync effect: the default `Authorization` header is
     * `Bearer <token>` while the token is non-empty and deleted otherwise.
     */
    method SyncAuthorization(token: Option<string>)
      modifies this`commonHeaders
      ensures commonHeaders == SyncedHeaders(old(commonHeaders), token)
    {
      if Truthy(token) {
        commonHeaders := commonHeaders[AuthorizationHeader := Bearer(token.value)];
      } else {
        commonHeaders := commonHeaders - {AuthorizationHeader};
      }
    }
  }

  /** Default headers after the sync effect runs for `token`. */
  function SyncedHeaders(headers: map<string, string>, token: Option<string>): (r: map<string, string>)
    ensures AuthorizationHeader in r <==> Truthy(token)
    ensures Truthy(token) ==> r[AuthorizationHeader] == Bearer(token.value)
    ensures forall k :: k != AuthorizationHeader ==> (k in r <==> k in headers) && (k in r ==> r[k] == headers[k])
  {
    if Truthy(token) then headers[AuthorizationHeader := Bearer(token.value)] else headers - {AuthorizationHeader}
  }

  /** The default headers are what the sync effect leaves for `token`. */
  predicate HeadersFollow(headers: map<string, string>, token: Option<string>) {
    SyncedHeaders(headers, token) == headers
  }

  /**
   * The sync effect makes the default `Authorization` header present exactly
   * while the token is non-empty, leaves other headers alone, and running it
   * again for the same token changes nothing.
   */
  lemma SyncedHeadersSpec(headers: map<string, string>, token: Option<string>)
    ensures var r := SyncedHeaders(headers, token);
      && (AuthorizationHeader in r <==> Truthy(token))
      && (Truthy(token) ==> r[AuthorizationHeader] == Bearer(token.value))
      && (forall k :: k != AuthorizationHeader ==> (k in r <==> k in headers))
      && SyncedHeaders(r, token) == r
  {
  }
}
