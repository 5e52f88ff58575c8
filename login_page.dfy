/**
 * The login page (src/Pages/Login.jsx): where a successful login resumes,
 * which message a failed one shows, and the submit handler.
 */
module LoginPage {
  import opened Wrappers
  import opened Js
  import opened Platform
  import opened ApiClient
  import opened AuthContext

  const DefaultDestination := "/"
  const FallbackMessage := "Login failed. Please check your credentials."

  /** `location.state?.from?.pathname || "/"`. */
  function Destination(location: Location): (r: string)
    ensures r != ""
    ensures location.state.Some? && location.state.value.from.Some? && location.state.value.from.value.pathname != ""
      ==> r == location.state.value.from.value.pathname
    ensures !(location.state.Some? && location.state.value.from.Some? && location.state.value.from.value.pathname != "")
      ==> r == DefaultDestination
  {
    if location.state.Some? && location.state.value.from.Some? && location.state.value.from.value.pathname != "" then
      location.state.value.from.value.pathname
    else
      DefaultDestination
  }

  /**
   * `err?.response?.data?.message || err?.message || "Login failed. ..."`:
   * the server's message, else the error's own, else the fixed text.
   */
  function ErrorMessage(err: JsError): (r: string)
    ensures r != ""
    ensures err.response.Some? && Truthy(err.response.value.dataMessage) ==> r == err.response.value.dataMessage.value
    ensures !(err.response.Some? && Truthy(err.response.value.dataMessage)) && err.message != "" ==> r == err.message
    ensures !(err.response.Some? && Truthy(err.response.value.dataMessage)) && err.message == "" ==> r == FallbackMessage
  {
    if err.response.Some? && Truthy(err.response.value.dataMessage) then err.response.value.dataMessage.value
    else if err.message != "" then err.message
    else FallbackMessage
  }

  /**
   * The guard and the login page fit together: an anonymous visit to a
   * non-empty path is redirected to `/login`, and the page reached that way
   * resumes at that same path after logging in.
   */
  lemma GuardThenResume(location: Location)
    requires location.pathname != ""
    ensures var d := RequireAuth(false, location);
      && d.RedirectTo? && d.nav.to == LoginPath
      && Destination(Location(d.nav.to, d.nav.state)) == location.pathname
  {
  }

  /** Reaching the login page directly (no recorded origin) resumes at `/`. */
  lemma DirectLoginResumesHome(pathname: string)
    ensures Destination(Location(pathname, None)) == DefaultDestination
    ensures Destination(Location(pathname, Some(RouteState(None)))) == DefaultDestination
  {
  }

  /** The login form: its shown error and the location it was reached at. */
  class LoginForm {
    const auth: AuthProvider
    const router: Router
    const location: Location
    var error: string

    constructor (auth: AuthProvider, router: Router, location: Location)
      ensures this.auth == auth && this.router == router && this.location == location && error == ""
    {
      this.auth := auth;
      this.router := router;
      this.location := location;
      error := "";
    }

    /** The submit button is disabled while a login is in flight. */
    predicate SubmitDisabled()
      reads this, auth
    {
      auth.loading
    }

    /**
     * `handleSubmit`: clears the error, awaits `login`; on success navigates
     * (replacing) to the destination and leaves the error empty; on failure
     * does not navigate and shows the message the fallback chain picks.
     */
    method HandleSubmit(outcome: Outcome<Option<LoginBody>>, removalsBeforeFault: nat)
      requires auth.Valid()
      modifies this, auth, auth.client, auth.client.browser, router
      ensures auth.Valid()
      ensures LoginResult(outcome).Resolved? ==>
        && error == ""
        && router.history == old(router.history) + [Navigation(Destination(location), true, None)]
        && auth.IsAuthenticated()
        && auth.token == LoginResult(outcome).value.accessToken && auth.user == LoginResult(outcome).value.user
        && auth.client.browser.storage == StoreLogin(old(auth.client.browser.storage), LoginResult(outcome).value)
        && auth.client.commonHeaders == SyncedHeaders(old(auth.client.commonHeaders), auth.token)
        && auth.client.browser.href == old(auth.client.browser.href)
      ensures LoginResult(outcome).Rejected? ==>
        && error == ErrorMessage(LoginResult(outcome).error)
        && router.history == old(router.history)
        && auth.token == old(auth.token) && auth.user == old(auth.user)
        && auth.client.commonHeaders == old(auth.client.commonHeaders)
        && auth.client.browser.storage ==
             (if IsUnauthorized(outcome) then RemoveInOrder(old(auth.client.browser.storage), SessionKeys, removalsBeforeFault)
              else old(auth.client.browser.storage))
        && auth.client.browser.href == (if IsUnauthorized(outcome) then LoginPath else old(auth.client.browser.href))
      ensures !SubmitDisabled()
    {
      error := "";
      var r := auth.Login(outcome, removalsBeforeFault);
      if r.Resolved? {
        router.Navigate(Destination(location), true, None);
      } else {
        error := ErrorMessage(r.error);
      }
    }
  }
}
