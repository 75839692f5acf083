/** The login page (frontend/src/pages/LoginPage.tsx): a mutation that
    raises `loading`, posts the form to `/auth/token`, and when it settles
    either installs both tokens, signs the session in and navigates to
    `/dashboard`, or shows the error and lowers `loading`. The messages
    the toasts display are recorded in order; the request's answer is a
    parameter of the settle step. */
module LoginView {
  import opened Common
  import opened Schemas
  import opened Transport
  import opened Session

  const LoginFailed := "Login failed."
  const SignedIn := "Signed in! Welcome back."

  datatype ButtonView = ButtonView(disabled: bool, caption: string)

  /** The submit button: disabled while loading, with the loading label. */
  function SubmitButton(loading: bool): (b: ButtonView)
    ensures b.disabled <==> loading
    ensures b.caption == (if loading then "Signing in..." else "Sign In")
  {
    if loading then ButtonView(true, "Signing in...") else ButtonView(false, "Sign In")
  }

  class LoginPage {
    const auth: AuthProvider
    var loading: bool
    /** The forms posted to `/auth/token`, in order. */
    var posted: seq<UserLogin>
    /** The messages shown to the user, in order. */
    var shown: seq<string>

    constructor (auth: AuthProvider)
      ensures this.auth == auth && !loading && posted == [] && shown == []
    {
      this.auth := auth;
      loading, posted, shown := false, [], [];
    }

    /** The start of the mutation: `loading` is raised, then the form is
        posted. */
    method Submit(form: UserLogin)
      modifies this
      ensures loading && posted == old(posted) + [form] && shown == old(shown)
    {
      loading := true;
      posted := posted + [form];
    }

    /** `onSuccess`: both tokens go to the transport, then `login` runs
        with the access token, whose identity fetch installs the access
        token again with no refresh token; then the page navigates. The
        refresh token just received is therefore no longer held, and
        `loading` stays raised. */
    method OnSuccess(data: Token) returns (nav: string)
      modifies this, auth, auth.api
      ensures nav == "/dashboard"
      ensures loading == old(loading) && posted == old(posted) && shown == old(shown) + [SignedIn]
      ensures auth.token == Some(data.accessToken)
      ensures auth.storage == old(auth.storage)[TokenKey := data.accessToken]
      ensures auth.user == old(auth.user) && auth.loading == old(auth.loading)
      ensures auth.api.authorization == BearerHeader(Some(data.accessToken))
      ensures auth.api.refreshToken == None
      ensures auth.api.renewals == old(auth.api.renewals) && auth.api.redirects == old(auth.api.redirects)
    {
      auth.api.SetAuthToken(Some(data.accessToken), Some(data.refreshToken));
      auth.Login(data.accessToken);
      shown := shown + [SignedIn];
      nav := "/dashboard";
    }

    /** `onError`: the server's detail or the fallback is shown and
        `loading` is lowered; the session is not touched. */
    method OnError(e: ApiError)
      modifies this
      ensures !loading && posted == old(posted)
      ensures shown == old(shown) + [DetailOr(e, LoginFailed)]
    {
      shown := shown + [DetailOr(e, LoginFailed)];
      loading := false;
    }
  }

  /** A cold start with nothing stored, then a successful login. Right
      after the login the provider still holds no user and is not loading,
      so a protected route redirects to `/login` until the identity
      arrives; once it does (the browser now on `/login`) the provider
      sends it back to `/dashboard`. Throughout, no refresh token is held,
      so a later 401 is rejected without any renewal. */
  method LoginFromColdStart(data: Token, me: UserRead, req: Request)
    returns (gateAfterLogin: Gate, nav: Option<string>, gateAfterFetch: Gate, o: Outcome)
    requires !req.retry
    modifies req
    ensures gateAfterLogin == RedirectToLogin
    ensures nav == Some("/dashboard")
    ensures gateAfterFetch == RenderChildren
    ensures o == Reject
  {
    var api := new ApiClient();
    var auth := new AuthProvider(api, map[]);
    var fetching := auth.Startup();
    var page := new LoginPage(auth);
    page.Submit(UserLogin(me.username, "password"));
    var first := page.OnSuccess(data);
    gateAfterLogin := RequireAuth(auth.loading, auth.user);
    nav := auth.FetchUserSettle(data.accessToken, Ok(me), "/login");
    gateAfterFetch := RequireAuth(auth.loading, auth.user);
    o := api.OnResponseError(req, Some(401), Some("renewed"));
  }
}
