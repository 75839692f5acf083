/** The client session (frontend/src/App.tsx): `AuthProvider` holds the
    signed-in user, the access token and a loading flag, and keeps the
    token under the storage key "access_token"; `RequireAuth` decides what
    a protected route shows. Each `await` is a boundary: `fetchUser` is the
    synchronous part up to the `/auth/me` request (`FetchUserBegin`) and the
    part that runs when that request settles (`FetchUserSettle`), whose
    answer is a parameter. Navigation is returned as a value. */
module Session {
  import opened Common
  import opened Schemas
  import opened Transport

  const TokenKey := "access_token"

  /** The routes wrapped in `RequireAuth`; after a successful identity
      fetch the provider leaves the browser on one of them. */
  const ProtectedRoutes: seq<string> := ["/dashboard", "/profile", "/notifications", "/docs"]

  predicate IsProtected(path: string) {
    path in ProtectedRoutes
  }

  /** The user object the provider holds: the `/auth/me` body plus the
      token it was fetched with. */
  datatype SessionUser = SessionUser(identity: UserRead, token: string)

  /** What `RequireAuth` renders. */
  datatype Gate = Spinner | RedirectToLogin | RenderChildren

  /** `RequireAuth`: a spinner while loading; otherwise the children when
      a user is held, else a redirect to `/login`. */
  function RequireAuth(loading: bool, user: Option<SessionUser>): (g: Gate)
    ensures g == Spinner <==> loading
    ensures g == RedirectToLogin <==> !loading && user.None?
    ensures g == RenderChildren <==> !loading && user.Some?
  {
    if loading then Spinner else if user.None? then RedirectToLogin else RenderChildren
  }

  class AuthProvider {
    const api: ApiClient
    var user: Option<SessionUser>
    var token: Option<string>
    var loading: bool
    /** `localStorage`. */
    var storage: map<string, string>

    /** The initial state: no user, no token, loading. */
    constructor (api: ApiClient, storage: map<string, string>)
      ensures this.api == api && this.storage == storage
      ensures user == None && token == None && loading
    {
      this.api := api;
      this.storage := storage;
      user, token, loading := None, None, true;
    }

    /** The start of `fetchUser(jwt)`: the token is installed in the
        transport with no refresh token, then `/auth/me` is requested. */
    method FetchUserBegin(jwt: string)
      modifies api
      ensures api.authorization == BearerHeader(Some(jwt))
      ensures api.refreshToken == None
      ensures api.renewals == old(api.renewals) && api.redirects == old(api.redirects)
    {
      api.SetAuthToken(Some(jwt), None);
    }

    /** The rest of `fetchUser(jwt)` once `/auth/me` has answered. On an
        identity the user is set from it and the browser is sent to
        `/dashboard` unless it is already on a protected route. On an error
        the user, the token and both transport tokens are cleared, but the
        stored token is left in place. Loading ends either way. */
    method FetchUserSettle(jwt: string, me: Result<UserRead, ApiError>, path: string)
      returns (nav: Option<string>)
      modifies this, api
      ensures !loading && storage == old(storage)
      ensures me.Ok? ==> && user == Some(SessionUser(me.value, jwt))
                         && token == old(token)
                         && nav == (if IsProtected(path) then None else Some("/dashboard"))
                         && api.authorization == old(api.authorization)
                         && api.refreshToken == old(api.refreshToken)
      ensures me.Err? ==> && user == None && token == None && nav == None
                          && api.authorization == None && api.refreshToken == None
      ensures api.renewals == old(api.renewals) && api.redirects == old(api.redirects)
    {
      match me {
        case Ok(data) =>
          user := Some(SessionUser(data, jwt));
          nav := if IsProtected(path) then None else Some("/dashboard");
        case Err(_) =>
          user := None;
          token := None;
          api.SetAuthToken(None, None);
          nav := None;
      }
      loading := false;
    }

    /** The startup effect: with a stored token, hold it and start fetching
        the identity (the token being fetched is returned); with none, stop
        loading and fetch nothing. */
    method Startup() returns (fetching: Option<string>)
      modifies this, api
      ensures storage == old(storage) && user == old(user)
      ensures fetching.Some? <==> TokenKey in storage && storage[TokenKey] != ""
      ensures fetching.Some? ==> && fetching.value == storage[TokenKey]
                                 && token == fetching && loading == old(loading)
                                 && api.authorization == BearerHeader(fetching)
                                 && api.refreshToken == None
      ensures fetching.None? ==> && !loading && token == old(token)
                                 && api.authorization == old(api.authorization)
                                 && api.refreshToken == old(api.refreshToken)
      ensures api.renewals == old(api.renewals) && api.redirects == old(api.redirects)
    {
      var stored := if TokenKey in storage then Some(storage[TokenKey]) else None;
      if Truthy(stored) {
        token := stored;
        FetchUserBegin(stored.value);
        fetching := stored;
      } else {
        loading := false;
        fetching := None;
      }
    }

    /** `login({token})`: hold the token, store it, then start fetching the
        identity with it. */
    method Login(t: string)
      modifies this, api
      ensures token == Some(t) && storage == old(storage)[TokenKey := t]
      ensures user == old(user) && loading == old(loading)
      ensures api.authorization == BearerHeader(Some(t)) && api.refreshToken == None
      ensures api.renewals == old(api.renewals) && api.redirects == old(api.redirects)
    {
      token := Some(t);
      storage := storage[TokenKey := t];
      FetchUserBegin(t);
    }

    /** `logout()`: everything is cleared at once, with no request. */
    method Logout()
      modifies this, api
      ensures user == None && token == None && loading == old(loading)
      ensures storage == old(storage) - {TokenKey}
      ensures api.authorization == None && api.refreshToken == None
      ensures api.renewals == old(api.renewals) && api.redirects == old(api.redirects)
    {
      user := None;
      token := None;
      api.SetAuthToken(None, None);
      storage := storage - {TokenKey};
    }

    /** One run of the 60-second identity query, which is enabled only
        while a token is held. Success refreshes the user with the held
        token; any error, whatever its cause, clears the session and the
        stored token. Loading ends after the run. Returns whether the query
        ran. */
    method PeriodicCheck(me: Result<UserRead, ApiError>) returns (ran: bool)
      modifies this, api
      ensures ran <==> Truthy(old(token))
      ensures !ran ==> && user == old(user) && token == old(token) && loading == old(loading)
                       && storage == old(storage)
                       && api.authorization == old(api.authorization)
                       && api.refreshToken == old(api.refreshToken)
      ensures ran ==> !loading
      ensures ran && me.Ok? ==> && user == Some(SessionUser(me.value, old(token).value))
                                && token == old(token) && storage == old(storage)
                                && api.authorization == old(api.authorization)
                                && api.refreshToken == old(api.refreshToken)
      ensures ran && me.Err? ==> && user == None && token == None
                                 && storage == old(storage) - {TokenKey}
                                 && api.authorization == None && api.refreshToken == None
      ensures api.renewals == old(api.renewals) && api.redirects == old(api.redirects)
    {
      if !Truthy(token) {
        return false;
      }
      ran := true;
      match me {
        case Ok(data) =>
          user := Some(SessionUser(data, token.value));
        case Err(_) =>
          user := None;
          token := None;
          api.SetAuthToken(None, None);
          storage := storage - {TokenKey};
      }
      loading := false;
    }
  }
}
