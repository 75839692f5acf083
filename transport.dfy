/** The client's credential transport (frontend/src/lib/api.ts): one HTTP
    client whose default `Authorization` header and module-level refresh
    token are set together by `setAuthToken`, and a response interceptor
    that answers a 401 by renewing the access token once per request. The
    renewal POST and the browser location are outside the model: the
    renewal's answer is a parameter, and the refresh tokens sent and the
    locations assigned are recorded in order. */
module Transport {
  import opened Common
  import opened Schemas

  /** A failed response as the pages see it: the HTTP status when there
      was a response, and the `detail` field of its body (`NoDetail` when
      there was no response or the body had no such field). */
  datatype ApiError = ApiError(status: Option<int>, detail: Detail)

  /** JavaScript truthiness of the `detail` value: a non-empty string or
      any array. */
  predicate DetailTruthy(d: Detail) {
    match d
    case Message(text) => text != ""
    case FieldErrors(_) => true
    case NoDetail => false
  }

  /** `String(a)` of an array of `count` plain objects: each becomes
      "[object Object]", joined by commas. */
  function ObjectList(count: nat): (s: string)
    ensures count == 0 <==> s == ""
    ensures |s| == if count == 0 then 0 else 16 * count - 1
  {
    if count == 0 then ""
    else if count == 1 then "[object Object]"
    else "[object Object]," + ObjectList(count - 1)
  }

  /** The text a page shows for a failed request, `${detail || fallback}`:
      the server's message when it is a non-empty string, the string form
      of the error list when the detail is a list, and the page's own
      fallback otherwise. */
  function DetailOr(e: ApiError, fallback: string): (m: string)
    ensures e.detail.Message? && e.detail.text != "" ==> m == e.detail.text
    ensures e.detail.FieldErrors? ==> m == ObjectList(e.detail.count)
    ensures !DetailTruthy(e.detail) ==> m == fallback
  {
    match e.detail
    case Message(text) => if text != "" then text else fallback
    case FieldErrors(count) => ObjectList(count)
    case NoDetail => fallback
  }

  /** How the interceptor ends: the promise rejects with the original
      error, or the request is sent again. */
  datatype Outcome = Reject | Resend

  /** The `Authorization` header value for a token: `Bearer <token>` for a
      non-empty token, no header otherwise. */
  function BearerHeader(token: Option<string>): (h: Option<string>)
    ensures h.Some? <==> Truthy(token)
    ensures h.Some? ==> h.value == "Bearer " + token.value && |h.value| > 7
  {
    if Truthy(token) then Some("Bearer " + token.value) else None
  }

  /** The renewal guard: a 401, on a request not yet retried, with a
      refresh token held. */
  predicate Renews(status: Option<int>, retried: bool, refreshToken: Option<string>) {
    status == Some(401) && !retried && Truthy(refreshToken)
  }

  /** The axios request config the interceptor receives back with an
      error. */
  class Request {
    /** `_retry`: set once the request has been through a renewal. */
    var retry: bool
    /** The request's own `Authorization` header. */
    var authorization: Option<string>

    constructor (authorization: Option<string>)
      ensures !retry && this.authorization == authorization
    {
      retry := false;
      this.authorization := authorization;
    }
  }

  class ApiClient {
    /** `api.defaults.headers.common["Authorization"]`. */
    var authorization: Option<string>
    /** The module variable `refreshToken`. */
    var refreshToken: Option<string>
    /** The refresh tokens posted to `/auth/refresh`, in order. */
    var renewals: seq<string>
    /** The values assigned to `window.location.href`, in order. */
    var redirects: seq<string>

    constructor ()
      ensures authorization == None && refreshToken == None
      ensures renewals == [] && redirects == []
    {
      authorization, refreshToken := None, None;
      renewals, redirects := [], [];
    }

    /** `setAuthToken(token, refresh = null)`: sets or deletes the default
        header and overwrites the refresh token, even when the caller
        passes only the access token. */
    method SetAuthToken(token: Option<string>, refresh: Option<string>)
      modifies this
      ensures authorization == BearerHeader(token)
      ensures refreshToken == refresh
      ensures renewals == old(renewals) && redirects == old(redirects)
    {
      authorization := BearerHeader(token);
      refreshToken := refresh;
    }

    /** The error branch of the response interceptor. `renewal` is what
        the POST to `/auth/refresh` yields: the new access token, or
        nothing when that request fails. Outside the guard the error is
        rejected and nothing changes. Inside it the request is marked
        retried before renewing; a renewal installs the new token as both
        the default and the request's header, keeps the refresh token and
        re-sends; a failed renewal clears both tokens, sends the browser to
        `/login` and still rejects. */
    method OnResponseError(req: Request, status: Option<int>, renewal: Option<string>)
      returns (o: Outcome)
      modifies this, req
      ensures !Renews(status, old(req.retry), old(refreshToken)) ==>
                && o == Reject
                && authorization == old(authorization) && refreshToken == old(refreshToken)
                && renewals == old(renewals) && redirects == old(redirects)
                && req.retry == old(req.retry) && req.authorization == old(req.authorization)
      ensures Renews(status, old(req.retry), old(refreshToken)) ==>
                && req.retry
                && renewals == old(renewals) + [old(refreshToken).value]
      ensures Renews(status, old(req.retry), old(refreshToken)) && renewal.Some? ==>
                && o == Resend
                && authorization == BearerHeader(renewal)
                && refreshToken == old(refreshToken)
                && req.authorization == Some("Bearer " + renewal.value)
                && redirects == old(redirects)
      ensures Renews(status, old(req.retry), old(refreshToken)) && renewal.None? ==>
                && o == Reject
                && authorization == None && refreshToken == None
                && redirects == old(redirects) + ["/login"]
                && req.authorization == old(req.authorization)
    {
      if !Renews(status, req.retry, refreshToken) {
        return Reject;
      }
      req.retry := true;
      renewals := renewals + [refreshToken.value];
      match renewal
      case Some(access) =>
        SetAuthToken(Some(access), refreshToken);
        req.authorization := Some("Bearer " + access);
        o := Resend;
      case None =>
        SetAuthToken(None, None);
        redirects := redirects + ["/login"];
        o := Reject;
    }

    /** A request answered 401 twice: the first 401 renews and re-sends,
        the second is rejected with no further renewal, so exactly one
        renewal is posted for that request. */
    method UnauthorizedTwice(req: Request, renewed: string) returns (first: Outcome, second: Outcome)
      requires !req.retry && Truthy(refreshToken)
      modifies this, req
      ensures first == Resend && second == Reject
      ensures renewals == old(renewals) + [old(refreshToken).value]
      ensures authorization == BearerHeader(Some(renewed)) && refreshToken == old(refreshToken)
      ensures redirects == old(redirects)
    {
      first := OnResponseError(req, Some(401), Some(renewed));
      second := OnResponseError(req, Some(401), Some(renewed));
    }
  }
}
