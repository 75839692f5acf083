/** The signup page (frontend/src/pages/SignupPage.tsx): a four-field
    form edited one field at a time, client-side checks run before
    anything is sent, and a mutation that posts the signup and then asks
    for tokens, signing the session in only when both requests succeed.
    Toast texts are recorded in order; the answers of the two requests are
    parameters of the settle step. */
module SignupView {
  import opened Common
  import opened Schemas
  import opened Transport
  import opened Session
  import Crud
  import Handlers

  datatype SignupForm = SignupForm(username: string, email: string, password: string, confirmPassword: string)

  /** The names of the form's inputs. */
  datatype Field = Username | Email | Password | ConfirmPassword

  function FieldOf(f: SignupForm, field: Field): string {
    match field
    case Username => f.username
    case Email => f.email
    case Password => f.password
    case ConfirmPassword => f.confirmPassword
  }

  const EmptyForm := SignupForm("", "", "", "")

  /** `handleChange`: the named field takes the input's value, every other
      field keeps its own. */
  function WithField(f: SignupForm, field: Field, value: string): (r: SignupForm)
    ensures FieldOf(r, field) == value
    ensures forall g: Field :: g != field ==> FieldOf(r, g) == FieldOf(f, g)
  {
    match field
    case Username => f.(username := value)
    case Email => f.(email := value)
    case Password => f.(password := value)
    case ConfirmPassword => f.(confirmPassword := value)
  }

  const PasswordsDiffer := "Passwords do not match. Please try again."
  const PasswordTooShort := "Password must be at least 6 characters long."
  const SignupFailed := "Something went wrong. Please try again."
  const AccountCreated := "Account created successfully! Welcome aboard! You start with 100 credits"

  /** What `handleSubmit` does with the form. */
  datatype Decision = Blocked(message: string) | Send(payload: UserCreate)

  /** `handleSubmit`: a password that differs from its confirmation is
      refused first, then one shorter than six characters; otherwise the
      username, e-mail and password are sent without the confirmation. */
  function CheckSignup(f: SignupForm): (d: Decision)
    ensures d == Blocked(PasswordsDiffer) <==> f.password != f.confirmPassword
    ensures d == Blocked(PasswordTooShort) <==> f.password == f.confirmPassword && |f.password| < 6
    ensures d.Send? <==> f.password == f.confirmPassword && ValidPassword(f.password)
    ensures d.Send? ==> d.payload == UserCreate(f.username, f.email, f.password)
  {
    if f.password != f.confirmPassword then Blocked(PasswordsDiffer)
    else if |f.password| < 6 then Blocked(PasswordTooShort)
    else Send(UserCreate(f.username, f.email, f.password))
  }

  /** The client checks only the password: a two-letter username gets
      through them, and the server's schema then refuses it. */
  lemma ShortUsernamePassesClientChecks()
    ensures CheckSignup(SignupForm("ab", "ab@example.com", "secret", "secret")).Send?
    ensures !ValidUsername("ab")
  {
  }

  /** The server then rejects that body with one error object, and the
      page turns the list into the text "[object Object]". */
  lemma ShortUsernameShowsObjectText(isEmail: string -> bool)
    requires isEmail("ab@example.com")
    ensures var body := CheckSignup(SignupForm("ab", "ab@example.com", "secret", "secret")).payload;
            var e := Handlers.ValidationFailed(body, isEmail);
            DetailOr(ApiError(Some(e.status), e.detail), SignupFailed) == "[object Object]"
  {
  }

  /** A signup the server refuses with an unhandled exception (a taken
      username or e-mail) has no `detail`, so the page shows its fallback. */
  lemma ServerErrorShowsFallback()
    ensures DetailOr(ApiError(Some(Crud.ServerError.status), Crud.ServerError.detail), SignupFailed) == SignupFailed
  {
  }

  class SignupPage {
    const auth: AuthProvider
    var form: SignupForm
    var loading: bool
    /** The payloads posted to `/auth/signup`, in order. */
    var signups: seq<UserCreate>
    /** The messages shown to the user, in order. */
    var shown: seq<string>

    constructor (auth: AuthProvider)
      ensures this.auth == auth && form == EmptyForm && !loading
      ensures signups == [] && shown == []
    {
      this.auth := auth;
      form, loading, signups, shown := EmptyForm, false, [], [];
    }

    method HandleChange(field: Field, value: string)
      modifies this
      ensures form == WithField(old(form), field, value)
      ensures loading == old(loading) && signups == old(signups) && shown == old(shown)
    {
      form := WithField(form, field, value);
    }

    /** `handleSubmit`: a refused form shows its message and sends nothing;
        an accepted one raises `loading` and posts the signup. */
    method HandleSubmit() returns (sent: bool)
      modifies this
      ensures form == old(form)
      ensures sent <==> CheckSignup(old(form)).Send?
      ensures !sent ==> && shown == old(shown) + [CheckSignup(old(form)).message]
                        && signups == old(signups) && loading == old(loading)
      ensures sent ==> && signups == old(signups) + [CheckSignup(old(form)).payload]
                       && loading && shown == old(shown)
    {
      match CheckSignup(form) {
        case Blocked(message) =>
          shown := shown + [message];
          sent := false;
        case Send(payload) =>
          loading := true;
          signups := signups + [payload];
          sent := true;
      }
    }

    /** The end of the mutation. `signup` is the answer to the signup
        request and `token` the answer to the token request, which is made
        only after a successful signup. With both, the tokens are installed,
        the session signs in and the page navigates to `/dashboard`; the
        first failure instead shows its detail or the fallback and lowers
        `loading`, and the session is not touched. */
    method Settle(signup: Result<UserRead, ApiError>, token: Result<Token, ApiError>)
      returns (nav: Option<string>)
      modifies this, auth, auth.api
      ensures form == old(form) && signups == old(signups)
      ensures signup.Ok? && token.Ok? ==>
                && nav == Some("/dashboard")
                && shown == old(shown) + [AccountCreated] && loading == old(loading)
                && auth.token == Some(token.value.accessToken)
                && auth.storage == old(auth.storage)[TokenKey := token.value.accessToken]
                && auth.user == old(auth.user)
                && auth.api.authorization == BearerHeader(Some(token.value.accessToken))
                && auth.api.refreshToken == None
      ensures signup.Err? ==> && nav == None && !loading
                              && shown == old(shown) + [DetailOr(signup.error, SignupFailed)]
      ensures signup.Ok? && token.Err? ==> && nav == None && !loading
                                           && shown == old(shown) + [DetailOr(token.error, SignupFailed)]
      ensures !(signup.Ok? && token.Ok?) ==>
                && auth.token == old(auth.token) && auth.user == old(auth.user)
                && auth.storage == old(auth.storage)
                && auth.api.authorization == old(auth.api.authorization)
                && auth.api.refreshToken == old(auth.api.refreshToken)
      ensures auth.loading == old(auth.loading)
      ensures auth.api.renewals == old(auth.api.renewals) && auth.api.redirects == old(auth.api.redirects)
    {
      var answer: Result<Token, ApiError> := if signup.Err? then Err(signup.error) else token;
      match answer {
        case Ok(data) =>
          auth.api.SetAuthToken(Some(data.accessToken), Some(data.refreshToken));
          auth.Login(data.accessToken);
          shown := shown + [AccountCreated];
          nav := Some("/dashboard");
        case Err(e) =>
          shown := shown + [DetailOr(e, SignupFailed)];
          loading := false;
          nav := None;
      }
    }
  }
}
