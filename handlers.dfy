/** The HTTP handlers of the backend (backend/main.py) that do more than
    forward to one data-access call: signup, login, token refresh, job
    submission with its credit gate, adding credits and marking a
    notification read. Token signing and decoding, password hashing and
    e-mail syntax live in modules the model does not see and are
    parameters; the authenticated caller that `get_current_user` yields is
    given as a user id. */
module Handlers {
  import opened Common
  import opened Text
  import opened Models
  import opened Schemas
  import opened Crud
  import opened Tasks

  /** The two kinds of token the backend signs. */
  datatype TokenKind = Access | Refresh

  /** The claims of a decoded token that the refresh handler reads: its
      `type` and its `sub`. */
  datatype Claims = Claims(kind: Option<string>, sub: Option<string>)

  /** Pydantic's rejection of a signup body: a 422 whose detail lists one
      error object per failing field. */
  function ValidationFailed(body: UserCreate, isEmail: string -> bool): (e: HttpError)
    ensures e.status == 422 && e.detail.FieldErrors?
    ensures e.detail.count >= 1 <==> !ValidUserCreate(body, isEmail)
  {
    HttpError(422, FieldErrors(FailingFields(body, isEmail)))
  }

  /** `POST /auth/signup`: the body is validated first; a valid one is
      stored through `create_user` and echoed without the password. */
  method Signup(db: Store, body: UserCreate, isEmail: string -> bool, hash: string -> string)
    returns (r: Result<UserRead, HttpError>)
    requires db.Valid()
    modifies db
    ensures db.Valid()
    ensures !ValidUserCreate(body, isEmail) ==> r == Err(ValidationFailed(body, isEmail)) && db.users == old(db.users)
    ensures ValidUserCreate(body, isEmail) ==>
              (r.Ok? <==> !NameOrEmailTaken(old(db.users), body.username, body.email))
    ensures ValidUserCreate(body, isEmail) && r.Err? ==> r.error == ServerError
    ensures r.Ok? ==> && r.value == UserRead(|old(db.users)| + 1, body.username, body.email, InitialCredits)
                      && |db.users| == |old(db.users)| + 1
                      && db.users[|old(db.users)|].hashedPassword == hash(body.password)
    ensures r.Err? ==> db.users == old(db.users)
    ensures db.jobs == old(db.jobs) && db.notifications == old(db.notifications)
  {
    if !ValidUserCreate(body, isEmail) {
      return Err(ValidationFailed(body, isEmail));
    }
    var created := CreateUser(db, body.username, body.email, body.password, hash);
    match created
    case Ok(u) => r := Ok(ToUserRead(u));
    case Err(e) => r := Err(e);
  }

  const BadCredentials := HttpError(401, Message("Incorrect username or password"))

  /** `POST /auth/token`: a 401 unless the username exists and the password
      verifies; otherwise an access and a refresh token for that user and
      the type "bearer". */
  function Login(db: Store, body: UserLogin, verify: (string, string) -> bool,
                 sign: (TokenKind, string) -> string): (r: Result<Token, HttpError>)
    reads db
    requires db.Valid()
    ensures r.Err? <==> forall k :: 0 <= k < |db.users| && db.users[k].username == body.username ==>
                          !verify(body.password, db.users[k].hashedPassword)
    ensures r.Err? ==> r.error == BadCredentials
    ensures r.Ok? ==> r.value == Token(sign(Access, body.username), sign(Refresh, body.username), "bearer")
  {
    match AuthenticateUser(db, body.username, body.password, verify)
    case None => Err(BadCredentials)
    case Some(u) => Ok(Token(sign(Access, u.username), sign(Refresh, u.username), "bearer"))
  }

  const BadRefreshToken := HttpError(401, Message("Could not validate refresh token"))

  /** The username a refresh token names, when it decodes, is of type
      "refresh" and has a subject. */
  function RefreshSubject(claims: Option<Claims>): Option<string> {
    match claims
    case None => None
    case Some(c) => if c.kind != Some("refresh") then None else c.sub
  }

  /** `POST /auth/refresh`: a 401 when the token does not decode, is not a
      refresh token, has no subject, or names no user; otherwise a new
      access token for that user, with the same refresh token echoed. */
  function RefreshToken(db: Store, refreshToken: string, decode: string -> Option<Claims>,
                        sign: (TokenKind, string) -> string): (r: Result<Token, HttpError>)
    reads db
    ensures r.Ok? <==> && decode(refreshToken).Some?
                       && decode(refreshToken).value.kind == Some("refresh")
                       && decode(refreshToken).value.sub.Some?
                       && exists k :: 0 <= k < |db.users|
                                     && db.users[k].username == decode(refreshToken).value.sub.value
    ensures r.Err? ==> r.error == BadRefreshToken
    ensures r.Ok? ==> r.value == Token(sign(Access, decode(refreshToken).value.sub.value),
                                       refreshToken, "bearer")
  {
    match RefreshSubject(decode(refreshToken))
    case None => Err(BadRefreshToken)
    case Some(username) =>
      match FindByUsername(db.users, username)
      case None => Err(BadRefreshToken)
      case Some(k) => Ok(Token(sign(Access, db.users[k].username), refreshToken, "bearer"))
  }

  const MinimumCredits := 10
  const LowCredits := HttpError(400, Message("Credits are low. You will receive 100 credits next day."))

  function SubmittedMessage(jobNumber: int): string {
    "Your " + Ordinal(jobNumber) + " job was submitted! Credits will be deducted upon completion."
  }

  /** `POST /jobs/submit`: below 10 credits a 400 and nothing changes.
      Otherwise a pending job is created, its id is queued for the worker,
      and one "info" notification announces the job by the user's previous
      job count plus one (`Tasks.JobNumberOfNewJob`: the number the worker
      will give it). Credits are not touched. */
  method SubmitJob(db: Store, broker: Broker, userId: int, inputText: string)
    returns (r: Result<JobRead, HttpError>)
    requires db.Valid() && db.HasUser(userId)
    modifies db, broker
    ensures db.Valid()
    ensures db.users == old(db.users)
    ensures old(db.users[userId - 1]).credits < MinimumCredits ==>
              && r == Err(LowCredits)
              && db.jobs == old(db.jobs) && db.notifications == old(db.notifications)
              && broker.queued == old(broker.queued)
    ensures old(db.users[userId - 1]).credits >= MinimumCredits ==>
              var job := NewJob(|old(db.jobs)| + 1, userId, inputText, old(db.clock));
              var number := OwnedCount(old(db.jobs), userId) + 1;
              && r == Ok(ToJobRead(job))
              && db.jobs == old(db.jobs) + [job]
              && broker.queued == old(broker.queued) + [job.id]
              && db.notifications == old(db.notifications) + [NewNotification(
                   |old(db.notifications)| + 1, userId, "info", SubmittedMessage(number), old(db.clock) + 1)]
  {
    var user := db.users[userId - 1];
    if user.credits < MinimumCredits {
      return Err(LowCredits);
    }
    var count := OwnedCount(db.jobs, userId) + 1;
    var job := CreateJob(db, userId, inputText);
    broker.Delay(job.id);
    var notice := CreateNotification(db, userId, SubmittedMessage(count), "info");
    r := Ok(ToJobRead(job));
  }

  /** `POST /credits/add`: the caller's balance rises by the requested
      amount, whatever its sign, and the updated user is returned. */
  method AddUserCredits(db: Store, userId: int, body: CreditsAdd) returns (r: UserRead)
    requires db.Valid() && db.HasUser(userId)
    modifies db
    ensures db.Valid()
    ensures db.users == old(db.users)[userId - 1 := old(db.users[userId - 1])
                          .(credits := old(db.users[userId - 1].credits) + body.credits)]
    ensures r == ToUserRead(db.users[userId - 1])
    ensures r.id == userId && r.credits == old(db.users[userId - 1].credits) + body.credits
    ensures db.jobs == old(db.jobs) && db.notifications == old(db.notifications)
  {
    var u := AddCredits(db, userId, body.credits);
    r := ToUserRead(u);
  }

  /** `POST /notifications/{id}/read`: the caller's own notification
      becomes read and is returned; any other id is a 404. */
  method MarkAsRead(db: Store, notificationId: int, userId: int)
    returns (r: Result<NotificationRead, HttpError>)
    requires db.Valid()
    modifies db
    ensures db.Valid()
    ensures r.Err? <==> !OwnsNotification(old(db.notifications), notificationId, userId)
    ensures r.Err? ==> r.error == NotificationNotFound && db.notifications == old(db.notifications)
    ensures r.Ok? ==> && db.notifications == old(db.notifications)[notificationId - 1 :=
                           old(db.notifications[notificationId - 1]).(isRead := true)]
                      && r.value == ToNotificationRead(db.notifications[notificationId - 1])
                      && r.value.id == notificationId && r.value.isRead
    ensures db.users == old(db.users) && db.jobs == old(db.jobs)
  {
    var marked := MarkNotificationRead(db, notificationId, userId);
    match marked
    case Ok(n) => r := Ok(ToNotificationRead(n));
    case Err(e) => r := Err(e);
  }
}
