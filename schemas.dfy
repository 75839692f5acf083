/** The request and response shapes of the HTTP API (backend/schemas.py)
    and the field constraints the server validates. E-mail syntax is checked
    by a library the model does not see, so it is a parameter. */
module Schemas {
  import opened Common
  import opened Models

  /** `UserBase.username`: between 3 and 50 characters. */
  predicate ValidUsername(username: string) {
    3 <= |username| <= 50
  }

  /** `UserCreate.password`: at least 6 characters. */
  predicate ValidPassword(password: string) {
    |password| >= 6
  }

  datatype UserCreate = UserCreate(username: string, email: string, password: string)

  /** A signup body is accepted exactly when all three field rules hold. */
  predicate ValidUserCreate(body: UserCreate, isEmail: string -> bool) {
    ValidUsername(body.username) && isEmail(body.email) && ValidPassword(body.password)
  }

  /** How many of the three field rules a signup body breaks: Pydantic
      reports one error object per failing field. */
  function FailingFields(body: UserCreate, isEmail: string -> bool): (n: nat)
    ensures n <= 3
    ensures n == 0 <==> ValidUserCreate(body, isEmail)
  {
    (if ValidUsername(body.username) then 0 else 1)
    + (if isEmail(body.email) then 0 else 1)
    + (if ValidPassword(body.password) then 0 else 1)
  }

  /** The `detail` field of an error response: a message, as
      `HTTPException` sends it; a list of error objects, one per failing
      field, as a failed validation sends it; or nothing, as with the
      plain-text body of an unhandled exception. */
  datatype Detail = Message(text: string) | FieldErrors(count: nat) | NoDetail

  datatype UserLogin = UserLogin(username: string, password: string)

  /** The token response: all three fields are required. */
  datatype Token = Token(accessToken: string, refreshToken: string, tokenType: string)

  /** The credit-adding body: any integer, negative included. */
  datatype CreditsAdd = CreditsAdd(credits: int)

  datatype UserRead = UserRead(id: int, username: string, email: string, credits: int)

  datatype JobRead = JobRead(
    id: int,
    inputText: string,
    outputText: Option<string>,
    status: JobStatus,
    createdAt: int)

  datatype NotificationRead = NotificationRead(
    id: int,
    kind: string,
    message: string,
    isRead: bool,
    createdAt: int)

  /** The public view of a user: the stored password hash is not exposed. */
  function ToUserRead(u: User): UserRead
  {
    UserRead(u.id, u.username, u.email, u.credits)
  }

  function ToJobRead(j: Job): JobRead
  {
    JobRead(j.id, j.inputText, j.outputText, j.status, j.createdAt)
  }

  function ToNotificationRead(n: Notification): NotificationRead
  {
    NotificationRead(n.id, n.kind, n.message, n.isRead, n.createdAt)
  }
}
