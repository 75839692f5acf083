/** The persistent records of the backend (backend/models.py): users, jobs
    and notifications, with the defaults a new row receives. Timestamps are
    integers from the store's logical clock. */
module Models {
  import opened Common

  /** The lifecycle of a summarisation job. */
  datatype JobStatus = Pending | Processing | Completed | Failed

  /** The string value of each enum member, as stored and as sent to the
      client. */
  function StatusName(s: JobStatus): string {
    match s
    case Pending => "pending"
    case Processing => "processing"
    case Completed => "completed"
    case Failed => "failed"
  }

  function ParseStatus(name: string): (r: Option<JobStatus>)
    ensures r.Some? ==> StatusName(r.value) == name
  {
    if name == "pending" then Some(Pending)
    else if name == "processing" then Some(Processing)
    else if name == "completed" then Some(Completed)
    else if name == "failed" then Some(Failed)
    else None
  }

  /** The enum has exactly four values, and each round-trips through its
      string form. */
  lemma StatusNames(s: JobStatus)
    ensures ParseStatus(StatusName(s)) == Some(s)
    ensures StatusName(s) in {"pending", "processing", "completed", "failed"}
  {
  }

  const InitialCredits: int := 100

  datatype User = User(
    id: int,
    username: string,
    email: string,
    hashedPassword: string,
    credits: int)

  datatype Job = Job(
    id: int,
    userId: int,
    inputText: string,
    outputText: Option<string>,
    status: JobStatus,
    createdAt: int)

  /** `type` is a reserved word in Dafny, so the column is called `kind`. */
  datatype Notification = Notification(
    id: int,
    userId: int,
    kind: string,
    message: string,
    isRead: bool,
    createdAt: int)

  /** A new user row: the credit column defaults to 100. */
  function NewUser(id: int, username: string, email: string, hashedPassword: string): (u: User)
    ensures u.credits == InitialCredits
  {
    User(id, username, email, hashedPassword, InitialCredits)
  }

  /** A new job row: status defaults to pending, there is no output yet. */
  function NewJob(id: int, userId: int, inputText: string, now: int): (j: Job)
    ensures j.status == Pending && j.outputText == None
  {
    Job(id, userId, inputText, None, Pending, now)
  }

  /** A new notification row: unread by default; type and message are
      required columns, so both are given. */
  function NewNotification(id: int, userId: int, kind: string, message: string, now: int): (n: Notification)
    ensures !n.isRead
  {
    Notification(id, userId, kind, message, false, now)
  }
}
