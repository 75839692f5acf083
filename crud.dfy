/** The database and the data-access operations of the backend
    (backend/crud.py). The three tables are sequences in insertion order;
    the auto-increment primary key of a row is its position plus one. The
    `created_at` default is a logical clock that increases on every insert,
    so "newest first" is well defined. Password verification lives in a
    module the model does not see and is a parameter. */
module Crud {
  import opened Common
  import opened Models
  import opened Schemas

  /** An HTTP error raised by the backend: status code and `detail`. */
  datatype HttpError = HttpError(status: int, detail: Detail)

  const NotificationNotFound := HttpError(404, Message("Notification not found"))

  /** An exception nothing handles: the server answers 500 with a
      plain-text body, which has no `detail` field. */
  const ServerError := HttpError(500, NoDetail)

  predicate UsersWellFormed(us: seq<User>) {
    && (forall i :: 0 <= i < |us| ==> us[i].id == i + 1)
    && (forall i, j :: 0 <= i < j < |us| ==>
          us[i].username != us[j].username && us[i].email != us[j].email)
  }

  predicate JobsWellFormed(js: seq<Job>, clock: int) {
    && (forall i :: 0 <= i < |js| ==> js[i].id == i + 1 && js[i].createdAt < clock)
    && (forall i, j :: 0 <= i < j < |js| ==> js[i].createdAt < js[j].createdAt)
  }

  predicate NotificationsWellFormed(ns: seq<Notification>, clock: int) {
    && (forall i :: 0 <= i < |ns| ==> ns[i].id == i + 1 && ns[i].createdAt < clock)
    && (forall i, j :: 0 <= i < j < |ns| ==> ns[i].createdAt < ns[j].createdAt)
  }

  class Store {
    var users: seq<User>
    var jobs: seq<Job>
    var notifications: seq<Notification>
    /** The timestamp the next inserted row receives. */
    var clock: int

    /** Primary keys are positions plus one, usernames and e-mails are
        unique, and rows are stamped in insertion order. */
    ghost predicate Valid()
      reads this
    {
      && UsersWellFormed(users)
      && JobsWellFormed(jobs, clock)
      && NotificationsWellFormed(notifications, clock)
    }

    constructor ()
      ensures Valid()
      ensures users == [] && jobs == [] && notifications == []
    {
      users, jobs, notifications, clock := [], [], [], 0;
    }

    predicate HasUser(id: int)
      reads this
    {
      1 <= id <= |users|
    }
  }

  /** The first user with this username, by position. */
  function FindByUsername(us: seq<User>, username: string): (r: Option<nat>)
    ensures r.Some? ==> r.value < |us| && us[r.value].username == username
    ensures r.Some? ==> forall k :: 0 <= k < r.value ==> us[k].username != username
    ensures r.None? ==> forall k :: 0 <= k < |us| ==> us[k].username != username
  {
    if us == [] then None
    else if us[0].username == username then Some(0)
    else
      match FindByUsername(us[1..], username)
      case Some(k) => Some(k + 1)
      case None => None
  }

  /** `authenticate_user`: the user with that username whose stored hash
      verifies the password, or nothing. */
  function AuthenticateUser(db: Store, username: string, password: string,
                            verify: (string, string) -> bool): (r: Option<User>)
    reads db
    requires db.Valid()
    ensures r.Some? ==> r.value in db.users && r.value.username == username
                        && verify(password, r.value.hashedPassword)
    ensures r.None? <==>
              forall k :: 0 <= k < |db.users| && db.users[k].username == username ==>
                !verify(password, db.users[k].hashedPassword)
  {
    match FindByUsername(db.users, username)
    case None => None
    case Some(k) =>
      var u := db.users[k];
      if verify(password, u.hashedPassword) then Some(u) else None
  }

  predicate NameOrEmailTaken(us: seq<User>, username: string, email: string) {
    exists k :: 0 <= k < |us| && (us[k].username == username || us[k].email == email)
  }

  /** `create_user`: a new row holding the password's hash and the
      default credits; a duplicate username or e-mail violates the unique
      constraints and the insert fails. Hashing lives in a module the model
      does not see and is a parameter. */
  method CreateUser(db: Store, username: string, email: string, password: string,
                    hash: string -> string)
    returns (r: Result<User, HttpError>)
    requires db.Valid()
    modifies db
    ensures db.Valid()
    ensures r.Err? <==> NameOrEmailTaken(old(db.users), username, email)
    ensures r.Err? ==> r.error == ServerError
    ensures r.Ok? ==> r.value == NewUser(|old(db.users)| + 1, username, email, hash(password))
                      && db.users == old(db.users) + [r.value]
    ensures r.Err? ==> db.users == old(db.users)
    ensures db.jobs == old(db.jobs) && db.notifications == old(db.notifications)
    ensures db.clock == old(db.clock)
  {
    if NameOrEmailTaken(db.users, username, email) {
      return Err(ServerError);
    }
    var u := NewUser(|db.users| + 1, username, email, hash(password));
    db.users := db.users + [u];
    r := Ok(u);
  }

  /** `add_credits`: the balance rises by exactly `credits` (no sign
      check); every other field and table is untouched. */
  method AddCredits(db: Store, userId: int, credits: int) returns (u: User)
    requires db.Valid() && db.HasUser(userId)
    modifies db
    ensures db.Valid()
    ensures u == old(db.users[userId - 1]).(credits := old(db.users[userId - 1].credits) + credits)
    ensures db.users == old(db.users)[userId - 1 := u]
    ensures db.jobs == old(db.jobs) && db.notifications == old(db.notifications)
    ensures db.clock == old(db.clock)
  {
    var k := userId - 1;
    u := db.users[k].(credits := db.users[k].credits + credits);
    db.users := db.users[k := u];
  }

  /** `create_job`: a pending job owned by the user, echoing the input. */
  method CreateJob(db: Store, userId: int, inputText: string) returns (j: Job)
    requires db.Valid()
    modifies db
    ensures db.Valid()
    ensures j == NewJob(|old(db.jobs)| + 1, userId, inputText, old(db.clock))
    ensures db.jobs == old(db.jobs) + [j]
    ensures db.users == old(db.users) && db.notifications == old(db.notifications)
    ensures db.clock == old(db.clock) + 1
  {
    j := NewJob(|db.jobs| + 1, userId, inputText, db.clock);
    db.jobs := db.jobs + [j];
    db.clock := db.clock + 1;
  }

  /** The row update `update_job_status` performs: the status is set, and
      the output is overwritten only by a non-empty text. */
  function WithStatus(j: Job, status: JobStatus, outputText: Option<string>): (r: Job)
    ensures r.status == status
    ensures r.outputText == if Truthy(outputText) then outputText else j.outputText
    ensures r.(status := j.status, outputText := j.outputText) == j
  {
    j.(status := status, outputText := if Truthy(outputText) then outputText else j.outputText)
  }

  predicate HasJob(js: seq<Job>, jobId: int) {
    1 <= jobId <= |js|
  }

  /** `update_job_status`: an unknown id yields nothing and changes
      nothing; otherwise that one row is updated. */
  method UpdateJobStatus(db: Store, jobId: int, status: JobStatus, outputText: Option<string>)
    returns (r: Option<Job>)
    requires db.Valid()
    modifies db
    ensures db.Valid()
    ensures !HasJob(old(db.jobs), jobId) ==> r.None? && db.jobs == old(db.jobs)
    ensures HasJob(old(db.jobs), jobId) ==>
              && db.jobs == old(db.jobs)[jobId - 1 := WithStatus(old(db.jobs[jobId - 1]), status, outputText)]
              && r == Some(db.jobs[jobId - 1])
    ensures db.users == old(db.users) && db.notifications == old(db.notifications)
    ensures db.clock == old(db.clock)
  {
    if !HasJob(db.jobs, jobId) {
      return None;
    }
    var k := jobId - 1;
    var j := WithStatus(db.jobs[k], status, outputText);
    db.jobs := db.jobs[k := j];
    r := Some(j);
  }

  /** The rows that satisfy `keep`, newest first. For rows stamped in
      insertion order this is the ORDER BY created_at DESC of the query. */
  function NewestFirst<T(!new)>(rows: seq<T>, keep: T -> bool, created: T -> int): (r: seq<T>)
    requires forall i, j :: 0 <= i < j < |rows| ==> created(rows[i]) < created(rows[j])
    ensures forall x :: x in r <==> x in rows && keep(x)
    ensures forall a, b :: 0 <= a < b < |r| ==> created(r[a]) > created(r[b])
    ensures |r| <= |rows|
  {
    if rows == [] then []
    else
      var last := rows[|rows| - 1];
      var prefix := rows[..|rows| - 1];
      assert forall x :: x in rows <==> x in prefix || x == last by {
        assert rows == prefix + [last];
      }
      var rest := NewestFirst(prefix, keep, created);
      assert forall x :: x in prefix ==> created(x) < created(last);
      if keep(last) then [last] + rest else rest
  }

  /** `get_jobs_for_user`: exactly that user's jobs, newest first. */
  function GetJobsForUser(db: Store, userId: int): (r: seq<Job>)
    reads db
    requires db.Valid()
    ensures forall j :: j in r <==> j in db.jobs && j.userId == userId
    ensures forall a, b :: 0 <= a < b < |r| ==> r[a].createdAt > r[b].createdAt
  {
    NewestFirst(db.jobs, (j: Job) => j.userId == userId, (j: Job) => j.createdAt)
  }

  /** `create_notification`: a new unread notification for the user. */
  method CreateNotification(db: Store, userId: int, message: string, kind: string)
    returns (n: Notification)
    requires db.Valid()
    modifies db
    ensures db.Valid()
    ensures n == NewNotification(|old(db.notifications)| + 1, userId, kind, message, old(db.clock))
    ensures db.notifications == old(db.notifications) + [n]
    ensures db.users == old(db.users) && db.jobs == old(db.jobs)
    ensures db.clock == old(db.clock) + 1
  {
    n := NewNotification(|db.notifications| + 1, userId, kind, message, db.clock);
    db.notifications := db.notifications + [n];
    db.clock := db.clock + 1;
  }

  /** `get_notifications_for_user`: exactly that user's notifications,
      newest first. */
  function GetNotificationsForUser(db: Store, userId: int): (r: seq<Notification>)
    reads db
    requires db.Valid()
    ensures forall n :: n in r <==> n in db.notifications && n.userId == userId
    ensures forall a, b :: 0 <= a < b < |r| ==> r[a].createdAt > r[b].createdAt
  {
    NewestFirst(db.notifications, (n: Notification) => n.userId == userId,
                (n: Notification) => n.createdAt)
  }

  predicate OwnsNotification(ns: seq<Notification>, notificationId: int, userId: int) {
    1 <= notificationId <= |ns| && ns[notificationId - 1].userId == userId
  }

  /** `mark_notification_read`, with the 404 the code means to raise: a
      missing id, or one that belongs to another user, is "not found";
      otherwise the notification becomes read and nothing else changes. */
  method MarkNotificationRead(db: Store, notificationId: int, userId: int)
    returns (r: Result<Notification, HttpError>)
    requires db.Valid()
    modifies db
    ensures db.Valid()
    ensures !OwnsNotification(old(db.notifications), notificationId, userId) ==>
              r == Err(NotificationNotFound) && db.notifications == old(db.notifications)
    ensures OwnsNotification(old(db.notifications), notificationId, userId) ==>
              && db.notifications == old(db.notifications)[notificationId - 1 :=
                   old(db.notifications[notificationId - 1]).(isRead := true)]
              && r == Ok(db.notifications[notificationId - 1])
    ensures db.users == old(db.users) && db.jobs == old(db.jobs) && db.clock == old(db.clock)
  {
    if !OwnsNotification(db.notifications, notificationId, userId) {
      return Err(NotificationNotFound);
    }
    var k := notificationId - 1;
    var n := db.notifications[k].(isRead := true);
    db.notifications := db.notifications[k := n];
    r := Ok(n);
  }

  /** `mark_notification_read` as written: `HTTPException` is not imported
      in crud.py, so the "not found" branch raises a NameError and the
      request ends in a 500 instead of the 404. */
  method MarkNotificationReadAsWritten(db: Store, notificationId: int, userId: int)
    returns (r: Result<Notification, HttpError>)
    requires db.Valid()
    modifies db
    ensures db.Valid()
    ensures !OwnsNotification(old(db.notifications), notificationId, userId) ==>
              r == Err(ServerError)
              && db.notifications == old(db.notifications)
    ensures OwnsNotification(old(db.notifications), notificationId, userId) ==>
              r.Ok? && r.value.isRead
    ensures db.users == old(db.users) && db.jobs == old(db.jobs) && db.clock == old(db.clock)
  {
    r := MarkNotificationRead(db, notificationId, userId);
    if r.Err? {
      r := Err(ServerError);
    }
  }

  /** Marking twice: the second call succeeds as well, the notification
      stays read, and the table is the same as after the first call. */
  method MarkNotificationReadTwice(db: Store, notificationId: int, userId: int)
    returns (first: Result<Notification, HttpError>, second: Result<Notification, HttpError>)
    requires db.Valid()
    modifies db
    ensures first.Ok? <==> OwnsNotification(old(db.notifications), notificationId, userId)
    ensures first.Ok? <==> second.Ok?
    ensures second.Ok? ==> second.value == first.value && second.value.isRead
    ensures first.Ok? ==> db.notifications == old(db.notifications)[notificationId - 1 := first.value]
  {
    first := MarkNotificationRead(db, notificationId, userId);
    ghost var afterFirst := db.notifications;
    second := MarkNotificationRead(db, notificationId, userId);
    assert first.Ok? ==> db.notifications == afterFirst;
  }
}
