/** The notifications page (frontend/src/pages/NotificationsPage.tsx): the
    mark-as-read mutation and what it does when it settles, and the
    condition for the empty-state text. The answer of the mark request is
    a parameter of the settle step; posts, re-fetches and toast texts are
    recorded. */
module NotificationsView {
  import opened Common
  import opened Text
  import opened Schemas
  import opened Transport
  import Crud
  import Handlers

  const Marked := "Notification marked as read successfully."
  const MarkFailed := "Failed to mark notification as read. Please try again."

  /** A POST as the page issues it: a path and a JSON body of string
      fields. */
  datatype Post = Post(path: string, body: map<string, string>)

  function ReadPath(notificationId: int): string {
    "/notifications/" + IntToString(notificationId) + "/read"
  }

  /** The empty-state text: shown when the list is not loading and there
      is no list or an empty one. */
  function ShowsEmptyState(isLoading: bool, data: Option<seq<NotificationRead>>): (shows: bool)
    ensures shows <==> !isLoading && (data.None? || |data.value| == 0)
    ensures shows ==> data.GetOr([]) == []
  {
    !isLoading && (data.None? || |data.value| == 0)
  }

  class NotificationsPage {
    var posts: seq<Post>
    /** How many times the list has been re-fetched. */
    var refetches: nat
    /** The messages shown to the user, in order. */
    var shown: seq<string>

    constructor ()
      ensures posts == [] && refetches == 0 && shown == []
    {
      posts, refetches, shown := [], 0, [];
    }

    /** A click on an item's button: the id goes into the path and the
        body is empty. */
    method MarkAsRead(notificationId: int)
      modifies this
      ensures posts == old(posts) + [Post(ReadPath(notificationId), map[])]
      ensures refetches == old(refetches) && shown == old(shown)
    {
      posts := posts + [Post(ReadPath(notificationId), map[])];
    }

    /** A successful mark is announced and re-fetches the list; a failed
        one shows the server's detail or the fallback and re-fetches
        nothing. */
    method Settle(answer: Result<NotificationRead, ApiError>)
      modifies this
      ensures posts == old(posts)
      ensures answer.Ok? ==> refetches == old(refetches) + 1 && shown == old(shown) + [Marked]
      ensures answer.Err? ==> && refetches == old(refetches)
                              && shown == old(shown) + [DetailOr(answer.error, MarkFailed)]
    {
      match answer {
        case Ok(_) =>
          shown := shown + [Marked];
          refetches := refetches + 1;
        case Err(e) =>
          shown := shown + [DetailOr(e, MarkFailed)];
      }
    }
  }

  /** Marking one of one's own notifications twice against the server:
      both requests succeed, so the page never shows a failure and
      re-fetches twice. */
  method MarkTwiceThroughServer(page: NotificationsPage, db: Crud.Store, notificationId: int, userId: int)
    requires db.Valid() && Crud.OwnsNotification(db.notifications, notificationId, userId)
    modifies page, db
    ensures db.Valid()
    ensures page.refetches == old(page.refetches) + 2
    ensures page.shown == old(page.shown) + [Marked, Marked]
    ensures |page.posts| == |old(page.posts)| + 2
  {
    page.MarkAsRead(notificationId);
    var first := Handlers.MarkAsRead(db, notificationId, userId);
    assert first.Ok?;
    page.Settle(Ok(first.value));
    page.MarkAsRead(notificationId);
    var second := Handlers.MarkAsRead(db, notificationId, userId);
    assert second.Ok?;
    page.Settle(Ok(second.value));
  }
}
