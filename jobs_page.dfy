/** The jobs page (frontend/src/pages/JobsPage.tsx): submitting a text,
    the summary and error shown after the submission settles, the
    re-fetch of the job list after every submission, and what the history
    table and the form are given. The answer of `/jobs/submit` is a
    parameter of the settle step; the re-fetch itself is counted and the
    toasts are recorded. */
module JobsView {
  import opened Common
  import opened Schemas
  import opened Transport
  import Crud
  import Tasks
  import Handlers

  const StillProcessing := "Your job is processing. Check again soon."
  const SubmitFailed := "Failed to submit job."
  const Submitted := "Job submitted successfully!"

  /** The list the history table receives: the fetched jobs, or none
      before any data has arrived. */
  function HistoryJobs(data: Option<seq<JobRead>>): (jobs: seq<JobRead>)
    ensures data.Some? ==> jobs == data.value
    ensures data.None? ==> jobs == []
  {
    data.GetOr([])
  }

  /** The credits the form is given: the user's balance, with no user
      (and a zero balance) counting as zero. */
  function FormCredits(user: Option<UserRead>): (credits: int)
    ensures user.Some? ==> credits == user.value.credits
    ensures user.None? ==> credits == 0
  {
    if user.Some? && user.value.credits != 0 then user.value.credits else 0
  }

  /** A failed HTTP answer as the page receives it. */
  function AsApiError(e: Crud.HttpError): (a: ApiError)
    ensures a.status == Some(e.status) && a.detail == e.detail
  {
    ApiError(Some(e.status), e.detail)
  }

  class JobsPage {
    var summary: Option<string>
    var error: string
    /** The texts posted to `/jobs/submit`, in order. */
    var submitted: seq<string>
    /** How many times the job list has been re-fetched. */
    var refetches: nat
    /** The toasts shown to the user, in order. */
    var shown: seq<string>

    constructor ()
      ensures summary == None && error == "" && submitted == [] && refetches == 0 && shown == []
    {
      summary, error, submitted, refetches, shown := None, "", [], 0, [];
    }

    /** `handleSubmit`: an empty text sends nothing; otherwise the
        mutation starts, which clears the error and posts the text. */
    method HandleSubmit(inputText: string) returns (sent: bool)
      modifies this
      ensures sent <==> inputText != ""
      ensures !sent ==> && error == old(error) && submitted == old(submitted)
      ensures sent ==> && error == "" && submitted == old(submitted) + [inputText]
      ensures summary == old(summary) && refetches == old(refetches) && shown == old(shown)
    {
      if inputText == "" {
        return false;
      }
      error := "";
      submitted := submitted + [inputText];
      sent := true;
    }

    /** `onSuccess` or `onError`, then `onSettled`. On success the summary
        is the job's output when non-empty and nothing otherwise, and the
        processing notice is the error exactly when there is no such
        output, and a success toast is shown. On failure the error is the
        server's detail or the fallback, the same text is shown as a toast
        and the summary stays. The job list is re-fetched either way. */
    method Settle(answer: Result<JobRead, ApiError>)
      modifies this
      ensures refetches == old(refetches) + 1 && submitted == old(submitted)
      ensures answer.Ok? ==> && summary == (if Truthy(answer.value.outputText) then answer.value.outputText else None)
                             && (error == StillProcessing <==> !Truthy(answer.value.outputText))
                             && (error == "" <==> Truthy(answer.value.outputText))
                             && shown == old(shown) + [Submitted]
      ensures answer.Err? ==> && summary == old(summary)
                              && error == DetailOr(answer.error, SubmitFailed)
                              && shown == old(shown) + [error]
    {
      match answer {
        case Ok(data) =>
          summary := if Truthy(data.outputText) then data.outputText else None;
          error := "";
          if !Truthy(data.outputText) {
            error := StillProcessing;
          }
          shown := shown + [Submitted];
        case Err(e) =>
          error := DetailOr(e, SubmitFailed);
          shown := shown + [error];
      }
      refetches := refetches + 1;
    }
  }

  /** The page against the server: a submission the server accepts comes
      back pending with no output, so the page always shows the processing
      notice and no summary; one it refuses for low credits shows the
      server's message, as the error and as a toast. */
  method SubmitThroughServer(page: JobsPage, db: Crud.Store, broker: Tasks.Broker,
                             userId: int, inputText: string)
    requires db.Valid() && db.HasUser(userId) && inputText != ""
    modifies page, db, broker
    ensures db.Valid()
    ensures old(db.users[userId - 1]).credits >= Handlers.MinimumCredits ==>
              && page.error == StillProcessing && page.summary == None
              && page.shown == old(page.shown) + [Submitted]
    ensures old(db.users[userId - 1]).credits < Handlers.MinimumCredits ==>
              && page.error == Handlers.LowCredits.detail.text && page.summary == old(page.summary)
              && page.shown == old(page.shown) + [Handlers.LowCredits.detail.text]
    ensures page.refetches == old(page.refetches) + 1
  {
    var sent := page.HandleSubmit(inputText);
    var r := Handlers.SubmitJob(db, broker, userId, inputText);
    match r {
      case Ok(job) => page.Settle(Ok(job));
      case Err(e) => page.Settle(Err(AsApiError(e)));
    }
  }
}
