# AI Service Lab: session, store and job pipeline in Dafny

AI Service Lab is a text-summarisation service. A FastAPI backend keeps users, jobs and notifications. A Celery worker summarises each submitted job, deducts credits and notifies the user. A React client signs users in, renews access tokens and shows jobs and notifications.

This project models the parts of that system whose behaviour can be stated and checked:

- **Client transport** (`transport.dfy`, module `Transport`). The axios client's `Authorization` header and the module-level refresh token, both set by `setAuthToken`. The 401 interceptor, which renews a request's token at most once and clears everything when renewal fails.
- **Client session** (`session.dfy`, module `Session`). `AuthProvider` with `user`, `token`, `loading` and local storage. Its operations: login, logout, the identity fetch split at its `await`, the startup effect and the 60-second re-check. `RequireAuth`'s three-way decision.
- **Pages** (`login_page.dfy`, `signup_page.dfy`, `jobs_page.dfy`, `notifications_page.dfy`). The state each page changes when a request starts and when it settles. The texts of the toasts that follow a mutation are recorded as a sequence of shown messages. Navigation is returned as a value.
- **Components** (`job_submission_form.dfy`, `job_history_table.dfy`, `notification_item.dfy`). The enable and label rules, the table rows and their cells, the date rewrite and the mark-as-read button, as pure functions.
- **Backend records and schemas** (`models.dfy`, `schemas.dfy`). The job status enum, the row defaults, the field constraints and the response shapes.
- **Backend data access** (`crud.dfy`, module `Crud`). A `Store` class:
  - three tables held as sequences, whose primary key is the position plus one;
  - a logical clock that stamps `created_at`;
  - an invariant `Valid()`: keys are dense, usernames and e-mails are unique, rows are stamped in insertion order;
  - every `crud.py` operation as a method or a query function.
- **Handlers** (`handlers.dfy`, module `Handlers`). Signup, login, refresh, submission with its 10-credit gate, adding credits and marking a notification read.
- **Worker** (`tasks.dfy`, module `Tasks`). `process_job` as a specification function `ProcessEffect` over the tables, and a method proved equal to it. The extractive-summary check over `". "`-separated sentence sets. The per-user job number. The daily credit reset loop. The ordinal suffix.

Shared pieces:

- `common.dfy`: `Option`, `Result`, and JavaScript/Python truthiness of a nullable string.
- `text.dfy`: Python's `split` and `strip` and integer rendering, with the round-trip lemmas the date rewrite needs and the decimal value of a rendered number.
- `schemas.dfy` also holds the shape of an error body's `detail` as the server sends it: a message from `HTTPException`, a list with one error object per failing field from a failed validation, or no `detail` at all in the plain-text body of an unhandled exception. The client shows `${detail || fallback}`, so a list appears as "[object Object]" (`Transport.DetailOr`).

Code outside the model becomes a parameter:

- the summariser's answer (`SummaryOutcome`);
- password hashing and verification;
- JWT signing and decoding;
- e-mail syntax;
- `deduct_credits`;
- the answers of HTTP requests as the client sees them.

Where the source and its design intent differ, the model follows the source, with one exception: for the two defects listed under "## Findings", `Tasks.ProcessJob`, `Crud.MarkNotificationRead` and `Handlers.MarkAsRead` follow the intended behaviour, and `Tasks.ProcessJobAsWritten` and `Crud.MarkNotificationReadAsWritten` model the code as written. Elsewhere:

- A failed renewal assigns `window.location.href = "/login"` inside the transport (`ApiClient.OnResponseError`).
- Any error of the periodic identity check logs the user out, whatever its cause (`AuthProvider.PeriodicCheck`).
- Concurrent 401s are not shared through a single renewal. The model is sequential and has no such mechanism.
- `/auth/refresh` returns all three token fields, the same refresh token included.
- Right after a login `RequireAuth` redirects to `/login`: `loading` has already been lowered and the identity has not arrived yet. The provider sends the browser back to `/dashboard` once it arrives (`LoginView.LoginFromColdStart`).
- `fetchUser` calls `setAuthToken(jwt)` with one argument, so the identity fetch that follows every login also drops the refresh token that the login page has just stored. The model reproduces this: after login or signup, `api.refreshToken` is `None`, and a later 401 is rejected without any renewal.
- `/credits/add` returns the updated user record.
- The docstring of `get_user_job_number` (`backend/celery_config.py:59`) speaks of completed jobs, but its query counts every job of the user with an id up to the given one, whatever its status. The model follows the query (`Tasks.OwnedUpTo`, `Tasks.JobNumberIgnoresStatus`).
- A duplicate username or e-mail makes the insert fail with an exception nothing handles, so signup answers 500 with a plain-text body (`Crud.CreateUser`).

## Model

| member | source | states |
|---|---|---|
| Transport.BearerHeader | frontend/src/lib/api.ts:14-18 | a header exists exactly for a non-empty token, and it is `"Bearer " + token` |
| Transport.ApiClient.SetAuthToken | frontend/src/lib/api.ts:9-20 | sets or removes the default header, and always overwrites the refresh token, with null when only the access token is passed |
| Transport.ApiClient.OnResponseError | frontend/src/lib/api.ts:22-49 | outside the guard (a 401, not yet retried, a refresh token held) the error is rejected and nothing changes; inside it the request is marked retried and the refresh token is posted once; on renewal the new token becomes both the default and the request's header, the refresh token is kept and the request is re-sent; on failure both tokens are cleared, `/login` is assigned and the error is still rejected |
| Transport.ApiClient.UnauthorizedTwice | frontend/src/lib/api.ts:26-40 | a request answered 401 twice is re-sent once and then rejected, with exactly one renewal posted |
| Transport.DetailOr | frontend/src/pages/SignupPage.tsx:55-58 | the server's `detail` when it is a non-empty string; "[object Object]" once per error object, comma-separated, when it is a list; otherwise the page's fallback text |
| Transport.ObjectList | frontend/src/pages/SignupPage.tsx:58 | the string form of a list of plain objects: empty exactly for no objects, 16 characters per object less one comma |
| Session.RequireAuth | frontend/src/App.tsx:142-158 | spinner exactly while loading; redirect exactly when not loading and there is no user; children exactly when not loading and there is a user |
| Session.AuthProvider.constructor | frontend/src/App.tsx:41-43 | starts with no user, no token and loading |
| Session.AuthProvider.FetchUserBegin | frontend/src/App.tsx:53-54 | installs the token as the header and resets the refresh token to none |
| Session.AuthProvider.FetchUserSettle | frontend/src/App.tsx:55-73 | an identity sets the user to the response plus the token and navigates to `/dashboard` only off the protected routes; an error clears user, token and both transport tokens but keeps the stored key; loading ends either way |
| Session.AuthProvider.Startup | frontend/src/App.tsx:89-97 | a non-empty stored token is held and fetched with; without one, loading ends and nothing is fetched |
| Session.AuthProvider.Login | frontend/src/App.tsx:76-80 | holds the token, stores it under `access_token`, then starts the identity fetch, which leaves no refresh token |
| Session.AuthProvider.Logout | frontend/src/App.tsx:82-87 | clears user, token, both transport tokens and the stored key, with no request |
| Session.AuthProvider.PeriodicCheck | frontend/src/App.tsx:99-127 | runs only while a non-empty token is held; success refreshes the user; any error clears user, token, transport tokens and the stored key; loading is false after a run |
| LoginView.SubmitButton | frontend/src/pages/LoginPage.tsx:78-79 | disabled exactly while loading, with the loading caption |
| LoginView.LoginPage.Submit | frontend/src/pages/LoginPage.tsx:18-21 | raises loading and posts the form |
| LoginView.LoginPage.OnSuccess | frontend/src/pages/LoginPage.tsx:24-29 | installs both tokens, then logs in with the access token, then navigates to `/dashboard`; the session ends up holding the access token with no refresh token, and loading stays raised |
| LoginView.LoginPage.OnError | frontend/src/pages/LoginPage.tsx:30-34 | shows the detail or "Login failed." and lowers loading |
| LoginView.LoginFromColdStart | frontend/src/App.tsx:54-95 | after a cold start with nothing stored and a successful login, a protected route redirects until the identity arrives and then renders; the next 401 is rejected without renewal |
| SignupView.WithField | frontend/src/pages/SignupPage.tsx:72-77 | the named field takes the new value and every other field keeps its own |
| SignupView.CheckSignup | frontend/src/pages/SignupPage.tsx:79-115 | a mismatched confirmation is refused first, then a password under 6 characters; a form is sent exactly when both checks pass, and only username, e-mail and password are sent |
| SignupView.ShortUsernamePassesClientChecks | frontend/src/pages/SignupPage.tsx:83-108 | a two-letter username passes the client's checks, although the server's schema rejects it |
| SignupView.ShortUsernameShowsObjectText | frontend/src/pages/SignupPage.tsx:54-58 | the server's 422 for that username alone carries one error object, and the page shows it as "[object Object]" |
| SignupView.ServerErrorShowsFallback | frontend/src/pages/SignupPage.tsx:54-58 | the 500 a duplicate signup gets has no `detail`, so the page shows "Something went wrong. Please try again." |
| SignupView.SignupPage.HandleChange | frontend/src/pages/SignupPage.tsx:72-77 | the form becomes `WithField` of the old form |
| SignupView.SignupPage.HandleSubmit | frontend/src/pages/SignupPage.tsx:79-115 | a refused form shows its message and sends nothing; an accepted one raises loading and posts the payload |
| SignupView.SignupPage.Settle | frontend/src/pages/SignupPage.tsx:26-69 | tokens are stored, login is called and the page navigates only when both the signup and the token request succeed; the first failure shows its detail or the fallback, lowers loading and leaves the session alone |
| JobsView.HistoryJobs | frontend/src/pages/JobsPage.tsx:109-112 | the table gets the fetched list, or an empty list without data |
| JobsView.FormCredits | frontend/src/pages/JobsPage.tsx:93 | the form gets the user's balance, or 0 without a user |
| JobsView.JobsPage.HandleSubmit | frontend/src/pages/JobsPage.tsx:71-77 | empty input sends nothing; otherwise the error is cleared and the text posted |
| JobsView.JobsPage.Settle | frontend/src/pages/JobsPage.tsx:51-68 | on success the summary is the non-empty output or nothing, the processing notice is the error exactly when there is no output, and "Job submitted successfully!" is shown; on failure the error is the detail or "Failed to submit job." and the same text is shown; the list is re-fetched either way |
| JobsView.SubmitThroughServer | backend/main.py:98-116 | against the server, an accepted submission always shows the processing notice and no summary, because a new job has no output, and the success toast; one refused for low credits shows the server's message as the error and as the toast |
| JobsView.AsApiError | frontend/src/pages/JobsPage.tsx:61 | the page receives the server's status and its `detail` unchanged |
| NotificationsView.ShowsEmptyState | frontend/src/pages/NotificationsPage.tsx:111-117 | the empty-state text shows exactly when not loading and the list is absent or empty |
| NotificationsView.NotificationsPage.MarkAsRead | frontend/src/pages/NotificationsPage.tsx:50-58 | posts to `/notifications/{id}/read` with an empty body |
| NotificationsView.NotificationsPage.Settle | frontend/src/pages/NotificationsPage.tsx:60-88 | success re-fetches the list; failure shows the detail or the fallback and does not re-fetch |
| NotificationsView.MarkTwiceThroughServer | frontend/src/pages/NotificationsPage.tsx:49-89 | marking one's own notification twice succeeds both times and re-fetches twice |
| JobSubmissionForm.Render | frontend/src/components/JobSubmissionForm.tsx:31-43 | textarea disabled exactly while loading; button disabled exactly while loading or below 1 credit; "Not Enough Credits" exactly below 1 credit, else "Submitting..." while loading, else "Summarize" |
| JobSubmissionForm.CreditThresholdGap | frontend/src/components/JobSubmissionForm.tsx:37 | with 1 to 9 credits the idle form is enabled, below the server's 10-credit minimum |
| JobHistoryTable.Truncate | frontend/src/components/JobHistoryTable.tsx:89-90 | short inputs unchanged; longer ones are their first 50 characters followed by "..." |
| JobHistoryTable.StatusColour | frontend/src/components/JobHistoryTable.tsx:78 | green exactly for completed, red exactly for failed, yellow otherwise |
| JobHistoryTable.OutputCellOf | frontend/src/components/JobHistoryTable.tsx:93-97 | the output exactly when the job is completed with a non-empty output, otherwise the status |
| JobHistoryTable.JobRows | frontend/src/components/JobHistoryTable.tsx:73-100 | one row per job, in order |
| JobHistoryTable.Rows | frontend/src/components/JobHistoryTable.tsx:46-100 | three placeholders and no job rows while loading; the empty-state row exactly when not loading with no jobs; otherwise exactly `JobRows` of the jobs, one row per job with its truncated input |
| NotificationItem.ConvertDate | frontend/src/components/NotificationItem.tsx:22-26 | `convertDate`; what it computes is stated by `ConvertDateOfParts` and `ConvertDateWithoutDashes` below |
| NotificationItem.ConvertDateOfParts | frontend/src/components/NotificationItem.tsx:22-26 | `Y-M-D` with no dash inside the parts becomes `D/M/Y` |
| NotificationItem.ConvertDateWithoutDashes | frontend/src/components/NotificationItem.tsx:23-25 | a text with no dash becomes `undefined/undefined/<text>` |
| NotificationItem.DateLabel | frontend/src/components/NotificationItem.tsx:50 | a timestamp that starts with a `YYYY-MM-DD` date is labelled `DD/MM/YYYY`; one whose first ten characters hold no dash is labelled `undefined/undefined/` followed by them |
| NotificationItem.FirstTen | frontend/src/components/NotificationItem.tsx:50 | `slice(0, 10)`: the first ten characters, or the whole text when it is shorter |
| NotificationItem.DateLabelOfIsoTimestamp | frontend/src/components/NotificationItem.tsx:50 | "2025-04-25T10:00:00Z" is shown as "25/04/2025" |
| NotificationItem.MarkButton | frontend/src/components/NotificationItem.tsx:54-59 | the button exists exactly for an unread notification and a click reports its own id |
| Schemas.ValidUsername | backend/schemas.py:8 | a username has 3 to 50 characters |
| Schemas.ValidPassword | backend/schemas.py:12 | a password has at least 6 characters |
| Schemas.ValidUserCreate | backend/schemas.py:7-12 | a signup body is accepted exactly when its username, e-mail and password rules all hold |
| Schemas.FailingFields | backend/schemas.py:7-12 | the number of error objects a failed validation reports: at most 3, and 0 exactly for an accepted body |
| Models.StatusNames | backend/models.py:7-11 | four statuses, each round-tripping through its string value |
| Models.ParseStatus | backend/models.py:7-11 | a parsed status prints back as the string it came from |
| Models.NewUser | backend/models.py:13-20 | a new user starts with 100 credits |
| Models.NewJob | backend/models.py:25-32 | a new job is pending with no output |
| Models.NewNotification | backend/models.py:35-43 | a new notification is unread |
| Crud.Store.constructor | backend/models.py:13-45 | an empty database satisfies the table invariant |
| Crud.FindByUsername | backend/crud.py:15-16 | the first row with that username, or none exactly when no row has it |
| Crud.AuthenticateUser | backend/crud.py:14-19 | none exactly when no user with that username has a hash that verifies the password; otherwise that user |
| Crud.CreateUser | backend/crud.py:6-12 | appends a user with the next id, the password's hash and 100 credits; fails exactly when the username or e-mail is taken, and then always with a 500 without `detail`, and keeps the uniqueness invariant |
| Crud.AddCredits | backend/crud.py:21-25 | raises that user's balance by exactly the amount, of any sign, and changes nothing else |
| Crud.CreateJob | backend/crud.py:27-32 | appends a pending job of that user echoing the input |
| Crud.WithStatus | backend/crud.py:39-41 | the status is set; the output is replaced only by a non-empty text; no other field changes |
| Crud.UpdateJobStatus | backend/crud.py:34-44 | an unknown id gives nothing and changes nothing; otherwise exactly that row is updated as `WithStatus` says |
| Crud.NewestFirst | backend/crud.py:47 | exactly the rows kept by the filter, in strictly decreasing `created_at` |
| Crud.GetJobsForUser | backend/crud.py:46-48 | exactly that user's jobs, newest first |
| Crud.CreateNotification | backend/crud.py:50-55 | appends an unread notification of that user with the given type and message |
| Crud.GetNotificationsForUser | backend/crud.py:57-59 | exactly that user's notifications, newest first |
| Crud.MarkNotificationRead | backend/crud.py:61-69 | a missing id or another user's notification gives 404 "Notification not found" and changes nothing; otherwise exactly that notification becomes read |
| Crud.MarkNotificationReadAsWritten | backend/crud.py:61-65 | as written, the not-found branch ends in a 500 without `detail` |
| Crud.MarkNotificationReadTwice | backend/crud.py:66-69 | a second mark succeeds exactly when the first did, returns the same read row and leaves the table as the first left it |
| Handlers.ValidationFailed | backend/schemas.py:7-12 | a 422 whose `detail` is a list of error objects, non-empty exactly when the body breaks a rule |
| Handlers.Signup | backend/main.py:42-46 | a body breaking the username (3 to 50), e-mail or password (at least 6) rule is a 422 listing one error object per broken rule and stores nothing; a valid one succeeds exactly when the name and e-mail are free, and returns the new user, with 100 credits and without the hash; a valid one that fails is the 500 without `detail` |
| Handlers.Login | backend/main.py:48-57 | a 401 "Incorrect username or password" exactly when no user with that name verifies the password; otherwise an access token, a refresh token and type "bearer" |
| Handlers.RefreshToken | backend/main.py:59-82 | success exactly when the token decodes, has type "refresh", has a subject and names a user; then a new access token with the same refresh token; otherwise a 401 "Could not validate refresh token" |
| Handlers.SubmitJob | backend/main.py:98-116 | below 10 credits a 400 with nothing created; otherwise a pending job echoing the input, its id queued, and one "info" notification numbering it as the previous job count plus one; credits untouched |
| Handlers.AddUserCredits | backend/main.py:88-92 | the caller's balance rises by the amount and the updated user is returned |
| Handlers.MarkAsRead | backend/main.py:127-131 | built on the corrected `Crud.MarkNotificationRead` of "## Findings" (as written, this case is a 500 from `backend/crud.py:65`): a 404 exactly when the notification is not the caller's; otherwise it becomes read and is returned |
| Tasks.OrdinalSuffix | backend/celery_config.py:103 | "st", "nd", "rd" for 1, 2, 3 and "th" for every other number |
| Tasks.OrdinalSuffixExamples | backend/main.py:112 | 11 to 13 and 21 to 23 get "th" |
| Tasks.Sentences | backend/celery_config.py:93-94 | the trimmed, non-empty pieces of a `". "` split |
| Tasks.ExtractiveHasSharedPiece | backend/celery_config.py:93-96 | a rejected summary has a non-empty trimmed piece equal to a trimmed piece of the input |
| Tasks.SharedPieceIsExtractive | backend/celery_config.py:93-96 | any such shared piece gets the summary rejected |
| Tasks.SentencesAreStripped | backend/celery_config.py:93-94 | every sentence is already stripped |
| Tasks.CopiedSentenceIsRejected | backend/celery_config.py:93-96 | a summary that starts with one of the input's sentences is rejected |
| Tasks.IsExtractive | backend/celery_config.py:93-95 | the rejection test: some sentence of the summary is a sentence of the input; partnered by `ExtractiveHasSharedPiece` and `SharedPieceIsExtractive` |
| Tasks.Distinct | backend/celery_config.py:94 | exactly the elements of the list, pairwise different, no more of them than the list has |
| Tasks.DistinctKeepsFirstOccurrence | backend/celery_config.py:94 | a repeated element is kept at its first place |
| Tasks.OverlapError | backend/celery_config.py:96 | the rejection message starts with "Summarization failed: output contains exact input sentences: " |
| Tasks.JobVerdict | backend/celery_config.py:89-111 | the job completes exactly when a summary was produced and shares no sentence with the input, with that summary; a raised error fails with its message |
| Tasks.AbstractiveSummaryCompletes | backend/celery_config.py:89-97 | a summary that shares no sentence with the input completes the job |
| Tasks.OwnedUpTo | backend/celery_config.py:57-68 | the user's jobs with id at most the bound, counted whatever their status; partnered by `OwnedUpToCounts` |
| Tasks.OwnedCount | backend/main.py:103-105 | the number of the user's jobs; partnered by `OwnedUpToAll` |
| Tasks.OwnedUpToCounts | backend/celery_config.py:57-68 | the job number is the size of the set of the user's jobs with id at most the given id |
| Tasks.OwnedUpToAll | backend/main.py:103-105 | when every id is at most the bound, the job number is the user's total job count |
| Tasks.JobNumberOfNewJob | backend/celery_config.py:57-68 | a just-created job's number is the user's previous job count plus one, the number the submission announced |
| Tasks.JobNumberStable | backend/celery_config.py:57-68 | jobs created later do not change an earlier job's number |
| Tasks.JobNumberIgnoresStatus | backend/celery_config.py:57-68 | status updates do not change any job number |
| Tasks.ProcessEffect | backend/celery_config.py:70-111 | sizes kept; only the processed job and its owner's balance change; the job is never left pending; it stays processing exactly when it has no owner; it is completed exactly on success; a missing job gives "Job {id} not found"; a notification is added exactly when the owner exists, to that owner, "success" exactly when the verdict completes; a changed balance is the owner's, changed to `deduct(balance, 10)`; on error no balance changes |
| Tasks.ProcessEffectCompletes | backend/celery_config.py:89-106 | for a job with an owner and a summary that copies no input sentence: success with the summary, the job completed with the summary stored, the owner's balance and only it set to `deduct(balance, 10)`, and the next notification, stamped with the clock, reads "Your {n} job completed! Credits remaining: {left}" with `n` the owner's job number |
| Tasks.ProcessEffectFails | backend/celery_config.py:89-111 | for a job with an owner whose run fails: an error with the message, the job failed with the message stored, no balance changed, and the next notification, stamped with the clock, reads "Job {id} failed: {message}" |
| Tasks.FinishEffect | backend/celery_config.py:89-111 | the `try` block: sizes kept, only the processed job changes, and exactly one notification is appended, the next row, for the owner, unread and stamped with the clock |
| Tasks.FinishEffectCompletes | backend/celery_config.py:97-106 | a completion stores the summary, deducts from the owner alone and announces the owner's job number, counted on the tables before the status change, with the balance left |
| Tasks.FinishEffectFails | backend/celery_config.py:107-111 | a failure stores the error text, changes no balance and announces "Job {id} failed: {error}" as an "error" notice |
| Tasks.ProcessJob | backend/celery_config.py:70-111 | result and tables equal `ProcessEffect` on the tables before the run |
| Tasks.FinishJob | backend/celery_config.py:89-111 | result and tables equal the `try` block's effect |
| Tasks.CompleteJob | backend/celery_config.py:97-106 | stores the summary, numbers the job, deducts 10 and notifies with the number and the balance left |
| Tasks.FailJob | backend/celery_config.py:107-111 | stores the error text, notifies "Job {id} failed", deducts nothing |
| Tasks.DeductCredits | backend/celery_config.py:99 | the user's balance becomes `deduct(balance, amount)`; nothing else changes |
| Tasks.ProcessJobAsWritten | backend/celery_config.py:89-96 | as written, every job with an owner ends failed and no balance ever changes |
| Tasks.ResetNoticesRecipients | backend/celery_config.py:35-43 | the reset notices go to exactly the users whose balance was not 100, in table order, each an unread "info" notice with the reset message |
| Tasks.ResetUserCredits | backend/celery_config.py:26-48 | every balance becomes 100, jobs are untouched, and exactly the reset notices are appended |
| Tasks.ResetOne | backend/celery_config.py:36-43 | one user is set to 100, notified only when the balance was different |
| Tasks.Broker.Delay | backend/main.py:108 | the job id is appended to the queue |
| Text.Trim | backend/celery_config.py:93 | a slice of the text with only whitespace before and after it, with no leading or trailing whitespace, and empty exactly for an all-whitespace text |
| Text.TrimIdempotent | backend/celery_config.py:93 | trimming twice is trimming once |
| Text.JoinSplit | backend/celery_config.py:93 | joining the pieces of a split with the separator gives back the text |
| Text.SplitJoin | frontend/src/components/NotificationItem.tsx:23 | splitting the join of separator-free parts on a one-character separator gives back the parts |
| Text.IntToString | backend/celery_config.py:103 | at least one character, with a leading minus sign exactly for a negative number |
| Text.NatToStringDecimal | backend/celery_config.py:103 | the rendering of a natural number is a canonical digit string, with no leading zero unless it is "0", that denotes the number |
| Text.IntToStringDecimal | backend/celery_config.py:103 | after the optional minus sign comes the canonical digit string of the magnitude |
| Text.IntToStringInjective | backend/celery_config.py:103 | different numbers are rendered differently |

## Left out

- The summariser (`backend/utils.py`): an HTTP call to a hosted model with retries. Its answer is the input `SummaryOutcome`.
- Celery's broker, worker, per-task event loop and scheduling, and database sessions, commits and refreshes: framework plumbing. The broker is a queue of job ids.
- `reset_user_credits` is declared as an `async` Celery task. How Celery runs a coroutine function is framework behaviour and is not modelled; its body is.
- FastAPI app, CORS and routing; the binding of `refresh_token` as a query parameter: framework behaviour. Handlers take their parsed arguments. As written, `/auth/refresh` (`backend/main.py:60`) expects `refresh_token` in the query string, while the client (`frontend/src/lib/api.ts:35`) sends it in a JSON body, so every renewal is answered with a 422 and the interceptor takes its failure branch (`Transport.ApiClient.OnResponseError` with a failed renewal).
- `get_current_user` and the thin read handlers `/auth/me`, `/credits`, `/jobs/my` and `/notifications`: authentication is given as a user id, and the reads are the query functions of `Crud`.
- JWT signing and decoding, password hashing and verification, and e-mail validation: foreign code. They are parameters.
- `deduct_credits` is imported by the worker (`backend/celery_config.py:4`) but has no definition in `crud.py`. As written, that import fails, and so does the import of the API module, which imports the worker (`backend/main.py:11`). Its effect on a balance is the total parameter `deduct`. A `deduct` that raises cannot be expressed that way: such a raise would turn a job already marked completed into a failed one (`backend/celery_config.py:97-109`).
- `Tasks.OverlapError`: states only the message prefix. Python's set display order and its quote escaping are not modelled; the model renders the sentences once each, in first-appearance order (`Tasks.Distinct`).
- Timestamps: `datetime.utcnow` and the relative times of `date-fns` are replaced by a logical clock. The client's `created_at` text reaches `NotificationItem.DateLabel` as a string.
- Strings are sequences of code points. JavaScript's `slice` and `length` count UTF-16 units, so `JobHistoryTable.Truncate`, the password length check of `SignupView.CheckSignup` (`frontend/src/pages/SignupPage.tsx:97`; three astral characters have length 6 there and pass) and `NotificationItem.FirstTen` agree with the source only outside the astral planes.
- react-query: caching, `isLoading`, refetch intervals and in-flight de-duplication. A request's answer is a parameter, and a re-fetch is counted.
- Concurrency: 401s racing through the interceptor and overlapping mutations. The model is sequential.
- Toast widgets and their options, styling, skeletons, `Layout.tsx`, `ApiDocumentation.tsx`, `Dashboard.tsx`, `Profile.tsx` and `main.tsx`: presentation only. The texts of the toasts after a mutation are recorded.
- The error toasts of the list queries themselves (`frontend/src/pages/JobsPage.tsx:35-37`, `frontend/src/pages/NotificationsPage.tsx:31-45`): the queries are not modelled, only their data, which is a parameter.
- LoginView.LoginPage.OnError, JobsView.JobsPage.Settle and NotificationsView.NotificationsPage.Settle: these pages pass the `detail` value itself to the toast, not its string form. For a message this is the same text. For a list of error objects the model records its string form, and how the toast widget renders a list is not modelled. The jobs page also stores that list in its `error` state (`frontend/src/pages/JobsPage.tsx:61-66`), which React cannot render as a child; the model's `JobsView.JobsPage.error` holds the string form instead.
- The content of the validation error objects (location, message, type) is not modelled; only their number is.
- Console logging and backend logging: no effect on state.

## Findings

| source | as written | input that shows it | evidently intended | confidence | as-written member | corrected member |
|---|---|---|---|---|---|---|
| backend/celery_config.py:90 | `summarize_text` is a coroutine function called without `await`, so `summary.split('. ')` at line 94 raises AttributeError; every job ends failed and no credits are ever deducted | any pending job whose owner exists | the summary is awaited, so a summary sharing no sentence with the input completes the job and deducts 10 credits | not executed | Tasks.ProcessJobAsWritten | Tasks.ProcessJob |
| backend/crud.py:65 | `HTTPException` is raised but never imported in `crud.py`, so the not-found branch raises NameError and the client gets a 500 | marking an id that does not exist, or another user's notification | a 404 "Notification not found" | not executed | Crud.MarkNotificationReadAsWritten | Crud.MarkNotificationRead |
