/** The background work of the backend (backend/celery_config.py): the job
    processing state machine, the per-user job number, the daily credit
    reset, and the check that rejects a summary copying input sentences.
    The summariser is an HTTP call to a hosted model; its answer is an
    input here. `deduct_credits` is imported by the task module but has no
    definition in crud.py, so its effect on a balance is a parameter. */
module Tasks {
  import opened Common
  import opened Text
  import opened Models
  import opened Crud

  // ---------------------------------------------------------------------
  // Ordinal suffix (shared with the submission handler)

  /** The suffix written after a job number: "st", "nd" and "rd" for 1, 2
      and 3 only; every other number, 11 to 13 and 21 to 23 included, gets
      "th". */
  function OrdinalSuffix(n: int): (r: string)
    ensures r in {"st", "nd", "rd", "th"}
    ensures (r == "th") <==> !(1 <= n <= 3)
  {
    if n == 1 then "st" else if n == 2 then "nd" else if n == 3 then "rd" else "th"
  }

  function Ordinal(n: int): string {
    IntToString(n) + OrdinalSuffix(n)
  }

  lemma OrdinalSuffixExamples()
    ensures OrdinalSuffix(1) == "st" && OrdinalSuffix(2) == "nd" && OrdinalSuffix(3) == "rd"
    ensures forall n :: 11 <= n <= 13 || 21 <= n <= 23 ==> OrdinalSuffix(n) == "th"
  {
  }

  // ---------------------------------------------------------------------
  // Extractive-summary check

  const SentenceSeparator := ". "

  /** `set(s.strip() for s in text.split('. ') if s.strip())`: the trimmed,
      non-empty pieces between separators. */
  function Sentences(text: string): (r: set<string>)
    ensures forall s :: s in r ==> s != ""
  {
    set p | p in Split(text, SentenceSeparator) && Trim(p) != "" :: Trim(p)
  }

  /** The backup check: the summary is rejected when its sentence set and
      the input's intersect. */
  predicate IsExtractive(inputText: string, summary: string) {
    Sentences(summary) * Sentences(inputText) != {}
  }

  /** A rejected summary has a non-empty trimmed piece equal to a trimmed
      piece of the input. */
  lemma ExtractiveHasSharedPiece(inputText: string, summary: string)
    requires IsExtractive(inputText, summary)
    ensures exists p, q :: p in Split(summary, SentenceSeparator)
                           && q in Split(inputText, SentenceSeparator)
                           && Trim(p) != "" && Trim(p) == Trim(q)
  {
    var s :| s in Sentences(summary) * Sentences(inputText);
    var p :| p in Split(summary, SentenceSeparator) && Trim(p) != "" && Trim(p) == s;
    var q :| q in Split(inputText, SentenceSeparator) && Trim(q) != "" && Trim(q) == s;
  }

  /** Conversely, any such shared piece gets the summary rejected. */
  lemma SharedPieceIsExtractive(inputText: string, summary: string, p: string, q: string)
    requires p in Split(summary, SentenceSeparator)
    requires q in Split(inputText, SentenceSeparator)
    requires Trim(p) != "" && Trim(p) == Trim(q)
    ensures IsExtractive(inputText, summary)
  {
    assert Trim(p) in Sentences(summary);
    assert Trim(q) in Sentences(inputText);
    assert Trim(p) in Sentences(summary) * Sentences(inputText);
  }

  /** Every element of a sentence set is already stripped. */
  lemma SentencesAreStripped(text: string, s: string)
    requires s in Sentences(text)
    ensures Trim(s) == s
  {
    var p :| p in Split(text, SentenceSeparator) && Trim(p) != "" && Trim(p) == s;
    TrimIdempotent(p);
  }

  /** A summary that copies one sentence of the input verbatim at its start
      is rejected. */
  lemma {:induction false} CopiedSentenceIsRejected(inputText: string, sentence: string, rest: string)
    requires sentence in Split(inputText, SentenceSeparator)
    requires Trim(sentence) != ""
    requires '.' !in sentence
    ensures IsExtractive(inputText, sentence + SentenceSeparator + rest)
  {
    var summary := sentence + SentenceSeparator + rest;
    SplitFirstPiece(sentence, rest);
    assert sentence in Split(summary, SentenceSeparator);
    SharedPieceIsExtractive(inputText, summary, sentence, sentence);
  }

  /** With no '.' in the first piece, it is the first thing `split('. ')`
      returns. */
  lemma {:induction false} SplitFirstPiece(p: string, rest: string)
    requires '.' !in p
    ensures Split(p + SentenceSeparator + rest, SentenceSeparator)[0] == p
    decreases |p|
  {
    var s := p + SentenceSeparator + rest;
    if p == [] {
      assert s[..2] == SentenceSeparator;
    } else {
      assert s[..2][0] == p[0] != '.';
      assert s[1..] == p[1..] + SentenceSeparator + rest;
      SplitFirstPiece(p[1..], rest);
      assert [p[0]] + p[1..] == p;
    }
  }

  // ---------------------------------------------------------------------
  // Outcome of one job

  /** What the summariser call gave: a text, or an exception's message. */
  datatype SummaryOutcome = Summary(text: string) | Raised(error: string)

  /** How the `try` block of `process_job` ends for one job. */
  datatype Verdict = Complete(summary: string) | Fail(error: string)

  const OverlapErrorPrefix := "Summarization failed: output contains exact input sentences: "

  /** The distinct elements of a sequence, each once, in the order of
      their first occurrences. */
  function Distinct(xs: seq<string>): (r: seq<string>)
    ensures forall x :: x in r <==> x in xs
    ensures forall i, j :: 0 <= i < j < |r| ==> r[i] != r[j]
    ensures |r| <= |xs|
  {
    if xs == [] then []
    else
      var front := xs[..|xs| - 1];
      var last := xs[|xs| - 1];
      assert xs == front + [last];
      var rest := Distinct(front);
      if last in front then rest else rest + [last]
  }

  /** A repeated sentence is kept at its first place. */
  lemma DistinctKeepsFirstOccurrence()
    ensures Distinct(["a", "b", "a"]) == ["a", "b"]
  {
    assert ["a", "b", "a"][..2] == ["a", "b"];
    assert ["a", "b"][..1] == ["a"];
    assert ["a"][..0] == [];
  }

  function QuotedList(xs: seq<string>): string {
    if xs == [] then ""
    else if |xs| == 1 then "'" + xs[0] + "'"
    else "'" + xs[0] + "', " + QuotedList(xs[1..])
  }

  /** The message of the ValueError raised by the extractive check: the
      prefix followed by the summary's sentence set. */
  function OverlapError(summary: string): (r: string)
    ensures OverlapErrorPrefix <= r
  {
    var pieces := Split(summary, SentenceSeparator);
    var trimmed := seq(|pieces|, k requires 0 <= k < |pieces| => Trim(pieces[k]));
    var rendered := "{" + QuotedList(Distinct(Filter(trimmed))) + "}";
    assert (OverlapErrorPrefix + rendered)[..|OverlapErrorPrefix|] == OverlapErrorPrefix;
    OverlapErrorPrefix + rendered
  }

  function Filter(xs: seq<string>): seq<string> {
    if xs == [] then [] else (if xs[0] != "" then [xs[0]] else []) + Filter(xs[1..])
  }

  /** The job completes exactly when the summariser answered and its answer
      shares no sentence with the input; otherwise it fails with the
      exception's message. */
  function JobVerdict(inputText: string, outcome: SummaryOutcome): (v: Verdict)
    ensures v.Complete? <==> outcome.Summary? && !IsExtractive(inputText, outcome.text)
    ensures v.Complete? ==> v.summary == outcome.text
    ensures outcome.Raised? ==> v == Fail(outcome.error)
    ensures v.Fail? && outcome.Summary? ==>
              OverlapErrorPrefix <= v.error
  {
    match outcome
    case Raised(e) => Fail(e)
    case Summary(s) =>
      if IsExtractive(inputText, s) then Fail(OverlapError(s)) else Complete(s)
  }

  function CompletedMessage(jobNumber: int, creditsLeft: int): string {
    "Your " + Ordinal(jobNumber) + " job completed! Credits remaining: " + IntToString(creditsLeft)
  }

  function FailedMessage(jobId: int, error: string): string {
    "Job " + IntToString(jobId) + " failed: " + error
  }

  function JobNotFound(jobId: int): string {
    "Job " + IntToString(jobId) + " not found"
  }

  const UserNotFound := "User not found for job"
  const DeductedPerJob := 10

  /** The dictionary a task returns: `{"status": "success", ...}` or
      `{"status": "error", "message": ...}`. */
  datatype TaskResult = TaskSuccess(payload: string) | TaskError(message: string)

  // ---------------------------------------------------------------------
  // Per-user job number

  predicate CountsFor(j: Job, userId: int, maxId: int) {
    j.userId == userId && j.id <= maxId
  }

  /** `get_user_job_number`: the number of the user's jobs whose id is at
      most `maxId`. */
  function OwnedUpTo(js: seq<Job>, userId: int, maxId: int): nat {
    if js == [] then 0
    else OwnedUpTo(js[..|js| - 1], userId, maxId) + (if CountsFor(js[|js| - 1], userId, maxId) then 1 else 0)
  }

  function CountedPositions(js: seq<Job>, userId: int, maxId: int): set<int> {
    set i | 0 <= i < |js| && CountsFor(js[i], userId, maxId)
  }

  /** The recursive count is the size of the set of positions it counts. */
  lemma {:induction false} OwnedUpToCounts(js: seq<Job>, userId: int, maxId: int)
    ensures OwnedUpTo(js, userId, maxId) == |CountedPositions(js, userId, maxId)|
  {
    if js != [] {
      var prefix := js[..|js| - 1];
      OwnedUpToCounts(prefix, userId, maxId);
      var before := CountedPositions(prefix, userId, maxId);
      if CountsFor(js[|js| - 1], userId, maxId) {
        assert CountedPositions(js, userId, maxId) == before + {|js| - 1};
      } else {
        assert CountedPositions(js, userId, maxId) == before;
      }
    }
  }

  /** The number of the user's jobs, whatever their ids. */
  function OwnedCount(js: seq<Job>, userId: int): nat {
    if js == [] then 0
    else OwnedCount(js[..|js| - 1], userId) + (if js[|js| - 1].userId == userId then 1 else 0)
  }

  lemma {:induction false} OwnedUpToAll(js: seq<Job>, userId: int, maxId: int)
    requires forall i :: 0 <= i < |js| ==> js[i].id <= maxId
    ensures OwnedUpTo(js, userId, maxId) == OwnedCount(js, userId)
  {
    if js != [] {
      OwnedUpToAll(js[..|js| - 1], userId, maxId);
    }
  }

  /** The number of a just-created job is the user's previous job count
      plus one: the number the submission notification announces. */
  lemma JobNumberOfNewJob(js: seq<Job>, j: Job)
    requires forall i :: 0 <= i < |js| ==> js[i].id == i + 1
    requires j.id == |js| + 1
    ensures OwnedUpTo(js + [j], j.userId, j.id) == OwnedCount(js, j.userId) + 1
  {
    assert (js + [j])[..|js|] == js;
    OwnedUpToAll(js, j.userId, j.id);
  }

  /** Jobs created later (larger ids) do not change an earlier job's
      number. */
  lemma {:induction false} JobNumberStable(js: seq<Job>, later: seq<Job>, userId: int, maxId: int)
    requires forall i :: 0 <= i < |later| ==> later[i].id > maxId
    ensures OwnedUpTo(js + later, userId, maxId) == OwnedUpTo(js, userId, maxId)
  {
    if later == [] {
      assert js + later == js;
    } else {
      var front := later[..|later| - 1];
      assert (js + later)[..|js + later| - 1] == js + front;
      assert (js + later)[|js + later| - 1] == later[|later| - 1];
      JobNumberStable(js, front, userId, maxId);
    }
  }

  /** Status updates do not change any job number. */
  lemma {:induction false} JobNumberIgnoresStatus(js: seq<Job>, k: nat, status: JobStatus,
                                                  outputText: Option<string>, userId: int, maxId: int)
    requires k < |js|
    ensures OwnedUpTo(js[k := WithStatus(js[k], status, outputText)], userId, maxId)
            == OwnedUpTo(js, userId, maxId)
  {
    var js' := js[k := WithStatus(js[k], status, outputText)];
    if k == |js| - 1 {
      assert js'[..|js'| - 1] == js[..|js| - 1];
    } else {
      assert js'[..|js'| - 1] == js[..|js| - 1][k := WithStatus(js[k], status, outputText)];
      JobNumberIgnoresStatus(js[..|js| - 1], k, status, outputText, userId, maxId);
    }
  }

  // ---------------------------------------------------------------------
  // process_job

  predicate OwnerExists(users: seq<User>, jobs: seq<Job>, jobId: int) {
    HasJob(jobs, jobId) && 1 <= jobs[jobId - 1].userId <= |users|
  }

  /** What one run of `process_job` returns, and the three tables after
      it. */
  datatype Effect = Effect(result: TaskResult, users: seq<User>, jobs: seq<Job>,
                           notifications: seq<Notification>)

  /** `process_job` on given tables, with the summariser's answer given.
      The job is marked processing first; a missing job or owner ends the
      task with an error and no notification. Otherwise the verdict
      decides: completion stores the summary, applies
      `deduct_credits(user, 10)` and announces the job number and the
      balance left; failure stores the error text, leaves every balance
      alone and announces "Job {id} failed". Only the processed job and
      its owner's row change, and at most one notification is added. */
  function ProcessEffect(users: seq<User>, jobs: seq<Job>, notes: seq<Notification>, clock: int,
                         jobId: int, outcome: SummaryOutcome, deduct: (int, int) -> int): (e: Effect)
    ensures |e.users| == |users| && |e.jobs| == |jobs|
    ensures HasJob(jobs, jobId) ==> e.jobs == jobs[jobId - 1 := e.jobs[jobId - 1]]
    ensures !OwnerExists(users, jobs, jobId) ==> e.users == users
    ensures OwnerExists(users, jobs, jobId) ==>
              var u := jobs[jobId - 1].userId - 1;
              && e.users == users[u := e.users[u]]
              && (e.users[u] != users[u] ==>
                    e.result.TaskSuccess? && e.users[u] == users[u].(credits := deduct(users[u].credits, DeductedPerJob)))
    ensures e.result.TaskError? ==> e.users == users
    ensures |e.notifications| == |notes| + (if OwnerExists(users, jobs, jobId) then 1 else 0)
    ensures e.notifications[..|notes|] == notes
    ensures !HasJob(jobs, jobId) ==> e.result == TaskError(JobNotFound(jobId)) && e.jobs == jobs
    ensures HasJob(jobs, jobId) ==>
              && e.jobs[jobId - 1].status != Pending
              && (e.jobs[jobId - 1].status == Processing <==> !OwnerExists(users, jobs, jobId))
              && (e.jobs[jobId - 1].status == Completed <==> e.result.TaskSuccess?)
              && e.jobs[jobId - 1].(status := jobs[jobId - 1].status, outputText := jobs[jobId - 1].outputText)
                 == jobs[jobId - 1]
    ensures OwnerExists(users, jobs, jobId) ==>
              && e.notifications[|notes|].userId == jobs[jobId - 1].userId
              && e.notifications[|notes|].kind == (if e.result.TaskSuccess? then "success" else "error")
              && (e.result.TaskSuccess? <==>
                    JobVerdict(jobs[jobId - 1].inputText, outcome).Complete?)
  {
    if !HasJob(jobs, jobId) then Effect(TaskError(JobNotFound(jobId)), users, jobs, notes)
    else
      var job := jobs[jobId - 1];
      var marked := jobs[jobId - 1 := WithStatus(job, Processing, None)];
      if !(1 <= job.userId <= |users|) then Effect(TaskError(UserNotFound), users, marked, notes)
      else
        var verdict := JobVerdict(job.inputText, outcome);
        if verdict.Complete? then
          FinishEffectCompletes(users, marked, notes, clock, jobId, verdict.summary, deduct);
          FinishEffect(users, marked, notes, clock, jobId, verdict, deduct)
        else
          FinishEffectFails(users, marked, notes, clock, jobId, verdict.error, deduct);
          FinishEffect(users, marked, notes, clock, jobId, verdict, deduct)
  }

  /** The `try` block of `process_job` once the job is marked processing
      and its owner found. Exactly one notification is added, for the
      owner, and only the processed job changes. A completion stores the
      summary, deducts from the owner's balance alone and announces the
      owner's job number, which counts the owner's jobs up to this one
      whatever their status, together with the balance left; a failure
      stores the error text, leaves every balance alone and reports the
      job's id with the error. */
  function FinishEffect(users: seq<User>, jobs: seq<Job>, notes: seq<Notification>, clock: int,
                        jobId: int, verdict: Verdict, deduct: (int, int) -> int): (e: Effect)
    requires OwnerExists(users, jobs, jobId)
    ensures |e.users| == |users| && |e.jobs| == |jobs|
    ensures e.jobs == jobs[jobId - 1 := e.jobs[jobId - 1]]
    ensures |e.notifications| == |notes| + 1 && e.notifications == notes + [e.notifications[|notes|]]
    ensures var n := e.notifications[|notes|];
            n.id == |notes| + 1 && n.userId == jobs[jobId - 1].userId && n.createdAt == clock && !n.isRead
  {
    var job := jobs[jobId - 1];
    var owner := users[job.userId - 1];
    match verdict
    case Complete(summary) =>
      var left := deduct(owner.credits, DeductedPerJob);
      var jobs' := jobs[jobId - 1 := WithStatus(job, Completed, Some(summary))];
      Effect(TaskSuccess(summary),
             users[job.userId - 1 := owner.(credits := left)],
             jobs',
             notes + [NewNotification(|notes| + 1, job.userId, "success",
                                      CompletedMessage(OwnedUpTo(jobs', job.userId, jobId), left), clock)])
    case Fail(error) =>
      Effect(TaskError(error), users,
             jobs[jobId - 1 := WithStatus(job, Failed, Some(error))],
             notes + [NewNotification(|notes| + 1, job.userId, "error",
                                      FailedMessage(jobId, error), clock)])
  }

  /** A completion stores the summary, deducts from the owner's balance
      alone and announces the owner's job number, which counts the owner's
      jobs up to this one whatever their status, with the balance left. */
  lemma FinishEffectCompletes(users: seq<User>, jobs: seq<Job>, notes: seq<Notification>, clock: int,
                              jobId: int, summary: string, deduct: (int, int) -> int)
    requires OwnerExists(users, jobs, jobId)
    ensures var e := FinishEffect(users, jobs, notes, clock, jobId, Complete(summary), deduct);
            var job := jobs[jobId - 1];
            var u := job.userId - 1;
            && e.result == TaskSuccess(summary)
            && e.users == users[u := users[u].(credits := deduct(users[u].credits, DeductedPerJob))]
            && e.jobs[jobId - 1] == WithStatus(job, Completed, Some(summary))
            && e.notifications[|notes|].kind == "success"
            && e.notifications[|notes|].message
               == CompletedMessage(OwnedUpTo(jobs, job.userId, jobId), e.users[u].credits)
  {
    var job := jobs[jobId - 1];
    JobNumberIgnoresStatus(jobs, jobId - 1, Completed, Some(summary), job.userId, jobId);
  }

  /** A failure stores the error text, leaves every balance alone and
      reports the job's id with the error. */
  lemma FinishEffectFails(users: seq<User>, jobs: seq<Job>, notes: seq<Notification>, clock: int,
                          jobId: int, error: string, deduct: (int, int) -> int)
    requires OwnerExists(users, jobs, jobId)
    ensures var e := FinishEffect(users, jobs, notes, clock, jobId, Fail(error), deduct);
            && e.result == TaskError(error)
            && e.users == users
            && e.jobs[jobId - 1] == WithStatus(jobs[jobId - 1], Failed, Some(error))
            && e.notifications[|notes|].kind == "error"
            && e.notifications[|notes|].message == FailedMessage(jobId, error)
  {
  }

  /** A run on a job with an owner whose summary copies no input sentence
      stores the summary, takes `deduct(balance, 10)` from the owner alone
      and announces the owner's job number and the balance left in the
      next notification row, stamped with the clock. */
  lemma ProcessEffectCompletes(users: seq<User>, jobs: seq<Job>, notes: seq<Notification>, clock: int,
                               jobId: int, summary: string, deduct: (int, int) -> int)
    requires OwnerExists(users, jobs, jobId)
    requires !IsExtractive(jobs[jobId - 1].inputText, summary)
    ensures var e := ProcessEffect(users, jobs, notes, clock, jobId, Summary(summary), deduct);
            var job := jobs[jobId - 1];
            var u := job.userId - 1;
            var n := e.notifications[|notes|];
            && e.result == TaskSuccess(summary)
            && e.users == users[u := users[u].(credits := deduct(users[u].credits, DeductedPerJob))]
            && e.jobs[jobId - 1] == WithStatus(job, Completed, Some(summary))
            && n.id == |notes| + 1 && n.createdAt == clock && !n.isRead
            && n.message == CompletedMessage(OwnedUpTo(jobs, job.userId, jobId),
                                             deduct(users[u].credits, DeductedPerJob))
  {
    var job := jobs[jobId - 1];
    var marked := jobs[jobId - 1 := WithStatus(job, Processing, None)];
    assert OwnerExists(users, marked, jobId);
    JobNumberIgnoresStatus(jobs, jobId - 1, Processing, None, job.userId, jobId);
    assert marked[jobId - 1].userId == job.userId;
    assert WithStatus(marked[jobId - 1], Completed, Some(summary))
           == WithStatus(job, Completed, Some(summary));
    var e := ProcessEffect(users, jobs, notes, clock, jobId, Summary(summary), deduct);
    assert e == FinishEffect(users, marked, notes, clock, jobId, Complete(summary), deduct);
    FinishEffectCompletes(users, marked, notes, clock, jobId, summary, deduct);
    var u := job.userId - 1;
    var number := OwnedUpTo(jobs, job.userId, jobId);
    var left := deduct(users[u].credits, DeductedPerJob);
    assert OwnedUpTo(marked, job.userId, jobId) == number;
    assert e.users[u].credits == left;
    assert e.notifications[|notes|].message == CompletedMessage(number, left);
  }

  /** A run on a job with an owner that fails, because the summariser
      raised or its summary copies an input sentence, stores the error
      text, changes no balance and announces the failure in the next
      notification row, stamped with the clock. */
  lemma ProcessEffectFails(users: seq<User>, jobs: seq<Job>, notes: seq<Notification>, clock: int,
                           jobId: int, outcome: SummaryOutcome, deduct: (int, int) -> int)
    requires OwnerExists(users, jobs, jobId)
    requires JobVerdict(jobs[jobId - 1].inputText, outcome).Fail?
    ensures var e := ProcessEffect(users, jobs, notes, clock, jobId, outcome, deduct);
            var error := JobVerdict(jobs[jobId - 1].inputText, outcome).error;
            var n := e.notifications[|notes|];
            && e.result == TaskError(error)
            && e.users == users
            && e.jobs[jobId - 1] == WithStatus(jobs[jobId - 1], Failed, Some(error))
            && n.id == |notes| + 1 && n.createdAt == clock && !n.isRead
            && n.message == FailedMessage(jobId, error)
  {
    var job := jobs[jobId - 1];
    var marked := jobs[jobId - 1 := WithStatus(job, Processing, None)];
    var error := JobVerdict(job.inputText, outcome).error;
    assert OwnerExists(users, marked, jobId);
    assert ProcessEffect(users, jobs, notes, clock, jobId, outcome, deduct)
           == FinishEffect(users, marked, notes, clock, jobId, Fail(error), deduct);
    FinishEffectFails(users, marked, notes, clock, jobId, error, deduct);
  }

  /** `process_job` against the store: its result and the new tables are
      those of `ProcessEffect` on the tables before the run. */
  method ProcessJob(db: Store, jobId: int, outcome: SummaryOutcome, deduct: (int, int) -> int)
    returns (r: TaskResult)
    requires db.Valid()
    modifies db
    ensures db.Valid()
    ensures var e := ProcessEffect(old(db.users), old(db.jobs), old(db.notifications), old(db.clock),
                                   jobId, outcome, deduct);
            r == e.result && db.users == e.users && db.jobs == e.jobs
            && db.notifications == e.notifications
  {
    var marked := UpdateJobStatus(db, jobId, Processing, None);
    if !HasJob(db.jobs, jobId) {
      return TaskError(JobNotFound(jobId));
    }
    var job := db.jobs[jobId - 1];
    if !(1 <= job.userId <= |db.users|) {
      return TaskError(UserNotFound);
    }
    r := FinishJob(db, jobId, JobVerdict(job.inputText, outcome), deduct);
  }

  /** The `try` block against the store. */
  method FinishJob(db: Store, jobId: int, verdict: Verdict, deduct: (int, int) -> int)
    returns (r: TaskResult)
    requires db.Valid() && OwnerExists(db.users, db.jobs, jobId)
    modifies db
    ensures db.Valid()
    ensures var e := FinishEffect(old(db.users), old(db.jobs), old(db.notifications), old(db.clock),
                                  jobId, verdict, deduct);
            r == e.result && db.users == e.users && db.jobs == e.jobs
            && db.notifications == e.notifications
  {
    match verdict
    case Complete(summary) =>
      CompleteJob(db, jobId, summary, deduct);
      r := TaskSuccess(summary);
    case Fail(error) =>
      FailJob(db, jobId, error);
      r := TaskError(error);
  }

  method CompleteJob(db: Store, jobId: int, summary: string, deduct: (int, int) -> int)
    requires db.Valid() && OwnerExists(db.users, db.jobs, jobId)
    modifies db
    ensures db.Valid()
    ensures var e := FinishEffect(old(db.users), old(db.jobs), old(db.notifications), old(db.clock),
                                  jobId, Complete(summary), deduct);
            db.users == e.users && db.jobs == e.jobs && db.notifications == e.notifications
  {
    ghost var users0, jobs0, notes0, clock0 := db.users, db.jobs, db.notifications, db.clock;
    var userId := db.jobs[jobId - 1].userId;
    var done := UpdateJobStatus(db, jobId, Completed, Some(summary));
    var number := OwnedUpTo(db.jobs, userId, jobId);
    var user := DeductCredits(db, userId, DeductedPerJob, deduct);
    var notice := CreateNotification(db, userId, CompletedMessage(number, user.credits), "success");
    CompletionTables(users0, jobs0, notes0, clock0, jobId, summary, deduct);
  }

  /** The tables after a completion, written out. */
  lemma CompletionTables(users: seq<User>, jobs: seq<Job>, notes: seq<Notification>, clock: int,
                         jobId: int, summary: string, deduct: (int, int) -> int)
    requires OwnerExists(users, jobs, jobId)
    ensures var e := FinishEffect(users, jobs, notes, clock, jobId, Complete(summary), deduct);
            var job := jobs[jobId - 1];
            var u := job.userId - 1;
            var left := deduct(users[u].credits, DeductedPerJob);
            var jobs' := jobs[jobId - 1 := WithStatus(job, Completed, Some(summary))];
            && e.jobs == jobs'
            && e.users == users[u := users[u].(credits := left)]
            && e.notifications == notes + [NewNotification(|notes| + 1, job.userId, "success",
                                             CompletedMessage(OwnedUpTo(jobs', job.userId, jobId), left), clock)]
  {
  }

  method FailJob(db: Store, jobId: int, error: string)
    requires db.Valid() && OwnerExists(db.users, db.jobs, jobId)
    modifies db
    ensures db.Valid()
    ensures forall deduct: (int, int) -> int ::
              var e := FinishEffect(old(db.users), old(db.jobs), old(db.notifications), old(db.clock),
                                    jobId, Fail(error), deduct);
              db.users == e.users && db.jobs == e.jobs && db.notifications == e.notifications
  {
    var userId := db.jobs[jobId - 1].userId;
    var failed := UpdateJobStatus(db, jobId, Failed, Some(error));
    var notice := CreateNotification(db, userId, FailedMessage(jobId, error), "error");
  }

  /** `deduct_credits(db, user, amount)`: the user's balance becomes
      `deduct(balance, amount)`; nothing else changes. */
  method DeductCredits(db: Store, userId: int, amount: int, deduct: (int, int) -> int) returns (u: User)
    requires db.Valid() && db.HasUser(userId)
    modifies db
    ensures db.Valid()
    ensures u == old(db.users[userId - 1]).(credits := deduct(old(db.users[userId - 1].credits), amount))
    ensures db.users == old(db.users)[userId - 1 := u]
    ensures db.jobs == old(db.jobs) && db.notifications == old(db.notifications)
    ensures db.clock == old(db.clock)
  {
    var k := userId - 1;
    u := db.users[k].(credits := deduct(db.users[k].credits, amount));
    db.users := db.users[k := u];
  }

  /** The exception `process_job` meets as written: `summarize_text` is a
      coroutine function called without `await`, so `summary` is a
      coroutine object and `summary.split('. ')` raises AttributeError. */
  const CoroutineSplitError := "'coroutine' object has no attribute 'split'"

  /** `process_job` exactly as written: every job that exists and has an
      owner ends failed, and no credits are ever deducted. */
  method ProcessJobAsWritten(db: Store, jobId: int, deduct: (int, int) -> int)
    returns (r: TaskResult)
    requires db.Valid()
    modifies db
    ensures db.Valid()
    ensures r.TaskError?
    ensures db.users == old(db.users)
    ensures |db.jobs| == |old(db.jobs)|
    ensures OwnerExists(old(db.users), old(db.jobs), jobId) ==>
              && db.jobs[jobId - 1].status == Failed
              && r == TaskError(CoroutineSplitError)
  {
    r := ProcessJob(db, jobId, Raised(CoroutineSplitError), deduct);
  }

  /** With the summariser's answer awaited, a summary that shares no
      sentence with the input completes the job. */
  lemma AbstractiveSummaryCompletes(inputText: string, summary: string)
    requires !IsExtractive(inputText, summary)
    ensures JobVerdict(inputText, Summary(summary)) == Complete(summary)
  {
  }

  // ---------------------------------------------------------------------
  // reset_user_credits

  const ResetMessage := "Your credits have been reset to 100!"

  /** The ids of the users whose balance is not 100, in table order. */
  function NeedingReset(us: seq<User>): seq<int> {
    if us == [] then []
    else NeedingReset(us[..|us| - 1])
         + (if us[|us| - 1].credits != InitialCredits then [us[|us| - 1].id] else [])
  }

  /** The recipients of a run of notifications, in order. */
  function Recipients(ns: seq<Notification>): seq<int> {
    if ns == [] then [] else Recipients(ns[..|ns| - 1]) + [ns[|ns| - 1].userId]
  }

  predicate ResetNotice(n: Notification) {
    n.kind == "info" && n.message == ResetMessage && !n.isRead
  }

  /** The rows the reset loop inserts when the next notification id is
      `firstId` and the clock reads `start`: one per user whose balance is
      not 100, in table order. */
  function ResetNotices(us: seq<User>, firstId: int, start: int): seq<Notification> {
    if us == [] then []
    else
      var done := ResetNotices(us[..|us| - 1], firstId, start);
      var u := us[|us| - 1];
      done + (if u.credits != InitialCredits
              then [NewNotification(firstId + |done|, u.id, "info", ResetMessage, start + |done|)]
              else [])
  }

  /** The inserted rows go to exactly the users whose balance was not 100,
      in order, and each is an unread "reset" notice. */
  lemma {:induction false} ResetNoticesRecipients(us: seq<User>, firstId: int, start: int)
    ensures Recipients(ResetNotices(us, firstId, start)) == NeedingReset(us)
    ensures forall n :: n in ResetNotices(us, firstId, start) ==> ResetNotice(n)
  {
    if us != [] {
      var prefix := us[..|us| - 1];
      var done := ResetNotices(prefix, firstId, start);
      ResetNoticesRecipients(prefix, firstId, start);
      var u := us[|us| - 1];
      if u.credits != InitialCredits {
        var n := NewNotification(firstId + |done|, u.id, "info", ResetMessage, start + |done|);
        assert (done + [n])[..|done + [n]| - 1] == done;
      } else {
        assert done + [] == done;
      }
    }
  }

  lemma ResetNoticesStep(us: seq<User>, i: nat, firstId: int, start: int)
    requires i < |us|
    ensures var done := ResetNotices(us[..i], firstId, start);
            ResetNotices(us[..i + 1], firstId, start)
            == done + (if us[i].credits != InitialCredits
                       then [NewNotification(firstId + |done|, us[i].id, "info", ResetMessage, start + |done|)]
                       else [])
  {
    assert us[..i + 1][..i] == us[..i];
  }

  /** The user table with the balances before position `i` set to 100. */
  function ResetUpTo(us: seq<User>, i: nat): (r: seq<User>)
    ensures |r| == |us|
  {
    seq(|us|, k requires 0 <= k < |us| => if k < i then us[k].(credits := InitialCredits) else us[k])
  }

  /** `reset_user_credits`: every balance becomes 100; one notification is
      inserted per user whose balance was not 100, in table order. */
  method ResetUserCredits(db: Store) returns (r: TaskResult)
    requires db.Valid()
    modifies db
    ensures db.Valid()
    ensures r == TaskSuccess("User credits reset to 100")
    ensures |db.users| == |old(db.users)|
    ensures forall k :: 0 <= k < |db.users| ==> db.users[k] == old(db.users[k]).(credits := InitialCredits)
    ensures db.jobs == old(db.jobs)
    ensures db.notifications == old(db.notifications)
              + ResetNotices(old(db.users), |old(db.notifications)| + 1, old(db.clock))
  {
    ghost var users0, notes0, clock0 := db.users, db.notifications, db.clock;
    var i := 0;
    while i < |db.users|
      invariant db.Valid()
      invariant 0 <= i <= |db.users| == |users0|
      invariant db.users == ResetUpTo(users0, i)
      invariant db.jobs == old(db.jobs)
      invariant db.notifications == notes0 + ResetNotices(users0[..i], |notes0| + 1, clock0)
      invariant db.clock == clock0 + |ResetNotices(users0[..i], |notes0| + 1, clock0)|
    {
      ResetStep(db, users0, notes0, clock0, i);
      i := i + 1;
    }
    assert users0[..i] == users0;
    r := TaskSuccess("User credits reset to 100");
  }

  /** The loop body of `reset_user_credits` at position `i`, stated
      against the tables before the loop. */
  method ResetStep(db: Store, ghost users0: seq<User>, ghost notes0: seq<Notification>, ghost clock0: int, i: nat)
    requires db.Valid() && i < |db.users| == |users0|
    requires db.users == ResetUpTo(users0, i)
    requires db.notifications == notes0 + ResetNotices(users0[..i], |notes0| + 1, clock0)
    requires db.clock == clock0 + |ResetNotices(users0[..i], |notes0| + 1, clock0)|
    modifies db
    ensures db.Valid()
    ensures db.users == ResetUpTo(users0, i + 1)
    ensures db.jobs == old(db.jobs)
    ensures db.notifications == notes0 + ResetNotices(users0[..i + 1], |notes0| + 1, clock0)
    ensures db.clock == clock0 + |ResetNotices(users0[..i + 1], |notes0| + 1, clock0)|
  {
    ResetNoticesStep(users0, i, |notes0| + 1, clock0);
    assert db.users[i] == users0[i];
    ResetOne(db, i);
    assert db.users == ResetUpTo(users0, i + 1);
  }

  /** One iteration of the reset loop: the user at position `k` gets
      balance 100, and a notification when the balance was different. */
  method ResetOne(db: Store, k: nat)
    requires db.Valid() && k < |db.users|
    modifies db
    ensures db.Valid()
    ensures db.users == old(db.users)[k := old(db.users[k]).(credits := InitialCredits)]
    ensures db.jobs == old(db.jobs)
    ensures old(db.users[k]).credits == InitialCredits ==>
              db.notifications == old(db.notifications) && db.clock == old(db.clock)
    ensures old(db.users[k]).credits != InitialCredits ==>
              db.notifications == old(db.notifications) + [NewNotification(
                |old(db.notifications)| + 1, old(db.users[k]).id, "info", ResetMessage, old(db.clock))]
              && db.clock == old(db.clock) + 1
  {
    var user := db.users[k];
    if user.credits != InitialCredits {
      user := user.(credits := InitialCredits);
      db.users := db.users[k := user];
      var notice := CreateNotification(db, user.id, ResetMessage, "info");
    }
  }

  // ---------------------------------------------------------------------
  // The task queue

  /** The broker seen from the web process: `process_ai_job.delay(id)`
      appends the job id to the queue. */
  class Broker {
    var queued: seq<int>

    constructor ()
      ensures queued == []
    {
      queued := [];
    }

    method Delay(jobId: int)
      modifies this
      ensures queued == old(queued) + [jobId]
    {
      queued := queued + [jobId];
    }
  }
}
