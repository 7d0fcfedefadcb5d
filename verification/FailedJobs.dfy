/** The life of one failed job: creation, retries with growing delays, resolution, dead letter. */
module FailedJobs {
  import opened Outcomes
  import opened Tables

  const DEFAULT_RETRY_DELAYS: seq<int> := [60, 300, 900, 3600]

  /** An empty schedule is falsy, so the default one replaces it: one, five, fifteen and sixty minutes. */
  function Delays(configured: seq<int>): (d: seq<int>)
    ensures d != []
    ensures configured != [] ==> d == configured
    ensures configured == [] ==> d == [60, 300, 900, 3600]
  {
    if configured == [] then DEFAULT_RETRY_DELAYS else configured
  }

  /** The wait before the retry that follows retryCount failed ones. */
  function DelayAfter(configured: seq<int>, retryCount: nat): int {
    var d := Delays(configured);
    d[if retryCount < |d| - 1 then retryCount else |d| - 1]
  }

  function NewJob(work: Work, maxRetries: nat, configured: seq<int>, now: int): Job {
    Job(work, 0, maxRetries, Some(now + Delays(configured)[0]), JobStatus.Pending, now, None)
  }

  /** increment_retry: one more failed retry, noticed at now. */
  function Advanced(job: Job, configured: seq<int>, now: int): Job {
    var count := job.retryCount + 1;
    if count >= job.maxRetries then
      job.(retryCount := count, status := DeadLetter, nextRetryAt := None, resolvedAt := Some(now))
    else
      job.(retryCount := count, status := JobStatus.Pending, nextRetryAt := Some(now + DelayAfter(configured, count)))
  }

  function Closed(job: Job, now: int): Job {
    job.(status := Resolved, resolvedAt := Some(now), nextRetryAt := None)
  }

  /** The manual retry endpoint, when the retry could not be dispatched. */
  function Requeued(job: Job, now: int): Job {
    job.(status := JobStatus.Pending, retryCount := 0, nextRetryAt := Some(now))
  }

  predicate IsOpen(job: Job) {
    job.status.Pending? || job.status.DeadLetter?
  }

  predicate IsTerminal(job: Job) {
    job.status.Resolved? || job.status.DeadLetter?
  }

  predicate IsReady(job: Job, now: int) {
    job.status.Pending? && job.nextRetryAt.Some? && job.nextRetryAt.value <= now
  }

  // ---------- every run, manual events included ----------

  /** A job waits for a retry exactly while it is pending, only with retries left, and is never marked RETRYING. */
  predicate Lively(job: Job) {
    && 1 <= job.maxRetries
    && (job.status.Pending? <==> job.nextRetryAt.Some?)
    && (job.status.Pending? ==> job.retryCount < job.maxRetries)
    && (IsTerminal(job) ==> job.resolvedAt.Some?)
    && !job.status.Retrying?
  }

  // ---------- automatic runs ----------

  function Sum(delays: seq<int>): int {
    if delays == [] then 0 else delays[0] + Sum(delays[1..])
  }

  /** The first n waits of a schedule, added up: its entries in order, and then its last one over and over. */
  function Total(schedule: seq<int>, n: nat): int
    requires schedule != []
  {
    if n <= |schedule| then Sum(schedule[..n]) else Total(schedule, n - 1) + schedule[|schedule| - 1]
  }

  lemma {:induction false} SumGrows(delays: seq<int>, n: nat)
    requires n < |delays|
    ensures Sum(delays[..n + 1]) == Sum(delays[..n]) + delays[n]
  {
    if n == 0 {
      assert delays[..1][1..] == [] && delays[..0] == [];
    } else {
      SumGrows(delays[1..], n - 1);
      assert delays[..n + 1][1..] == delays[1..][..n] && delays[..n][1..] == delays[1..][..n - 1];
    }
  }

  /** Every wait is the next entry of the schedule. */
  lemma TotalGrows(configured: seq<int>, n: nat)
    ensures Total(Delays(configured), n + 1) == Total(Delays(configured), n) + DelayAfter(configured, n)
  {
    var d := Delays(configured);
    if n < |d| {
      SumGrows(d, n);
    }
  }

  /** A pending job waits for at least the delays due so far; a dead one has used all its retries and all their delays. */
  predicate OnSchedule(job: Job, configured: seq<int>) {
    && Lively(job)
    && job.retryCount <= job.maxRetries
    && (job.status.Pending? ==>
          job.createdAt + Total(Delays(configured), job.retryCount + 1) <= job.nextRetryAt.value)
    && (job.status.DeadLetter? ==>
          && job.retryCount == job.maxRetries
          && job.createdAt + Total(Delays(configured), job.maxRetries) <= job.resolvedAt.value)
  }

  lemma NewJobOnSchedule(work: Work, maxRetries: nat, configured: seq<int>, now: int)
    requires 1 <= maxRetries
    ensures OnSchedule(NewJob(work, maxRetries, configured, now), configured)
  {
    TotalGrows(configured, 0);
  }

  lemma ReadyJobStaysOnSchedule(job: Job, configured: seq<int>, now: int)
    requires OnSchedule(job, configured) && IsReady(job, now)
    ensures OnSchedule(Advanced(job, configured, now), configured)
    ensures OnSchedule(Closed(job, now), configured)
  {
    var count := job.retryCount + 1;
    TotalGrows(configured, count);
  }

  // ---------- the life of a job that always fails, retried exactly when it is due ----------

  /** The job after n retries, each of them failed and at the time that was planned for it. */
  function Punctual(work: Work, maxRetries: nat, configured: seq<int>, born: int, n: nat): Job {
    if n == 0 then NewJob(work, maxRetries, configured, born)
    else
      var before := Punctual(work, maxRetries, configured, born, n - 1);
      if before.nextRetryAt.Some? then Advanced(before, configured, before.nextRetryAt.value) else before
  }

  /** It is ready for its n-th retry exactly from the time that the first n waits of the schedule add up to, and it is
      dead, with the time of its last retry, after as many retries as it is allowed. */
  lemma {:induction false} PunctualLife(work: Work, maxRetries: nat, configured: seq<int>, born: int, n: nat)
    requires 1 <= maxRetries && n <= maxRetries
    ensures var job := Punctual(work, maxRetries, configured, born, n);
      && job.work == work && job.retryCount == n && job.maxRetries == maxRetries && job.createdAt == born
      && if n < maxRetries then
           var due := born + Total(Delays(configured), n + 1);
           && job.status.Pending? && job.nextRetryAt == Some(due) && job.resolvedAt == None
           && forall now :: IsReady(job, now) <==> due <= now
         else
           && job.status.DeadLetter? && job.nextRetryAt == None
           && job.resolvedAt == Some(born + Total(Delays(configured), maxRetries))
  {
    if n > 0 {
      PunctualLife(work, maxRetries, configured, born, n - 1);
    }
    TotalGrows(configured, n);
  }

  /** With the default settings: retries after 1, 6 and 21 minutes, and given up with the fourth after 81. */
  lemma DefaultLife(work: Work, born: int)
    ensures Punctual(work, 4, [], born, 1).nextRetryAt == Some(born + 360)
    ensures Punctual(work, 4, [], born, 0).nextRetryAt == Some(born + 60)
    ensures Punctual(work, 4, [], born, 2).nextRetryAt == Some(born + 1260)
    ensures Punctual(work, 4, [], born, 3).nextRetryAt == Some(born + 4860)
    ensures Punctual(work, 4, [], born, 4).status.DeadLetter? && Punctual(work, 4, [], born, 4).resolvedAt == Some(born + 4860)
  {
    forall n: nat | n <= 4 {
      PunctualLife(work, 4, [], born, n);
    }
    SumGrows([60, 300, 900, 3600], 0);
    SumGrows([60, 300, 900, 3600], 1);
    SumGrows([60, 300, 900, 3600], 2);
    SumGrows([60, 300, 900, 3600], 3);
  }

  /** The other steps of a job's life, column by column. */
  lemma LastSteps(job: Job, now: int)
    ensures var closed := Closed(job, now);
      && closed.status.Resolved? && closed.resolvedAt == Some(now) && closed.nextRetryAt == None
      && closed.retryCount == job.retryCount && closed.work == job.work && closed.createdAt == job.createdAt
    ensures var again := Requeued(job, now);
      && again.retryCount == 0 && again.maxRetries == job.maxRetries && again.work == job.work && again.createdAt == job.createdAt
      && again.resolvedAt == job.resolvedAt && forall t :: IsReady(again, t) <==> now <= t
  {
  }
}
