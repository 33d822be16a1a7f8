/** The tables of the system of record, the settings, and the effect of each
    server function on one job's rows. */
module Records {
  import opened Options

  datatype Settings = Settings(
    maxJobAttempts: int,
    jobLeaseSeconds: real,
    workerDeadAfterSeconds: real,
    retryBackoffBaseSeconds: real,
    retryBackoffMaxSeconds: real)

  datatype JobStatus = JobQueued | JobRunning | JobSucceeded | JobFailed | JobErrored | JobCancelled

  datatype AttemptStatus = Leased | Running | Succeeded | Failed | InfraError | Cancelled

  datatype WorkerStatus = Online | Offline | Dead

  datatype Attempt = Attempt(
    number: int,
    status: AttemptStatus,
    worker: Option<string>,
    token: Option<string>,
    expires: Option<real>,
    started: Option<real>,
    finished: Option<real>,
    exitCode: Option<int>,
    failedStep: Option<string>,
    permanent: bool,
    logs: string,
    nextRetry: Option<real>)

  /** A job with its rows of the attempts table, in insertion order. The
      foreign key groups the rows, so a row is named by its job and position. */
  datatype Job = Job(status: JobStatus, priority: int, attempts: seq<Attempt>)

  datatype AttemptId = AttemptId(job: string, row: nat)

  datatype Worker = Worker(status: WorkerStatus, lastHeartbeat: real)

  datatype Db = Db(workers: map<string, Worker>, jobs: map<string, Job>)

  /** What a worker reports about a finished attempt. */
  datatype Report = Report(exitCode: int, permanent: bool, failedStep: Option<string>)

  predicate Active(a: Attempt) {
    a.status == Leased || a.status == Running
  }

  /** A row as it is inserted: LEASED, with no owner, token or expiry. */
  function NewAttempt(number: int, nextRetry: Option<real>): Attempt {
    Attempt(number, Leased, None, None, None, None, None, None, None, false, "", nextRetry)
  }

  function NewJob(priority: int): Job {
    Job(JobQueued, priority, [NewAttempt(1, None)])
  }

  function Pow2(n: int): (p: real)
    ensures p > 0.0
    ensures n >= 0 ==> p >= 1.0
    decreases if n < 0 then -n else n
  {
    if n == 0 then 1.0 else if n > 0 then 2.0 * Pow2(n - 1) else Pow2(n + 1) / 2.0
  }

  function BackoffSeconds(cfg: Settings, number: int): real {
    var delay := cfg.retryBackoffBaseSeconds * Pow2(number - 1);
    if delay <= cfg.retryBackoffMaxSeconds then delay else cfg.retryBackoffMaxSeconds
  }

  /** The backoff starts at the base, doubles with every attempt, and is capped. */
  lemma BackoffDoublesUpToCap(cfg: Settings, n: nat)
    requires n >= 1 && cfg.retryBackoffBaseSeconds >= 0.0
    ensures BackoffSeconds(cfg, n) <= cfg.retryBackoffMaxSeconds
    ensures BackoffSeconds(cfg, 1) == Least(cfg.retryBackoffBaseSeconds, cfg.retryBackoffMaxSeconds)
    ensures cfg.retryBackoffMaxSeconds >= 0.0 ==>
              BackoffSeconds(cfg, n + 1) == Least(2.0 * BackoffSeconds(cfg, n), cfg.retryBackoffMaxSeconds)
              && BackoffSeconds(cfg, n) <= BackoffSeconds(cfg, n + 1)
  {
    var base, p := cfg.retryBackoffBaseSeconds, Pow2(n - 1);
    assert Pow2(n) == 2.0 * p && Pow2(0) == 1.0;
    assert base * (2.0 * p) == 2.0 * (base * p);
    assert base * p >= 0.0;
  }

  function Least(a: real, b: real): real {
    if a <= b then a else b
  }

  /** `ORDER BY attempt_number DESC LIMIT 1`. */
  function Latest(rows: seq<Attempt>): (r: nat)
    requires rows != []
    ensures r < |rows|
    ensures forall i :: 0 <= i < |rows| ==> rows[i].number <= rows[r].number
  {
    var last := |rows| - 1;
    if last == 0 then 0
    else
      var r := Latest(rows[..last]);
      assert forall i :: 0 <= i < last ==> rows[..last][i] == rows[i];
      if rows[last].number > rows[r].number then last else r
  }

  predicate RetryLeft(cfg: Settings, a: Attempt) {
    a.number < cfg.maxJobAttempts
  }

  function ReadyAt(cfg: Settings, a: Attempt, t: real): real {
    t + BackoffSeconds(cfg, a.number)
  }

  /** `_maybe_retry` on the rows of one job. */
  function Retry(cfg: Settings, job: Job, row: nat, t: real): Job
    requires row < |job.attempts|
  {
    var a := job.attempts[row];
    if RetryLeft(cfg, a) then
      job.(status := JobQueued, attempts := job.attempts + [NewAttempt(a.number + 1, Some(ReadyAt(cfg, a, t)))])
    else
      job.(status := JobErrored)
  }

  /** `claim_next_job` after the pop: lease the latest row, whatever its status. */
  function Lease(cfg: Settings, job: Job, worker: string, token: string, t1: real, t2: real): Job {
    var rows := if job.attempts == [] then [NewAttempt(1, None)] else job.attempts;
    var r := Latest(rows);
    var leased := rows[r].(worker := Some(worker), status := Leased, token := Some(token),
                           expires := Some(t1 + cfg.jobLeaseSeconds), started := Some(t2));
    job.(status := JobRunning, attempts := rows[r := leased])
  }

  function SetRow(job: Job, row: nat, a: Attempt): Job
    requires row < |job.attempts|
  {
    job.(attempts := job.attempts[row := a])
  }

  /** The outcome columns of a reported row, before the retry decision. */
  function Reported(job: Job, row: nat, report: Report, t: real): Job
    requires row < |job.attempts|
  {
    var a := job.attempts[row].(finished := Some(t), exitCode := Some(report.exitCode),
                                failedStep := report.failedStep, permanent := report.permanent);
    if report.exitCode == 0 then SetRow(job, row, a.(status := Succeeded)).(status := JobSucceeded)
    else if report.permanent then SetRow(job, row, a.(status := Failed)).(status := JobFailed)
    else SetRow(job, row, a.(status := InfraError))
  }

  predicate InfraReport(report: Report) {
    report.exitCode != 0 && !report.permanent
  }

  function Finish(cfg: Settings, job: Job, row: nat, report: Report, t1: real, t2: real): Job
    requires row < |job.attempts|
  {
    var done := Reported(job, row, report, t1);
    if InfraReport(report) then Retry(cfg, done, row, t2) else done
  }

  /** `failed_step or "lease_expired"`: an empty string counts as missing. */
  function StepOrLeaseExpired(step: Option<string>): Option<string> {
    if step == None || step == Some("") then Some("lease_expired") else step
  }

  function Lapsed(job: Job, row: nat, t: real): Job
    requires row < |job.attempts|
  {
    var a := job.attempts[row];
    SetRow(job, row, a.(status := InfraError, finished := Some(t), failedStep := StepOrLeaseExpired(a.failedStep)))
  }

  function Reap(cfg: Settings, job: Job, row: nat, t1: real, t2: real): Job
    requires row < |job.attempts|
  {
    Retry(cfg, Lapsed(job, row, t1), row, t2)
  }
}
