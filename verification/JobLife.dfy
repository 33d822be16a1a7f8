/** The life of one job: what its rows look like at every moment, and the moves
    that the server's actions can make on them. */
module JobLife {
  import opened Options
  import opened Records

  function Budget(cfg: Settings): int {
    if cfg.maxJobAttempts < 1 then 1 else cfg.maxJobAttempts
  }

  predicate Claimed(a: Attempt) {
    a.worker.Some? && a.token.Some? && a.expires.Some? && a.started.Some?
  }

  /** Waiting for a worker: LEASED, but leased to nobody. */
  predicate Unclaimed(a: Attempt) {
    a.status == Leased && a.worker == None && a.token == None && a.expires == None
    && a.started == None && a.finished == None
  }

  predicate Settled(a: Attempt, status: AttemptStatus) {
    a.status == status && Claimed(a) && a.finished.Some?
  }

  function Last(job: Job): Attempt
    requires job.attempts != []
  {
    job.attempts[|job.attempts| - 1]
  }

  /** The job's status is a function of its last attempt. */
  predicate LastAgrees(cfg: Settings, status: JobStatus, last: Attempt) {
    match status
    case JobQueued => Unclaimed(last)
    case JobRunning => Active(last) && Claimed(last) && last.finished == None
    case JobSucceeded => Settled(last, Succeeded)
    case JobFailed => Settled(last, Failed)
    case JobErrored => Settled(last, InfraError) && last.number == Budget(cfg)
    case JobCancelled => false
  }

  /** The outcome columns tell how a row got its status: a report with the right
      exit code and classification, or the reaper, which leaves no exit code. */
  predicate OutcomeAgrees(a: Attempt) {
    match a.status
    case Leased => a.exitCode == None && a.failedStep == None && !a.permanent
    case Running => a.exitCode == None && a.failedStep == None && !a.permanent
    case Succeeded => a.exitCode == Some(0)
    case Failed => a.exitCode.Some? && a.exitCode.value != 0 && a.permanent
    case InfraError =>
      !a.permanent && (if a.exitCode.Some? then a.exitCode.value != 0 else a.failedStep == Some("lease_expired"))
    case Cancelled => false
  }

  /** Attempts are numbered 1..n within the budget; all but the last failed for
      infrastructure reasons; every row's outcome explains its status. */
  predicate Shape(cfg: Settings, job: Job) {
    && 1 <= |job.attempts| <= Budget(cfg)
    && (forall i :: 0 <= i < |job.attempts| ==> job.attempts[i].number == i + 1)
    && (forall i :: 0 <= i < |job.attempts| ==> (job.attempts[i].nextRetry.Some? <==> i > 0))
    && (forall i :: 0 <= i < |job.attempts| - 1 ==> Settled(job.attempts[i], InfraError))
    && (forall i :: 0 <= i < |job.attempts| ==> OutcomeAgrees(job.attempts[i]))
  }

  predicate JobInv(cfg: Settings, job: Job) {
    Shape(cfg, job) && LastAgrees(cfg, job.status, Last(job))
  }

  predicate Final(status: JobStatus) {
    status == JobSucceeded || status == JobFailed || status == JobErrored
  }

  // ---- moves ------------------------------------------------------------------

  datatype Move =
    | Stay
    | Note(row: nat, text: string)
    | Grant(worker: string, token: string, t1: real, t2: real)
    | Extend(at: real)
    | Cut(at: real)
    | Settle(report: Report, t1: real, t2: real)
    | Lapse(t1: real, t2: real)

  predicate MoveOk(job: Job, m: Move) {
    && job.attempts != []
    && match m
       case Stay => true
       case Note(row, _) => row < |job.attempts|
       case Grant(_, _, _, _) => job.status == JobQueued
       case _ => job.status == JobRunning
  }

  function JobNext(cfg: Settings, job: Job, m: Move): Job
    requires MoveOk(job, m)
  {
    var last := |job.attempts| - 1;
    match m
    case Stay => job
    case Note(row, text) => SetRow(job, row, job.attempts[row].(logs := job.attempts[row].logs + text))
    case Grant(w, token, t1, t2) => Lease(cfg, job, w, token, t1, t2)
    case Extend(at) => SetRow(job, last, Last(job).(expires := Some(at + cfg.jobLeaseSeconds), status := Running))
    case Cut(at) => SetRow(job, last, Last(job).(expires := Some(at)))
    case Settle(report, t1, t2) => Finish(cfg, job, last, report, t1, t2)
    case Lapse(t1, t2) => Reap(cfg, job, last, t1, t2)
  }

  lemma SetLastKeepsShape(cfg: Settings, job: Job, a: Attempt)
    requires Shape(cfg, job) && a.number == Last(job).number && a.nextRetry == Last(job).nextRetry
    requires OutcomeAgrees(a)
    ensures Shape(cfg, SetRow(job, |job.attempts| - 1, a)) && Last(SetRow(job, |job.attempts| - 1, a)) == a
  {
    var job' := SetRow(job, |job.attempts| - 1, a);
    assert forall i :: 0 <= i < |job.attempts| - 1 ==> job'.attempts[i] == job.attempts[i];
  }

  lemma RetryKeepsInv(cfg: Settings, job: Job, t: real)
    requires Shape(cfg, job) && Settled(Last(job), InfraError)
    ensures JobInv(cfg, Retry(cfg, job, |job.attempts| - 1, t))
  {
    hide BackoffSeconds;
    var n := |job.attempts|;
    var job' := Retry(cfg, job, n - 1, t);
    assert forall i :: 0 <= i < n ==> job'.attempts[i] == job.attempts[i];
  }

  lemma MoveKeepsInv(cfg: Settings, job: Job, m: Move)
    requires JobInv(cfg, job) && MoveOk(job, m)
    ensures JobInv(cfg, JobNext(cfg, job, m))
  {
    hide BackoffSeconds, Shape, Retry;
    var last := |job.attempts| - 1;
    NonEmpty(cfg, job);
    match m
    case Stay =>
    case Note(row, text) => NoteKeepsInv(cfg, job, row, text);
    case Grant(w, token, t1, t2) =>
      LatestIsLast(cfg, job);
      SetLastKeepsShape(cfg, job, Last(Lease(cfg, job, w, token, t1, t2)));
      SetStatusKeepsShape(cfg, SetRow(job, last, Last(Lease(cfg, job, w, token, t1, t2))), JobRunning);
    case Extend(at) => SetLastKeepsShape(cfg, job, Last(JobNext(cfg, job, m)));
    case Cut(at) => SetLastKeepsShape(cfg, job, Last(JobNext(cfg, job, m)));
    case Settle(report, t1, t2) =>
      var done := Reported(job, last, report, t1);
      SetLastKeepsShape(cfg, job, Last(done));
      SetStatusKeepsShape(cfg, SetRow(job, last, Last(done)), done.status);
      if InfraReport(report) {
        RetryKeepsInv(cfg, done, t2);
      }
    case Lapse(t1, t2) =>
      SetLastKeepsShape(cfg, job, Last(Lapsed(job, last, t1)));
      RetryKeepsInv(cfg, Lapsed(job, last, t1), t2);
  }

  lemma NonEmpty(cfg: Settings, job: Job)
    requires Shape(cfg, job)
    ensures 1 <= |job.attempts| && OutcomeAgrees(Last(job))
  {
  }

  lemma SetStatusKeepsShape(cfg: Settings, job: Job, status: JobStatus)
    requires Shape(cfg, job)
    ensures Shape(cfg, job.(status := status))
  {
  }

  lemma NoteKeepsInv(cfg: Settings, job: Job, row: nat, text: string)
    requires JobInv(cfg, job) && row < |job.attempts|
    ensures JobInv(cfg, JobNext(cfg, job, Note(row, text)))
  {
    var job' := JobNext(cfg, job, Note(row, text));
    assert forall i :: 0 <= i < |job.attempts| ==> job'.attempts[i] == job.attempts[i].(logs := job'.attempts[i].logs);
  }

  lemma LatestIsLast(cfg: Settings, job: Job)
    requires JobInv(cfg, job)
    ensures Latest(job.attempts) == |job.attempts| - 1
  {
    assert Last(job).number == |job.attempts|;
  }

  /** Only the last row can be active, and only while the job waits or runs. */
  lemma ActiveIsLast(cfg: Settings, job: Job, row: nat)
    requires JobInv(cfg, job) && row < |job.attempts| && Active(job.attempts[row])
    ensures row == |job.attempts| - 1
    ensures job.attempts[row].token.Some? || job.attempts[row].expires.Some? || job.attempts[row].worker.Some?
            ==> job.status == JobRunning
  {
    if row < |job.attempts| - 1 {
      assert false;
    }
  }

  // ---- what later states keep ---------------------------------------------------

  /** Once granted, owner and token stay; once terminal, the outcome stays; a log
      only ever grows at its end. */
  predicate RowLater(a: Attempt, a': Attempt) {
    && a'.number == a.number && a'.nextRetry == a.nextRetry && a.logs <= a'.logs
    && (a.token.Some? ==> a'.token == a.token && a'.worker == a.worker && a'.started == a.started)
    && (!Active(a) ==>
          a'.status == a.status && a'.finished == a.finished && a'.exitCode == a.exitCode
          && a'.failedStep == a.failedStep && a'.permanent == a.permanent && a'.expires == a.expires)
  }

  predicate Later(job: Job, job': Job) {
    && job'.priority == job.priority
    && |job.attempts| <= |job'.attempts|
    && (forall i :: 0 <= i < |job.attempts| ==> RowLater(job.attempts[i], job'.attempts[i]))
    && (Final(job.status) ==> job'.status == job.status && |job'.attempts| == |job.attempts|)
  }

  /** Nothing but stored log text tells the two apart. */
  predicate SameButLogs(job: Job, job': Job) {
    && job'.status == job.status && job'.priority == job.priority
    && |job'.attempts| == |job.attempts|
    && forall i :: 0 <= i < |job.attempts| ==>
         job'.attempts[i] == job.attempts[i].(logs := job'.attempts[i].logs)
  }

  lemma LaterTransitive(a: Job, b: Job, c: Job)
    requires Later(a, b) && Later(b, c)
    ensures Later(a, c)
  {
    forall i | 0 <= i < |a.attempts|
      ensures RowLater(a.attempts[i], c.attempts[i])
    {
      assert RowLater(a.attempts[i], b.attempts[i]) && RowLater(b.attempts[i], c.attempts[i]);
    }
  }

  lemma SetRowIsLater(job: Job, row: nat, a: Attempt, status: JobStatus)
    requires row < |job.attempts| && RowLater(job.attempts[row], a)
    requires Final(job.status) ==> status == job.status
    ensures Later(job, SetRow(job, row, a).(status := status))
  {
    forall i | 0 <= i < |job.attempts|
      ensures RowLater(job.attempts[i], SetRow(job, row, a).attempts[i])
    {
    }
  }

  lemma StayIsLater(job: Job)
    ensures Later(job, job)
  {
  }

  lemma RetryIsLater(cfg: Settings, job: Job, row: nat, t: real)
    requires row < |job.attempts| && !Final(job.status)
    ensures Later(job, Retry(cfg, job, row, t))
  {
    hide BackoffSeconds;
  }

  lemma MoveIsLater(cfg: Settings, job: Job, m: Move)
    requires JobInv(cfg, job) && MoveOk(job, m)
    ensures Later(job, JobNext(cfg, job, m))
  {
    hide BackoffSeconds, OutcomeAgrees, Shape, Retry, Later;
    NonEmpty(cfg, job);
    var last := |job.attempts| - 1;
    match m
    case Stay => StayIsLater(job);
    case Note(row, text) => SetRowIsLater(job, row, JobNext(cfg, job, m).attempts[row], job.status);
    case Grant(_, _, _, _) =>
      LatestIsLast(cfg, job);
      SetRowIsLater(job, last, Last(JobNext(cfg, job, m)), JobRunning);
    case Extend(_) => SetRowIsLater(job, last, Last(JobNext(cfg, job, m)), job.status);
    case Cut(_) => SetRowIsLater(job, last, Last(JobNext(cfg, job, m)), job.status);
    case Settle(report, t1, t2) =>
      var done := Reported(job, last, report, t1);
      SetRowIsLater(job, last, Last(done), done.status);
      if InfraReport(report) {
        RetryIsLater(cfg, done, last, t2);
        LaterTransitive(job, done, JobNext(cfg, job, m));
      }
    case Lapse(t1, t2) =>
      var done := Lapsed(job, last, t1);
      SetRowIsLater(job, last, Last(done), done.status);
      RetryIsLater(cfg, done, last, t2);
      LaterTransitive(job, done, JobNext(cfg, job, m));
  }

  /** How many of the job's attempts have been leased to a worker. */
  function GrantedRows(job: Job): int {
    |job.attempts| - if job.status == JobQueued then 1 else 0
  }

  lemma MoveCountsGrants(cfg: Settings, job: Job, m: Move)
    requires JobInv(cfg, job) && MoveOk(job, m)
    ensures GrantedRows(JobNext(cfg, job, m)) == GrantedRows(job) + if m.Grant? then 1 else 0
  {
    if m.Grant? {
      LatestIsLast(cfg, job);
    }
  }
}
