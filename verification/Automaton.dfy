/** The life of a job as an automaton of a few phases, and the proof that the
    four stores together implement it: every action of every fault-free run
    moves each job along one transition, or leaves its phase alone. */
module Automaton {
  import opened Options
  import opened DelayedEntry
  import opened SortedSet
  import opened QueueScore
  import opened Records
  import opened JobLife
  import opened Protocol
  import opened Database
  import opened Guarantees
  import opened Tidy

  datatype Phase =
    | Absent
    | Ready(n: int)
    | Backoff(n: int, readyAt: real)
    | Held(n: int, worker: string, token: string, expiry: real)
    | Done(verdict: JobStatus)

  /** What happened to the job, with the clock readings that decided it. */
  datatype Label =
    | Stutter
    | Submitted
    | Promoted(seen: real)
    | Claimed(worker: string, token: string, at: real)
    | Renewed(at: real)
    | CutShort(at: real)
    | ReportedSuccess(seen: real)
    | ReportedFailure(seen: real)
    | ReportedInfra(seen: real, at: real)
    | LeaseLapsed(seen: real, at: real)

  function Failed(cfg: Settings, n: int, at: real): Phase {
    if n < cfg.maxJobAttempts then Backoff(n + 1, at + BackoffSeconds(cfg, n)) else Done(JobErrored)
  }

  /** The transitions of a job that a worker holds: a report counts while the
      lease has not run out, the reaper strikes only once it has. */
  function HeldNext(cfg: Settings, p: Phase, l: Label): Option<Phase>
    requires p.Held?
  {
    match l
    case Renewed(at) => Some(p.(expiry := at + cfg.jobLeaseSeconds))
    case CutShort(at) => Some(p.(expiry := at))
    case ReportedSuccess(seen) => if p.expiry < seen then None else Some(Done(JobSucceeded))
    case ReportedFailure(seen) => if p.expiry < seen then None else Some(Done(JobFailed))
    case ReportedInfra(seen, at) => if p.expiry < seen then None else Some(Failed(cfg, p.n, at))
    case LeaseLapsed(seen, at) => if p.expiry < seen then Some(Failed(cfg, p.n, at)) else None
    case _ => None
  }

  /** The transitions; None where the automaton has none. */
  function Next(cfg: Settings, p: Phase, l: Label): Option<Phase> {
    if l.Stutter? then Some(p)
    else
      match p
      case Absent => if l.Submitted? then Some(Ready(1)) else None
      case Backoff(n, readyAt) => if l.Promoted? && readyAt <= l.seen then Some(Ready(n)) else None
      case Ready(n) =>
        if l.Claimed? then Some(Held(n, l.worker, l.token, l.at + cfg.jobLeaseSeconds)) else None
      case Held(_, _, _, _) => HeldNext(cfg, p, l)
      case Done(_) => None
  }

  /** The phase of a job, read off the jobs table, its last attempt, the live
      queue and the delayed set. (A combination that no tidy state has counts as
      Absent.) */
  function PhaseOf(s: State, job: string): Phase {
    if job !in s.db.jobs || s.db.jobs[job].attempts == [] then Absent
    else
      var row := s.db.jobs[job];
      var last := Last(row);
      match row.status
      case JobQueued =>
        if job in s.redis.queue then Ready(last.number)
        else if EntryOf(s.db, job) in s.redis.delayed then Backoff(last.number, s.redis.delayed[EntryOf(s.db, job)])
        else Absent
      case JobRunning =>
        if last.worker.Some? && last.token.Some? && last.expires.Some? then
          Held(last.number, last.worker.value, last.token.value, last.expires.value)
        else Absent
      case verdict => Done(verdict)
  }

  ghost function LabelOf(e: Env, s: State, op: Op, job: string): Label {
    if op.Create? then
      if op.job == job && Creatable(s.db, job, op.priority, op.pipelineValid) then Submitted else Stutter
    else if op.PromoteOne? then
      if job in s.db.jobs && op.entry == EntryOf(s.db, job) then Promoted(e.tick(op.seen)) else Stutter
    else if op.ReapOne? then
      if op.id.job == job then LeaseLapsed(e.tick(op.seen), e.tick(s.pos + 1)) else Stutter
    else MoveLabel(e, s, MoveOf(e, s, op, job))
  }

  function MoveLabel(e: Env, s: State, m: Move): Label {
    match m
    case Grant(w, token, t1, _) => Claimed(w, token, t1)
    case Extend(at) => Renewed(at)
    case Cut(at) => CutShort(at)
    case Settle(report, _, t2) =>
      if report.exitCode == 0 then ReportedSuccess(Now(e, s))
      else if report.permanent then ReportedFailure(Now(e, s))
      else ReportedInfra(Now(e, s), t2)
    case _ => Stutter
  }

  // ---- the phase after a move -------------------------------------------------------

  /** The phase of a job that does not wait is a function of its rows alone. */
  function RowPhase(job: Job): Phase
    requires job.attempts != []
  {
    var last := Last(job);
    if job.status == JobRunning then
      if last.worker.Some? && last.token.Some? && last.expires.Some? then
        Held(last.number, last.worker.value, last.token.value, last.expires.value)
      else Absent
    else Done(job.status)
  }

  lemma MovePhase(cfg: Settings, job: Job, m: Move)
    requires JobInv(cfg, job) && MoveOk(job, m)
    ensures var job' := JobNext(cfg, job, m);
            && job'.attempts != []
            && match m
               case Grant(w, token, t1, _) =>
                 RowPhase(job') == Held(Last(job).number, w, token, t1 + cfg.jobLeaseSeconds)
               case Extend(at) =>
                 RowPhase(job') == RowPhase(job).(expiry := at + cfg.jobLeaseSeconds)
               case Cut(at) => RowPhase(job') == RowPhase(job).(expiry := at)
               case Settle(report, _, _) =>
                 if report.exitCode == 0 then job'.status == JobSucceeded
                 else if report.permanent then job'.status == JobFailed
                 else FailedStatus(cfg, job, job')
               case Lapse(_, _) => FailedStatus(cfg, job, job')
               case _ => job'.status == job.status && Last(job') == Last(job).(logs := Last(job').logs)
  {
    hide BackoffSeconds, Shape;
    NonEmpty(cfg, job);
    if m.Grant? {
      LatestIsLast(cfg, job);
    }
  }

  predicate FailedStatus(cfg: Settings, job: Job, job': Job)
    requires job.attempts != [] && job'.attempts != []
  {
    if RetryLeft(cfg, Last(job)) then job'.status == JobQueued && Last(job').number == Last(job).number + 1
    else job'.status == JobErrored
  }

  // ---- simulation ----------------------------------------------------------------------

  /** A running job is Held, with every field of its last row in place. */
  lemma RunningIsHeld(e: Env, s: State, job: string)
    requires DbInv(e.cfg, s.db) && job in s.db.jobs && s.db.jobs[job].status == JobRunning
    ensures s.db.jobs[job].attempts != []
    ensures PhaseOf(s, job) == RowPhase(s.db.jobs[job]) && PhaseOf(s, job).Held?
    ensures PhaseOf(s, job).n == Last(s.db.jobs[job]).number
  {
    assert JobInv(e.cfg, s.db.jobs[job]);
  }

  /** What a tidy state says of one job. */
  lemma TidyParts(e: Env, s: State, job: string)
    requires TidyState(e, s) && job in s.db.jobs
    ensures JobInv(e.cfg, s.db.jobs[job]) && s.db.jobs[job].attempts != [] && Placed(e, s, job)
  {
    assert TidyJob(e, s, job);
  }

  /** A failed job's phase, given how its rows and the delayed set were changed. */
  lemma FailedPhase(cfg: Settings, s: State, s': State, job: string, at: real)
    requires job in s.db.jobs && s.db.jobs[job].attempts != [] && s.db.jobs[job].status == JobRunning
    requires job in s'.db.jobs && s'.db.jobs[job].attempts != []
    requires FailedStatus(cfg, s.db.jobs[job], s'.db.jobs[job])
    requires s'.db.jobs[job].priority == s.db.jobs[job].priority
    requires job !in s'.redis.queue
    requires RetryLeft(cfg, Last(s.db.jobs[job])) ==>
               EntryOf(s.db, job) in s'.redis.delayed
               && s'.redis.delayed[EntryOf(s.db, job)] == ReadyAt(cfg, Last(s.db.jobs[job]), at)
    ensures PhaseOf(s', job) == Failed(cfg, Last(s.db.jobs[job]).number, at)
  {
    hide BackoffSeconds, FormatEntry;
  }

  lemma FailureSimulates(e: Env, s: State, op: Op, job: string)
    requires ClockOk(e) && TidyState(e, s) && Enabled(e, s, op) && job in s.db.jobs
    requires op.ReapOne? || (op.CompleteAttempt? && Accepts(e, s, op.id, op.token) && InfraReport(op.report))
    requires op.id.job == job
    ensures var at := e.tick(if op.ReapOne? then s.pos + 1 else s.pos + 2);
            PhaseOf(s, job).Held? && PhaseOf(Step(e, s, op), job) == Failed(e.cfg, PhaseOf(s, job).n, at)
    ensures Some(PhaseOf(s, job).expiry) == TheRow(s.db, op.id).expires
  {
    TidyParts(e, s, job);
    TidyIsDbInv(e, s);
    hide Step, TidyState, JobNext, BackoffSeconds, FormatEntry, Shape, LastAgrees, PhaseOf, Failed;
    hide ClockOk, DbInv, RowPhase;
    var s' := Step(e, s, op);
    var m := MoveOf(e, s, op, job);
    StepMoves(e, s, op, job);
    StepRedis(e, s, op);
    ActiveIsLast(e.cfg, s.db.jobs[job], op.id.row);
    MoveOutcome(e.cfg, s.db.jobs[job], m);
    MovePhase(e.cfg, s.db.jobs[job], m);
    RunningIsHeld(e, s, job);
    FailedPhase(e.cfg, s, s', job, e.tick(if op.ReapOne? then s.pos + 1 else s.pos + 2));
  }

  lemma ReportSimulates(e: Env, s: State, op: Op, job: string)
    requires ClockOk(e) && TidyState(e, s) && Enabled(e, s, op) && job in s.db.jobs
    requires op.CompleteAttempt? && op.id.job == job && Accepts(e, s, op.id, op.token)
    ensures Next(e.cfg, PhaseOf(s, job), LabelOf(e, s, op, job)) == Some(PhaseOf(Step(e, s, op), job))
  {
    hide Step, TidyState, JobNext, FormatEntry, JobInv, Placed, Failed, ClockOk, DbInv;
    if InfraReport(op.report) {
      FailureSimulates(e, s, op, job);
    } else {
      TidyParts(e, s, job);
      TidyIsDbInv(e, s);
      ActiveIsLast(e.cfg, s.db.jobs[job], op.id.row);
      FinalReport(e, s, op, job);
    }
  }

  lemma FinalReport(e: Env, s: State, op: Op, job: string)
    requires DbInv(e.cfg, s.db) && job in s.db.jobs && s.db.jobs[job].status == JobRunning
    requires op.CompleteAttempt? && op.id.job == job && Accepts(e, s, op.id, op.token) && !InfraReport(op.report)
    requires s.db.jobs[job].attempts != [] && op.id.row == |s.db.jobs[job].attempts| - 1
    ensures Next(e.cfg, PhaseOf(s, job), LabelOf(e, s, op, job)) == Some(PhaseOf(Step(e, s, op), job))
  {
    RunningIsHeld(e, s, job);
    assert JobInv(e.cfg, s.db.jobs[job]);
    hide CompleteStep, JobNext, JobInv, DbInv, FormatEntry;
    CompletionMoves(e, s, op.id, op.token, op.report, job);
    MovePhase(e.cfg, s.db.jobs[job], MoveOf(e, s, op, job));
  }

  lemma HeldMove(e: Env, s: State, job: Job, m: Move)
    requires JobInv(e.cfg, job) && MoveOk(job, m) && job.status == JobRunning && RowPhase(job).Held?
    requires m.Stay? || m.Note? || m.Extend? || m.Cut?
    ensures var job' := JobNext(e.cfg, job, m);
            && job'.attempts != [] && job'.status == JobRunning
            && Next(e.cfg, RowPhase(job), MoveLabel(e, s, m)) == Some(RowPhase(job'))
  {
    MovePhase(e.cfg, job, m);
    hide JobNext, JobInv;
  }

  lemma HeldMoves(e: Env, s: State, op: Op, job: string)
    requires job in s.db.jobs && s.db.jobs[job].status == JobRunning
    requires !op.ReapOne? && !op.CompleteAttempt?
    ensures var m := MoveOf(e, s, op, job); m.Stay? || m.Note? || m.Extend? || m.Cut?
  {
  }

  lemma HeldStays(e: Env, s: State, op: Op, job: string)
    requires DbInv(e.cfg, s.db) && Enabled(e, s, op) && job in s.db.jobs
    requires s.db.jobs[job].status == JobRunning && !op.RedisFault?
    requires !op.ReapOne? && !op.CompleteAttempt? && !op.PromoteOne? && !op.Create?
    ensures Next(e.cfg, PhaseOf(s, job), LabelOf(e, s, op, job)) == Some(PhaseOf(Step(e, s, op), job))
  {
    assert JobInv(e.cfg, s.db.jobs[job]);
    hide Step, JobNext, FormatEntry, JobInv, MoveOf, Next, MoveLabel, Enabled, DbInv;
    RunningIsHeld(e, s, job);
    HeldMoves(e, s, op, job);
    StepMoves(e, s, op, job);
    HeldMove(e, s, s.db.jobs[job], MoveOf(e, s, op, job));
  }

  lemma HeldIgnores(e: Env, s: State, op: Op, job: string)
    requires DbInv(e.cfg, s.db) && Enabled(e, s, op) && job in s.db.jobs
    requires s.db.jobs[job].status == JobRunning && MoveOf(e, s, op, job).Stay?
    ensures PhaseOf(Step(e, s, op), job) == PhaseOf(s, job)
  {
    RunningIsHeld(e, s, job);
    StepMoves(e, s, op, job);
    hide Step, FormatEntry, JobInv;
  }

  lemma HeldSimulates(e: Env, s: State, op: Op, job: string)
    requires ClockOk(e) && TidyState(e, s) && Enabled(e, s, op) && job in s.db.jobs
    requires s.db.jobs[job].status == JobRunning && !op.RedisFault?
    ensures Next(e.cfg, PhaseOf(s, job), LabelOf(e, s, op, job)) == Some(PhaseOf(Step(e, s, op), job))
  {
    hide Step, TidyState, FormatEntry, JobInv, PhaseOf, Failed, BackoffSeconds, Placed, DbInv;
    TidyParts(e, s, job);
    TidyIsDbInv(e, s);
    if op.ReapOne? && op.id.job == job {
      FailureSimulates(e, s, op, job);
    } else if op.CompleteAttempt? && op.id.job == job && Accepts(e, s, op.id, op.token) {
      ReportSimulates(e, s, op, job);
    } else if op.ReapOne? || op.CompleteAttempt? || op.PromoteOne? || op.Create? {
      HeldIgnores(e, s, op, job);
    } else {
      HeldStays(e, s, op, job);
    }
  }

  lemma ClaimSimulates(e: Env, s: State, op: Op, job: string)
    requires TidyState(e, s) && Enabled(e, s, op) && job in s.db.jobs && s.db.jobs[job].status == JobQueued
    requires MoveOf(e, s, op, job).Grant?
    ensures Next(e.cfg, PhaseOf(s, job), LabelOf(e, s, op, job)) == Some(PhaseOf(Step(e, s, op), job))
  {
    hide Step, TidyState, JobNext, FormatEntry, JobInv, IsMin, DbInv;
    TidyParts(e, s, job);
    TidyIsDbInv(e, s);
    StepMoves(e, s, op, job);
    MovePhase(e.cfg, s.db.jobs[job], MoveOf(e, s, op, job));
    PopIsQueued(s);
  }

  lemma WaitingSimulates(e: Env, s: State, op: Op, job: string)
    requires ClockOk(e) && TidyState(e, s) && Enabled(e, s, op) && job in s.db.jobs
    requires s.db.jobs[job].status == JobQueued && !op.RedisFault?
    ensures Next(e.cfg, PhaseOf(s, job), LabelOf(e, s, op, job)) == Some(PhaseOf(Step(e, s, op), job))
  {
    hide Step, TidyState, JobNext, FormatEntry, JobInv, Enabled, DbInv, MoveOf, LabelOf;
    TidyParts(e, s, job);
    TidyIsDbInv(e, s);
    var m := MoveOf(e, s, op, job);
    WaitingMoves(e, s, op, job);
    if m.Grant? {
      ClaimSimulates(e, s, op, job);
    } else {
      StepMoves(e, s, op, job);
      MovePhase(e.cfg, s.db.jobs[job], m);
      MoveOutcome(e.cfg, s.db.jobs[job], m);
      WaitingSets(e, s, op, job);
      WaitingLabel(e, s, op, job);
    }
  }

  lemma WaitingLabel(e: Env, s: State, op: Op, job: string)
    requires TidyState(e, s) && Enabled(e, s, op) && job in s.db.jobs && s.db.jobs[job].status == JobQueued
    requires !MoveOf(e, s, op, job).Grant?
    ensures if op.PromoteOne? && op.entry == EntryOf(s.db, job)
            then LabelOf(e, s, op, job) == Promoted(e.tick(op.seen)) && op.entry in s.redis.delayed
                 && s.redis.delayed[op.entry] <= e.tick(op.seen)
            else LabelOf(e, s, op, job) == Stutter
  {
    TidyIsDbInv(e, s);
    hide FormatEntry, WellFormed, TidyState, BackoffSeconds;
    WaitingMoves(e, s, op, job);
  }

  /** Nothing but a claim or a stray log tail can touch a waiting job's rows. */
  lemma WaitingMoves(e: Env, s: State, op: Op, job: string)
    requires DbInv(e.cfg, s.db) && Enabled(e, s, op) && job in s.db.jobs && s.db.jobs[job].status == JobQueued
    ensures var m := MoveOf(e, s, op, job); m.Stay? || m.Note? || m.Grant?
  {
    StepMoves(e, s, op, job);
  }

  /** Neither set moves, as far as a job is concerned. */
  ghost predicate SameSets(db: Db, r: Redis, r': Redis, job: string)
    requires job in db.jobs
  {
    var entry := EntryOf(db, job);
    && (job in r'.queue <==> job in r.queue)
    && (entry in r'.delayed <==> entry in r.delayed)
    && (entry in r'.delayed ==> r'.delayed[entry] == r.delayed[entry])
  }

  lemma PromotionSets(e: Env, s: State, op: Op, job: string)
    requires TidyState(e, s) && Enabled(e, s, op) && job in s.db.jobs && op.PromoteOne?
    ensures var r, entry := Step(e, s, op).redis, EntryOf(s.db, job);
            if op.entry == entry then job in r.queue && entry !in r.delayed else SameSets(s.db, s.redis, r, job)
  {
    hide Step, FormatEntry, ParseEntry, WellFormed, TidyState, Score;
    PromotedIsNamed(e, s, op.entry);
    EntryRoundTrip(job, s.db.jobs[job].priority);
    StepRedis(e, s, op);
  }

  lemma RetrySets(e: Env, s: State, op: Op, job: string)
    requires job in s.db.jobs && (op.CompleteAttempt? || op.ReapOne?) && op.id.job != job
    ensures SameSets(s.db, s.redis, Step(e, s, op).redis, job)
  {
    hide Step, FormatEntry, BackoffSeconds;
    StepRedis(e, s, op);
    if op.id.job in s.db.jobs {
      OthersEntry(s.db, job, op.id.job);
    }
  }

  lemma CreateSets(e: Env, s: State, j: string, p: int, ok: bool, job: string)
    requires job in s.db.jobs
    ensures SameSets(s.db, s.redis, CreateStep(e, s, j, p, ok).redis, job)
  {
    hide FormatEntry, Score;
  }

  lemma ClaimSets(e: Env, s: State, w: string, token: string, job: string)
    requires job in s.db.jobs && !(Pops(s, w) && Popped(s) == job)
    ensures SameSets(s.db, s.redis, ClaimStep(e, s, w, token).redis, job)
  {
    hide FormatEntry, Lease, IsMin;
  }

  lemma RejectedSets(e: Env, s: State, id: AttemptId, token: string, report: Report)
    requires !Accepts(e, s, id, token)
    ensures CompleteStep(e, s, id, token, report).redis == s.redis
  {
  }

  /** The two sets, as far as a waiting job that is not claimed is concerned. */
  lemma WaitingSets(e: Env, s: State, op: Op, job: string)
    requires TidyState(e, s) && Enabled(e, s, op) && job in s.db.jobs && s.db.jobs[job].status == JobQueued
    requires MoveOf(e, s, op, job).Stay? || MoveOf(e, s, op, job).Note?
    requires !op.RedisFault?
    ensures var r, entry := Step(e, s, op).redis, EntryOf(s.db, job);
            if op.PromoteOne? && op.entry == entry then job in r.queue && entry !in r.delayed
            else SameSets(s.db, s.redis, r, job)
  {
    hide ClaimStep, CreateStep, CompleteStep, ReapStep, PromoteStep, RequeueStep, FormatEntry, TidyState, IsMin, DbInv;
    TidyIsDbInv(e, s);
    if Quiet(op) {
      QuietRedis(e, s, op);
    } else if op.Create? {
      CreateSets(e, s, op.job, op.priority, op.pipelineValid, job);
    } else if op.Claim? {
      ClaimSets(e, s, op.worker, op.token, job);
    } else if op.PromoteOne? {
      PromotionSets(e, s, op, job);
    } else if op.RequeueOrphan? {
      NothingToReconcile(e.cfg, s.db, [op.job]);
    } else if op.ReapOne? || op.id.job != job {
      RetrySets(e, s, op, job);
    } else {
      RejectedSets(e, s, op.id, op.token, op.report);
    }
  }

  /** Simulation: along every action of a fault-free run each job takes exactly
      one transition of the automaton, or stutters. */
  lemma StepSimulates(e: Env, s: State, op: Op, job: string)
    requires ClockOk(e) && TidyState(e, s) && Enabled(e, s, op) && !op.RedisFault?
    ensures Next(e.cfg, PhaseOf(s, job), LabelOf(e, s, op, job)) == Some(PhaseOf(Step(e, s, op), job))
  {
    TidyIsDbInv(e, s);
    var s' := Step(e, s, op);
    if job in s.db.jobs {
      assert TidyJob(e, s, job);
      match s.db.jobs[job].status
      case JobQueued => WaitingSimulates(e, s, op, job);
      case JobRunning => HeldSimulates(e, s, op, job);
      case _ => FinishedSimulates(e, s, op, job);
    } else {
      AbsentSimulates(e, s, op, job);
    }
  }

  lemma FinishedSimulates(e: Env, s: State, op: Op, job: string)
    requires ClockOk(e) && TidyState(e, s) && Enabled(e, s, op) && !op.RedisFault? && job in s.db.jobs
    requires s.db.jobs[job].status != JobQueued && s.db.jobs[job].status != JobRunning
    ensures Next(e.cfg, PhaseOf(s, job), LabelOf(e, s, op, job)) == Some(PhaseOf(Step(e, s, op), job))
  {
    hide Step, JobNext, FormatEntry, TidyState, JobInv, DbInv;
    TidyParts(e, s, job);
    TidyIsDbInv(e, s);
    StepMoves(e, s, op, job);
    MovePhase(e.cfg, s.db.jobs[job], MoveOf(e, s, op, job));
  }

  lemma AbsentSimulates(e: Env, s: State, op: Op, job: string)
    requires ClockOk(e) && TidyState(e, s) && Enabled(e, s, op) && !op.RedisFault? && job !in s.db.jobs
    ensures Next(e.cfg, PhaseOf(s, job), LabelOf(e, s, op, job)) == Some(PhaseOf(Step(e, s, op), job))
  {
    TidyIsDbInv(e, s);
    StepRedis(e, s, op);
    var s' := Step(e, s, op);
    if job in s'.db.jobs {
      StepCreates(e, s, op, job);
    }
    hide FormatEntry, ParseEntry, Score, BackoffSeconds, Lease, Latest, IsMin, TidyState;
  }

  // ---- whole runs ------------------------------------------------------------------------

  ghost function Trace(e: Env, s: State, ops: seq<Op>, job: string): (labels: seq<Label>)
    ensures |labels| == |ops|
  {
    if ops == [] then []
    else
      var front := ops[..|ops| - 1];
      Trace(e, s, front, job) + [LabelOf(e, Run(e, s, front), ops[|ops| - 1], job)]
  }

  function Walk(cfg: Settings, p: Phase, labels: seq<Label>): Option<Phase> {
    if labels == [] then Some(p)
    else
      match Walk(cfg, p, labels[..|labels| - 1])
      case None => None
      case Some(q) => Next(cfg, q, labels[|labels| - 1])
  }

  /** Refinement: whatever requests and sweeps a fault-free run interleaves, the
      stores carry each job along a walk of the automaton, never off it. */
  lemma {:induction false} RunRefinesAutomaton(e: Env, s: State, ops: seq<Op>, job: string)
    requires ClockOk(e) && TidyState(e, s) && EnabledRun(e, s, ops) && Faultless(ops)
    ensures Walk(e.cfg, PhaseOf(s, job), Trace(e, s, ops, job)) == Some(PhaseOf(Run(e, s, ops), job))
  {
    hide Step, Enabled, TidyState, PhaseOf, LabelOf, Next;
    if ops != [] {
      var front, last := ops[..|ops| - 1], ops[|ops| - 1];
      RunLast(e, s, ops);
      RunRefinesAutomaton(e, s, front, job);
      RunKeepsTidy(e, s, front);
      StepSimulates(e, Run(e, s, front), last, job);
      assert Trace(e, s, ops, job)[..|ops| - 1] == Trace(e, s, front, job);
    }
  }

  // ---- termination -------------------------------------------------------------------------

  /** Transitions that bring the job nearer to a verdict. */
  predicate Advances(l: Label) {
    !(l.Stutter? || l.Renewed? || l.CutShort?)
  }

  predicate WithinBudget(cfg: Settings, p: Phase) {
    p.Ready? || p.Backoff? || p.Held? ==> 1 <= p.n <= Budget(cfg)
  }

  /** Lexicographic: attempts left, then backoff > ready > held, then done. */
  function Remaining(cfg: Settings, p: Phase): int {
    match p
    case Absent => 3 * Budget(cfg) + 1
    case Backoff(n, _) => 3 * (Budget(cfg) - n) + 3
    case Ready(n) => 3 * (Budget(cfg) - n) + 2
    case Held(n, _, _, _) => 3 * (Budget(cfg) - n) + 1
    case Done(_) => 0
  }

  lemma NextDescends(cfg: Settings, p: Phase, l: Label)
    requires WithinBudget(cfg, p) && Next(cfg, p, l).Some?
    ensures WithinBudget(cfg, Next(cfg, p, l).value)
    ensures Remaining(cfg, Next(cfg, p, l).value) >= 0
    ensures if Advances(l) then Remaining(cfg, Next(cfg, p, l).value) < Remaining(cfg, p)
            else Remaining(cfg, Next(cfg, p, l).value) == Remaining(cfg, p)
  {
    hide BackoffSeconds;
  }

  function AdvanceCount(labels: seq<Label>): nat {
    if labels == [] then 0
    else AdvanceCount(labels[..|labels| - 1]) + if Advances(labels[|labels| - 1]) then 1 else 0
  }

  lemma {:induction false} WalksAreShort(cfg: Settings, p: Phase, labels: seq<Label>)
    requires WithinBudget(cfg, p) && Walk(cfg, p, labels).Some?
    ensures WithinBudget(cfg, Walk(cfg, p, labels).value)
    ensures AdvanceCount(labels) + Remaining(cfg, Walk(cfg, p, labels).value) <= Remaining(cfg, p)
  {
    if labels != [] {
      var front := labels[..|labels| - 1];
      WalksAreShort(cfg, p, front);
      NextDescends(cfg, Walk(cfg, p, front).value, labels[|labels| - 1]);
    }
  }

  /** No job is worked on forever: however long a fault-free run goes on, a job
      advances at most 3 * max(1, max_job_attempts) + 1 times in it. */
  lemma JobsTerminate(e: Env, ops: seq<Op>, job: string)
    requires ClockOk(e) && EnabledRun(e, InitialState(), ops) && Faultless(ops)
    ensures var labels := Trace(e, InitialState(), ops, job);
            AdvanceCount(labels) + Remaining(e.cfg, PhaseOf(Run(e, InitialState(), ops), job)) <= 3 * Budget(e.cfg) + 1
    ensures AdvanceCount(Trace(e, InitialState(), ops, job)) <= 3 * Budget(e.cfg) + 1
  {
    InitialIsTidy(e);
    RunRefinesAutomaton(e, InitialState(), ops, job);
    var labels := Trace(e, InitialState(), ops, job);
    assert PhaseOf(InitialState(), job) == Absent;
    WalksAreShort(e.cfg, Absent, labels);
    var end := PhaseOf(Run(e, InitialState(), ops), job);
    assert Remaining(e.cfg, end) >= 0;
  }
}
