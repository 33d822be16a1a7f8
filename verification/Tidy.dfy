/** Runs without Redis faults: the live queue and the delayed set account for
    exactly the waiting jobs, one entry each, and retries keep their distance. */
module Tidy {
  import opened Options
  import opened DelayedEntry
  import opened SortedSet
  import opened QueueScore
  import opened Records
  import opened JobLife
  import opened Protocol
  import opened Database
  import opened Guarantees

  function EntryOf(db: Db, job: string): string
    requires job in db.jobs
  {
    FormatEntry(job, db.jobs[job].priority)
  }

  predicate Due(a: Attempt, t: real) {
    a.nextRetry.Some? ==> a.nextRetry.value <= t
  }

  /** Where the two sets hold the job: a waiting job in exactly one of them, any
      other job in neither. A delayed entry is scored with the retry time of the
      waiting attempt, which has passed for a job in the live queue. */
  ghost predicate Placed(e: Env, s: State, job: string)
    requires job in s.db.jobs && s.db.jobs[job].attempts != []
  {
    var live, delayed := job in s.redis.queue, EntryOf(s.db, job) in s.redis.delayed;
    var last := Last(s.db.jobs[job]);
    if s.db.jobs[job].status == JobQueued then
      && live != delayed
      && (live ==> Due(last, Now(e, s)))
      && (delayed ==> last.nextRetry == Some(s.redis.delayed[EntryOf(s.db, job)]))
    else !live && !delayed
  }

  /** A delayed entry was printed for an existing job, with its priority. */
  predicate Named(db: Db, entry: string) {
    && WellFormed(entry)
    && ParseEntry(entry).value.0 in db.jobs
    && entry == EntryOf(db, ParseEntry(entry).value.0)
  }

  /** An attempt is retried no earlier than its predecessor's finish plus the
      backoff, and starts no earlier than that. */
  predicate PacedRow(cfg: Settings, before: Attempt, after: Attempt) {
    && before.finished.Some? && after.nextRetry.Some?
    && after.nextRetry.value >= before.finished.value + BackoffSeconds(cfg, before.number)
    && (after.started.Some? ==> after.started.value >= after.nextRetry.value)
  }

  predicate Paced(cfg: Settings, job: Job) {
    forall i :: 0 < i < |job.attempts| ==> PacedRow(cfg, job.attempts[i - 1], job.attempts[i])
  }

  ghost predicate TidyJob(e: Env, s: State, job: string)
    requires job in s.db.jobs
  {
    JobInv(e.cfg, s.db.jobs[job]) && Placed(e, s, job) && Paced(e.cfg, s.db.jobs[job])
  }

  ghost predicate TidyState(e: Env, s: State) {
    && s.redis.queue.Keys <= s.db.jobs.Keys
    && (forall entry :: entry in s.redis.delayed ==> Named(s.db, entry))
    && (forall j :: j in s.db.jobs ==> TidyJob(e, s, j))
  }

  lemma TidyIsDbInv(e: Env, s: State)
    requires TidyState(e, s)
    ensures DbInv(e.cfg, s.db)
  {
    forall j | j in s.db.jobs
      ensures JobInv(e.cfg, s.db.jobs[j])
    {
      assert TidyJob(e, s, j);
    }
  }

  // ---- one job's side of a move ---------------------------------------------------

  lemma MoveOutcome(cfg: Settings, job: Job, m: Move)
    requires JobInv(cfg, job) && MoveOk(job, m)
    ensures var job' := JobNext(cfg, job, m);
            && job'.priority == job.priority && job'.attempts != []
            && match m
               case Grant(_, _, _, _) => job'.status == JobRunning
               case Settle(report, _, t2) =>
                 && job'.status != JobRunning
                 && (job'.status == JobQueued <==> InfraReport(report) && RetryLeft(cfg, Last(job)))
                 && (job'.status == JobQueued ==> Last(job').nextRetry == Some(ReadyAt(cfg, Last(job), t2)))
               case Lapse(_, t2) =>
                 && job'.status != JobRunning
                 && (job'.status == JobQueued <==> RetryLeft(cfg, Last(job)))
                 && (job'.status == JobQueued ==> Last(job').nextRetry == Some(ReadyAt(cfg, Last(job), t2)))
               case _ => job'.status == job.status && Last(job').nextRetry == Last(job).nextRetry
  {
    hide BackoffSeconds, Latest, Shape;
    NonEmpty(cfg, job);
  }

  predicate MoveInOrder(job: Job, m: Move)
    requires job.attempts != []
  {
    match m
    case Grant(_, _, t1, t2) => t1 <= t2 && Due(Last(job), t1)
    case Settle(_, t1, t2) => t1 <= t2
    case Lapse(t1, t2) => t1 <= t2
    case _ => true
  }

  lemma SetLastKeepsPace(cfg: Settings, job: Job, a: Attempt)
    requires Paced(cfg, job) && job.attempts != []
    requires a.nextRetry == Last(job).nextRetry
    requires a.started == Last(job).started || (a.started.Some? && Due(a, a.started.value))
    ensures Paced(cfg, SetRow(job, |job.attempts| - 1, a))
  {
    hide BackoffSeconds;
    var job' := SetRow(job, |job.attempts| - 1, a);
    forall i | 0 < i < |job'.attempts|
      ensures PacedRow(cfg, job'.attempts[i - 1], job'.attempts[i])
    {
      assert PacedRow(cfg, job.attempts[i - 1], job.attempts[i]);
    }
  }

  lemma RetryKeepsPace(cfg: Settings, job: Job, t: real)
    requires Paced(cfg, job) && job.attempts != []
    requires Last(job).finished.Some? && Last(job).finished.value <= t
    ensures Paced(cfg, Retry(cfg, job, |job.attempts| - 1, t))
  {
    hide BackoffSeconds;
    var n := |job.attempts|;
    var job' := Retry(cfg, job, n - 1, t);
    forall i | 0 < i < |job'.attempts|
      ensures PacedRow(cfg, job'.attempts[i - 1], job'.attempts[i])
    {
      if i < n {
        assert PacedRow(cfg, job.attempts[i - 1], job.attempts[i]);
      }
    }
  }

  lemma MoveKeepsPace(cfg: Settings, job: Job, m: Move)
    requires JobInv(cfg, job) && MoveOk(job, m) && MoveInOrder(job, m) && Paced(cfg, job)
    ensures Paced(cfg, JobNext(cfg, job, m))
  {
    hide BackoffSeconds, Paced, Retry, Shape;
    NonEmpty(cfg, job);
    var last := |job.attempts| - 1;
    match m
    case Stay =>
    case Note(row, text) => NoteKeepsPace(cfg, job, row, text);
    case Grant(w, token, t1, t2) =>
      LatestIsLast(cfg, job);
      SetLastKeepsPace(cfg, job, Last(JobNext(cfg, job, m)));
      StatusIsNoPace(cfg, SetRow(job, last, Last(JobNext(cfg, job, m))), JobRunning);
    case Extend(at) => SetLastKeepsPace(cfg, job, Last(JobNext(cfg, job, m)));
    case Cut(at) => SetLastKeepsPace(cfg, job, Last(JobNext(cfg, job, m)));
    case Settle(report, t1, t2) =>
      var done := Reported(job, last, report, t1);
      SetLastKeepsPace(cfg, job, Last(done));
      StatusIsNoPace(cfg, SetRow(job, last, Last(done)), done.status);
      if InfraReport(report) {
        RetryKeepsPace(cfg, done, t2);
      }
    case Lapse(t1, t2) =>
      SetLastKeepsPace(cfg, job, Last(Lapsed(job, last, t1)));
      RetryKeepsPace(cfg, Lapsed(job, last, t1), t2);
  }

  lemma StatusIsNoPace(cfg: Settings, job: Job, status: JobStatus)
    requires Paced(cfg, job)
    ensures Paced(cfg, job.(status := status))
  {
  }

  lemma NoteKeepsPace(cfg: Settings, job: Job, row: nat, text: string)
    requires Paced(cfg, job) && row < |job.attempts|
    ensures Paced(cfg, JobNext(cfg, job, Note(row, text)))
  {
    hide BackoffSeconds;
    var job' := JobNext(cfg, job, Note(row, text));
    forall i | 0 < i < |job'.attempts|
      ensures PacedRow(cfg, job'.attempts[i - 1], job'.attempts[i])
    {
      assert PacedRow(cfg, job.attempts[i - 1], job.attempts[i]);
    }
  }

  // ---- the effect of an action on the two sets ------------------------------------

  /** What an action does to Redis, given what it does to the jobs. */
  ghost predicate RedisEffect(e: Env, s: State, op: Op, r: Redis) {
    match op
    case Create(j, p, ok) =>
      && r.delayed == s.redis.delayed
      && r.queue == if Creatable(s.db, j, p, ok) then s.redis.queue[j := Score(e.rnd, p, Now(e, s))] else s.redis.queue
    case Claim(w, _) =>
      r.delayed == s.redis.delayed && r.queue == if Pops(s, w) then s.redis.queue - {Popped(s)} else s.redis.queue
    case CompleteAttempt(id, token, report) =>
      if Accepts(e, s, id, token) && InfraReport(report) && RetryLeft(e.cfg, TheRow(s.db, id)) then
        r.queue == s.redis.queue
        && r.delayed ==
           s.redis.delayed[EntryOf(s.db, id.job) := ReadyAt(e.cfg, TheRow(s.db, id), e.tick(s.pos + 2))]
      else r == s.redis
    case ReapOne(id, _) =>
      if HasRow(s.db, id) && RetryLeft(e.cfg, TheRow(s.db, id)) then
        r.queue == s.redis.queue
        && r.delayed ==
           s.redis.delayed[EntryOf(s.db, id.job) := ReadyAt(e.cfg, TheRow(s.db, id), e.tick(s.pos + 1))]
      else r == s.redis
    case PromoteOne(entry, _) =>
      if WellFormed(entry) then
        r.delayed == s.redis.delayed - {entry}
        && r.queue ==
           s.redis.queue[ParseEntry(entry).value.0 := Score(e.rnd, ParseEntry(entry).value.1, Now(e, s))]
      else r == s.redis
    case RequeueOrphan(j) =>
      && r.delayed == s.redis.delayed
      && r.queue == if j in s.db.jobs then s.redis.queue[j := Score(e.rnd, s.db.jobs[j].priority, Now(e, s))]
                    else s.redis.queue
    case RedisFault(queue, delayed) => r == Redis(queue, delayed)
    case _ => r == s.redis
  }

  lemma StepRedis(e: Env, s: State, op: Op)
    ensures RedisEffect(e, s, op, Step(e, s, op).redis)
    ensures Step(e, s, op).pos >= s.pos
  {
    hide Score, FormatEntry, ParseEntry, BackoffSeconds, Lease, IsMin, Latest;
  }

  /** The actions that leave Redis alone. */
  predicate Quiet(op: Op) {
    !(op.Create? || op.Claim? || op.CompleteAttempt? || op.ReapOne? || op.PromoteOne? || op.RequeueOrphan?
      || op.RedisFault?)
  }

  lemma QuietRedis(e: Env, s: State, op: Op)
    requires Quiet(op)
    ensures Step(e, s, op).redis == s.redis && Step(e, s, op).pos >= s.pos
  {
  }

  lemma PopIsQueued(s: State)
    requires s.redis.queue != map[]
    ensures Popped(s) in s.redis.queue
  {
  }

  /** A job keeps its place if neither its waiting attempt nor its entries change. */
  lemma SamePlace(e: Env, s: State, s': State, job: string)
    requires ClockOk(e) && s'.pos >= s.pos
    requires job in s.db.jobs && s.db.jobs[job].attempts != [] && Placed(e, s, job)
    requires job in s'.db.jobs && s'.db.jobs[job].attempts != []
    requires s'.db.jobs[job].priority == s.db.jobs[job].priority && s'.db.jobs[job].status == s.db.jobs[job].status
    requires Last(s'.db.jobs[job]).nextRetry == Last(s.db.jobs[job]).nextRetry
    requires job in s'.redis.queue <==> job in s.redis.queue
    requires EntryOf(s.db, job) in s'.redis.delayed <==> EntryOf(s.db, job) in s.redis.delayed
    requires EntryOf(s.db, job) in s.redis.delayed ==>
               s'.redis.delayed[EntryOf(s.db, job)] == s.redis.delayed[EntryOf(s.db, job)]
    ensures Placed(e, s', job)
  {
    hide FormatEntry;
    assert e.tick(s.pos) <= e.tick(s'.pos);
  }

  /** A waiting entry just added for the retry of a job that was running. */
  lemma RetryPlaced(e: Env, s: State, s': State, job: string)
    requires job in s.db.jobs && s.db.jobs[job].attempts != [] && Placed(e, s, job)
    requires s.db.jobs[job].status == JobRunning
    requires job in s'.db.jobs && s'.db.jobs[job].attempts != []
    requires s'.db.jobs[job].priority == s.db.jobs[job].priority && s'.redis.queue == s.redis.queue
    requires s'.db.jobs[job].status == JobQueued ==>
               Last(s'.db.jobs[job]).nextRetry.Some?
               && s'.redis.delayed == s.redis.delayed[EntryOf(s.db, job) := Last(s'.db.jobs[job]).nextRetry.value]
    requires s'.db.jobs[job].status != JobQueued ==> s'.redis == s.redis
    ensures Placed(e, s', job)
  {
    hide FormatEntry;
  }

  lemma OthersEntry(db: Db, job: string, other: string)
    requires job in db.jobs && other in db.jobs && job != other
    ensures EntryOf(db, job) != EntryOf(db, other)
  {
    if EntryOf(db, job) == EntryOf(db, other) {
      EntryInjective(job, db.jobs[job].priority, other, db.jobs[other].priority);
    }
  }

  lemma PromotedIsNamed(e: Env, s: State, entry: string)
    requires TidyState(e, s) && entry in s.redis.delayed
    ensures WellFormed(entry)
    ensures ParseEntry(entry).value.0 in s.db.jobs && entry == EntryOf(s.db, ParseEntry(entry).value.0)
  {
    assert Named(s.db, entry);
  }

  lemma PromotionPlaced(e: Env, s: State, s': State, op: Op, job: string)
    requires ClockOk(e) && DbInv(e.cfg, s.db) && Enabled(e, s, op)
    requires job in s.db.jobs && s.db.jobs[job].attempts != [] && Placed(e, s, job)
    requires s' == Step(e, s, op)
    requires op.PromoteOne? && WellFormed(op.entry)
    requires ParseEntry(op.entry).value.0 in s.db.jobs && op.entry == EntryOf(s.db, ParseEntry(op.entry).value.0)
    ensures job in s'.db.jobs && s'.db.jobs[job].attempts != [] && Placed(e, s', job)
  {
    var m := MoveOf(e, s, op, job);
    StepMoves(e, s, op, job);
    StepRedis(e, s, op);
    MoveOutcome(e.cfg, s.db.jobs[job], m);
    hide Step, JobNext, Score, FormatEntry, ParseEntry, Shape, LastAgrees, Placed, WellFormed;
    PromotePlaced(e, s, s', op.entry, op.seen, ParseEntry(op.entry).value.0, job);
  }

  lemma ClaimingPlaced(e: Env, s: State, s': State, op: Op, job: string)
    requires ClockOk(e) && DbInv(e.cfg, s.db) && Enabled(e, s, op)
    requires job in s.db.jobs && s.db.jobs[job].attempts != [] && Placed(e, s, job)
    requires s' == Step(e, s, op)
    requires op.Claim?
    ensures job in s'.db.jobs && s'.db.jobs[job].attempts != [] && Placed(e, s', job)
  {
    var m := MoveOf(e, s, op, job);
    StepMoves(e, s, op, job);
    StepRedis(e, s, op);
    MoveOutcome(e.cfg, s.db.jobs[job], m);
    hide Step, JobNext, IsMin, Placed;
    if s.redis.queue != map[] {
      PopIsQueued(s);
      ClaimPlaced(e, s, s', m, job, op.worker);
    } else {
      SamePlace(e, s, s', job);
    }
  }

  lemma OtherwisePlaced(e: Env, s: State, s': State, op: Op, job: string)
    requires ClockOk(e) && DbInv(e.cfg, s.db) && Enabled(e, s, op)
    requires job in s.db.jobs && s.db.jobs[job].attempts != [] && Placed(e, s, job)
    requires s' == Step(e, s, op)
    requires Quiet(op) || op.Create?
    ensures job in s'.db.jobs && s'.db.jobs[job].attempts != [] && Placed(e, s', job)
  {
    var m := MoveOf(e, s, op, job);
    StepMoves(e, s, op, job);
    StepRedis(e, s, op);
    MoveOutcome(e.cfg, s.db.jobs[job], m);
    hide Step, JobNext, Score, FormatEntry, Placed;
    SamePlace(e, s, s', job);
  }

  lemma OldJobPlaced(e: Env, s: State, op: Op, job: string)
    requires ClockOk(e) && TidyState(e, s) && Enabled(e, s, op) && !op.RedisFault? && job in s.db.jobs
    ensures job in Step(e, s, op).db.jobs && Step(e, s, op).db.jobs[job].attempts != []
    ensures Placed(e, Step(e, s, op), job)
  {
    TidyIsDbInv(e, s);
    assert TidyJob(e, s, job) && JobInv(e.cfg, s.db.jobs[job]);
    var s' := Step(e, s, op);
    if op.PromoteOne? {
      PromotedIsNamed(e, s, op.entry);
    } else if op.RequeueOrphan? {
      NothingToReconcile(e.cfg, s.db, [op.job]);
    }
    hide Step, FormatEntry, ParseEntry, Shape, LastAgrees, Paced, Placed, TidyState, WellFormed, Enabled;
    if op.CompleteAttempt? || op.ReapOne? {
      FailurePlaced(e, s, s', op, job);
    } else if op.PromoteOne? {
      PromotionPlaced(e, s, s', op, job);
    } else if op.Claim? {
      ClaimingPlaced(e, s, s', op, job);
    } else if !op.RequeueOrphan? {
      OtherwisePlaced(e, s, s', op, job);
    }
  }

  lemma ClaimPlaced(e: Env, s: State, s': State, m: Move, job: string, w: string)
    requires ClockOk(e) && s'.pos >= s.pos && s.redis.queue != map[] && Popped(s) in s.redis.queue
    requires job in s.db.jobs && s.db.jobs[job].attempts != [] && Placed(e, s, job)
    requires job in s'.db.jobs && s'.db.jobs[job].attempts != []
    requires s'.db.jobs[job].priority == s.db.jobs[job].priority && s'.redis.delayed == s.redis.delayed
    requires s'.redis.queue == if Pops(s, w) then s.redis.queue - {Popped(s)} else s.redis.queue
    requires if Pops(s, w) && Popped(s) == job && s.db.jobs[job].status == JobQueued
             then s'.db.jobs[job].status == JobRunning
             else s'.db.jobs[job].status == s.db.jobs[job].status
                  && Last(s'.db.jobs[job]).nextRetry == Last(s.db.jobs[job]).nextRetry
    ensures Placed(e, s', job)
  {
    hide FormatEntry, IsMin;
    if !(Pops(s, w) && Popped(s) == job) {
      SamePlace(e, s, s', job);
    }
  }

  lemma PromotePlaced(e: Env, s: State, s': State, entry: string, seen: nat, promoted: string, job: string)
    requires ClockOk(e) && s'.pos >= s.pos && seen < s.pos
    requires promoted in s.db.jobs && entry == EntryOf(s.db, promoted)
    requires entry in s.redis.delayed && s.redis.delayed[entry] <= e.tick(seen)
    requires s'.redis.delayed == s.redis.delayed - {entry}
    requires s'.redis.queue.Keys == s.redis.queue.Keys + {promoted}
    requires job in s.db.jobs && s.db.jobs[job].attempts != [] && Placed(e, s, job)
    requires job in s'.db.jobs && s'.db.jobs[job].attempts != []
    requires s'.db.jobs[job].priority == s.db.jobs[job].priority && s'.db.jobs[job].status == s.db.jobs[job].status
    requires Last(s'.db.jobs[job]).nextRetry == Last(s.db.jobs[job]).nextRetry
    ensures Placed(e, s', job)
  {
    hide FormatEntry;
    assert e.tick(seen) <= e.tick(s'.pos);
    if promoted != job {
      OthersEntry(s.db, job, promoted);
      SamePlace(e, s, s', job);
    }
  }

  lemma FailurePlaced(e: Env, s: State, s': State, op: Op, job: string)
    requires ClockOk(e) && DbInv(e.cfg, s.db) && Enabled(e, s, op) && (op.CompleteAttempt? || op.ReapOne?)
    requires job in s.db.jobs && s.db.jobs[job].attempts != [] && Placed(e, s, job)
    requires s' == Step(e, s, op)
    ensures job in s'.db.jobs && s'.db.jobs[job].attempts != [] && Placed(e, s', job)
  {
    hide Step, JobNext, BackoffSeconds, FormatEntry, Shape, LastAgrees, Placed, ClockOk;
    var m := MoveOf(e, s, op, job);
    StepMoves(e, s, op, job);
    StepRedis(e, s, op);
    MoveOutcome(e.cfg, s.db.jobs[job], m);
    if op.id.job == job && (op.ReapOne? || Accepts(e, s, op.id, op.token)) {
      ActiveIsLast(e.cfg, s.db.jobs[job], op.id.row);
      RetryPlaced(e, s, s', job);
    } else {
      if op.id.job in s.db.jobs && op.id.job != job { OthersEntry(s.db, job, op.id.job); }
      SamePlace(e, s, s', job);
    }
  }

  lemma MovesInOrder(e: Env, s: State, op: Op, job: string)
    requires ClockOk(e) && TidyState(e, s) && job in s.db.jobs && s.db.jobs[job].attempts != []
    ensures MoveInOrder(s.db.jobs[job], MoveOf(e, s, op, job))
  {
    assert TidyJob(e, s, job);
    hide FormatEntry, Named, IsMin, JobInv, Paced;
    if op.Claim? && s.redis.queue != map[] {
      PopIsQueued(s);
    }
  }

  lemma NewJobPlaced(e: Env, s: State, op: Op, job: string)
    requires TidyState(e, s) && Enabled(e, s, op) && !op.RedisFault?
    requires job !in s.db.jobs && job in Step(e, s, op).db.jobs
    ensures TidyJob(e, Step(e, s, op), job)
  {
    TidyIsDbInv(e, s);
    StepCreates(e, s, op, job);
    StepRedis(e, s, op);
    var s' := Step(e, s, op);
    assert Creatable(s.db, op.job, op.priority, op.pipelineValid);
    EntryRoundTrip(job, op.priority);
    assert !Named(s.db, FormatEntry(job, op.priority));
    hide Step, FormatEntry, ParseEntry, Score, DbInv, TidyJob;
    assert FormatEntry(job, op.priority) !in s'.redis.delayed;
    hide TidyState, Named;
    NewJobTidy(e, s', job, op.priority);
  }

  lemma NewJobTidy(e: Env, s: State, job: string, priority: int)
    requires job in s.db.jobs && s.db.jobs[job] == NewJob(priority)
    requires job in s.redis.queue && FormatEntry(job, priority) !in s.redis.delayed
    ensures TidyJob(e, s, job)
  {
    hide FormatEntry, BackoffSeconds;
  }

  lemma StepKeepsPriorities(e: Env, s: State, op: Op)
    requires DbInv(e.cfg, s.db) && Enabled(e, s, op)
    ensures forall j :: j in s.db.jobs ==>
              j in Step(e, s, op).db.jobs && Step(e, s, op).db.jobs[j].priority == s.db.jobs[j].priority
  {
    hide Step, JobNext, MoveOf, Enabled;
    forall j | j in s.db.jobs
      ensures j in Step(e, s, op).db.jobs && Step(e, s, op).db.jobs[j].priority == s.db.jobs[j].priority
    {
      assert JobInv(e.cfg, s.db.jobs[j]);
      StepMoves(e, s, op, j);
      MoveOutcome(e.cfg, s.db.jobs[j], MoveOf(e, s, op, j));
    }
  }

  lemma StepCreated(e: Env, s: State, op: Op)
    requires op.Create? && Creatable(s.db, op.job, op.priority, op.pipelineValid)
    ensures op.job in Step(e, s, op).db.jobs
  {
  }

  /** A delayed entry after an action was there before, or is some job's. */
  lemma DelayedOrigin(e: Env, s: State, op: Op, entry: string)
    requires DbInv(e.cfg, s.db) && Enabled(e, s, op) && !op.RedisFault?
    requires entry in Step(e, s, op).redis.delayed
    ensures entry in s.redis.delayed || exists j :: j in s.db.jobs && entry == EntryOf(s.db, j)
  {
    StepRedis(e, s, op);
    if op.RequeueOrphan? {
      NothingToReconcile(e.cfg, s.db, [op.job]);
    }
    hide Step, FormatEntry, ParseEntry, Score, BackoffSeconds, DbInv, IsMin, ReadyAt;
    if (op.CompleteAttempt? || op.ReapOne?) && HasRow(s.db, op.id) {
      assert op.id.job in s.db.jobs;
    }
  }

  lemma QueueNamed(e: Env, s: State, op: Op)
    requires TidyState(e, s) && Enabled(e, s, op) && !op.RedisFault?
    ensures Step(e, s, op).redis.queue.Keys <= Step(e, s, op).db.jobs.Keys
  {
    TidyIsDbInv(e, s);
    StepRedis(e, s, op);
    StepKeepsPriorities(e, s, op);
    if op.Create? && Creatable(s.db, op.job, op.priority, op.pipelineValid) {
      StepCreated(e, s, op);
    }
    if op.RequeueOrphan? {
      NothingToReconcile(e.cfg, s.db, [op.job]);
    }
    if op.PromoteOne? {
      assert Named(s.db, op.entry);
    }
    hide Step, FormatEntry, ParseEntry, Score, BackoffSeconds, Enabled, DbInv, TidyJob, IsMin;
  }

  lemma StepNamed(e: Env, s: State, op: Op)
    requires TidyState(e, s) && Enabled(e, s, op) && !op.RedisFault?
    ensures forall entry :: entry in Step(e, s, op).redis.delayed ==> Named(Step(e, s, op).db, entry)
  {
    TidyIsDbInv(e, s);
    StepKeepsPriorities(e, s, op);
    var s' := Step(e, s, op);
    hide Step, FormatEntry, ParseEntry, Enabled, DbInv, TidyJob;
    forall entry | entry in s'.redis.delayed
      ensures Named(s'.db, entry)
    {
      DelayedOrigin(e, s, op, entry);
      if entry in s.redis.delayed {
        assert Named(s.db, entry);
      } else {
        var j :| j in s.db.jobs && entry == EntryOf(s.db, j);
        EntryRoundTrip(j, s.db.jobs[j].priority);
      }
    }
  }

  /** One action keeps everything tidy. */
  lemma StepKeepsTidy(e: Env, s: State, op: Op)
    requires ClockOk(e) && TidyState(e, s) && Enabled(e, s, op) && !op.RedisFault?
    ensures TidyState(e, Step(e, s, op))
  {
    TidyIsDbInv(e, s);
    QueueNamed(e, s, op);
    StepNamed(e, s, op);
    StepKeepsDb(e, s, op);
    var s' := Step(e, s, op);
    hide Step, Named, Enabled;
    forall j | j in s'.db.jobs
      ensures TidyJob(e, s', j)
    {
      if j in s.db.jobs {
        assert TidyJob(e, s, j);
        OldJobPlaced(e, s, op, j);
        StepMoves(e, s, op, j);
        MovesInOrder(e, s, op, j);
        MoveKeepsPace(e.cfg, s.db.jobs[j], MoveOf(e, s, op, j));
      } else {
        NewJobPlaced(e, s, op, j);
      }
    }
  }

  lemma {:induction false} RunKeepsTidy(e: Env, s: State, ops: seq<Op>)
    requires ClockOk(e) && TidyState(e, s) && EnabledRun(e, s, ops) && Faultless(ops)
    ensures TidyState(e, Run(e, s, ops))
  {
    hide Step, Enabled, TidyState;
    if ops != [] {
      RunLast(e, s, ops);
      RunKeepsTidy(e, s, ops[..|ops| - 1]);
      StepKeepsTidy(e, Run(e, s, ops[..|ops| - 1]), ops[|ops| - 1]);
    }
  }

  // ---- what tidiness means to a caller ----------------------------------------------

  lemma InitialIsTidy(e: Env)
    ensures TidyState(e, InitialState())
  {
  }

  /** Work is conserved: from the empty server, after any run without Redis
      faults, a job waits exactly when its id is in exactly one of the live queue
      and the delayed set, and is in neither otherwise. */
  lemma WorkIsConserved(e: Env, ops: seq<Op>, job: string)
    requires ClockOk(e) && EnabledRun(e, InitialState(), ops) && Faultless(ops)
    ensures var s := Run(e, InitialState(), ops);
            && (job in s.redis.queue ==> job in s.db.jobs)
            && (job in s.db.jobs ==>
                  var live, delayed := job in s.redis.queue, EntryOf(s.db, job) in s.redis.delayed;
                  if s.db.jobs[job].status == JobQueued then live != delayed else !live && !delayed)
  {
    InitialIsTidy(e);
    RunKeepsTidy(e, InitialState(), ops);
    var s := Run(e, InitialState(), ops);
    if job in s.db.jobs {
      assert TidyJob(e, s, job);
    }
  }

  /** Without Redis faults a claim never meets a stale queue entry. */
  lemma ClaimNeverStale(e: Env, s: State)
    requires TidyState(e, s) && s.redis.queue != map[]
    ensures Popped(s) in s.db.jobs && s.db.jobs[Popped(s)].status == JobQueued
  {
    PopIsQueued(s);
    assert TidyJob(e, s, Popped(s));
  }

  /** Backoff is honoured over whole runs: attempt n+1 never starts before
      attempt n finished plus its backoff. */
  lemma BackoffIsHonoured(e: Env, ops: seq<Op>, job: string, i: nat)
    requires ClockOk(e) && EnabledRun(e, InitialState(), ops) && Faultless(ops)
    requires job in Run(e, InitialState(), ops).db.jobs
    requires 0 < i < |Run(e, InitialState(), ops).db.jobs[job].attempts|
    requires Run(e, InitialState(), ops).db.jobs[job].attempts[i].started.Some?
    ensures var rows := Run(e, InitialState(), ops).db.jobs[job].attempts;
            && rows[i - 1].finished.Some?
            && rows[i].started.value >= rows[i - 1].finished.value + BackoffSeconds(e.cfg, i)
  {
    InitialIsTidy(e);
    RunKeepsTidy(e, InitialState(), ops);
    var s := Run(e, InitialState(), ops);
    hide Run, BackoffSeconds;
    assert TidyJob(e, s, job);
    var rows := s.db.jobs[job].attempts;
    assert PacedRow(e.cfg, rows[i - 1], rows[i]) && rows[i - 1].number == i;
  }
}
