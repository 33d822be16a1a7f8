/** The order in which jobs are claimed over fault-free runs. */
module Ordering {
  import opened Options
  import opened DelayedEntry
  import opened SortedSet
  import opened QueueScore
  import opened Records
  import opened Protocol
  import opened Database
  import opened Guarantees
  import opened Sweeps
  import opened Tidy

  const CLOCK_LIMIT: real := 1_000_000_000_000.0

  ghost predicate ClockInRange(e: Env) {
    ClockOk(e) && forall i: nat :: e.tick(i) < CLOCK_LIMIT
  }

  // ---- the moment of an enqueue -----------------------------------------------------

  /** The action writes the job's entry in the live queue. */
  predicate Enqueues(s: State, op: Op, job: string) {
    || (op.Create? && op.job == job && Creatable(s.db, job, op.priority, op.pipelineValid))
    || (op.PromoteOne? && WellFormed(op.entry) && ParseEntry(op.entry).value.0 == job)
    || (op.RequeueOrphan? && op.job == job && job in s.db.jobs)
  }

  /** The position in the run of the last action that enqueued the job. */
  ghost function LastEnqueue(e: Env, s: State, ops: seq<Op>, job: string): (i: Option<nat>)
    ensures i.Some? ==> i.value < |ops| && Enqueues(Run(e, s, ops[..i.value]), ops[i.value], job)
    ensures forall k: nat :: (i.Some? ==> i.value < k) && k < |ops| ==> !Enqueues(Run(e, s, ops[..k]), ops[k], job)
  {
    if ops == [] then None
    else
      var n := |ops| - 1;
      assert forall k :: 0 <= k <= n ==> ops[..n][..k] == ops[..k];
      if Enqueues(Run(e, s, ops[..n]), ops[n], job) then Some(n) else LastEnqueue(e, s, ops[..n], job)
  }

  /** The clock reading that this action took. */
  ghost function EnqueuedAt(e: Env, s: State, ops: seq<Op>, job: string): real
    requires LastEnqueue(e, s, ops, job).Some?
  {
    Now(e, Run(e, s, ops[..LastEnqueue(e, s, ops, job).value]))
  }

  /** Where a queue entry after an action comes from: it was there before, or the
      action has just scored it with its job's priority and its clock reading. */
  lemma QueueOrigin(e: Env, s: State, op: Op, job: string)
    requires TidyState(e, s) && Enabled(e, s, op) && !op.RedisFault?
    requires job in Step(e, s, op).redis.queue
    ensures var q, s' := s.redis.queue, Step(e, s, op);
            if Enqueues(s, op, job) then
              && job !in q && job in s'.db.jobs && s'.pos == s.pos + 1
              && s'.redis.queue[job] == Score(e.rnd, s'.db.jobs[job].priority, Now(e, s))
            else job in q && s'.redis.queue[job] == q[job]
  {
    hide Step, TidyState, FormatEntry, ParseEntry, WellFormed, Score, BackoffSeconds, IsMin, Enabled;
    TidyQueue(e, s);
    StepRedis(e, s, op);
    if op.Create? {
      if Creatable(s.db, op.job, op.priority, op.pipelineValid) {
        CreatedPriority(e, s, op);
      }
    } else if op.PromoteOne? {
      PromotableIsDelayed(e, s, op);
      PromotedIsNamed(e, s, op.entry);
      var j := ParseEntry(op.entry).value.0;
      EntryRoundTrip(j, s.db.jobs[j].priority);
      DelayedNotLive(e, s, j);
      PromoteEffect(e, s, op.entry, op.seen);
    } else if op.RequeueOrphan? {
      OrphansNone(e, s, op);
    }
  }

  lemma DelayedNotLive(e: Env, s: State, job: string)
    requires TidyState(e, s) && job in s.db.jobs && EntryOf(s.db, job) in s.redis.delayed
    ensures job !in s.redis.queue
  {
    hide FormatEntry;
    assert TidyJob(e, s, job);
  }

  /** The job was enqueued with its own priority, at the k-th clock reading. */
  ghost predicate ScoredAt(e: Env, s: State, job: string, k: nat)
    requires job in s.db.jobs && job in s.redis.queue
  {
    k < s.pos && s.redis.queue[job] == Score(e.rnd, s.db.jobs[job].priority, e.tick(k))
  }

  ghost predicate Scored(e: Env, s: State) {
    && s.redis.queue.Keys <= s.db.jobs.Keys
    && (forall j :: j in s.db.jobs ==> PriorityInRange(s.db.jobs[j].priority))
    && (forall j :: j in s.redis.queue ==> exists k :: ScoredAt(e, s, j, k))
  }

  lemma StepKeepsScored(e: Env, s: State, op: Op)
    requires ClockOk(e) && TidyState(e, s) && Scored(e, s) && Enabled(e, s, op) && !op.RedisFault?
    ensures Scored(e, Step(e, s, op))
  {
    hide Step, TidyState, FormatEntry, Score, Enabled, DbInv, Enqueues;
    var s' := Step(e, s, op);
    TidyIsDbInv(e, s);
    StepKeepsTidy(e, s, op);
    assert s'.redis.queue.Keys <= s'.db.jobs.Keys by { TidyQueue(e, s'); }
    StepRedis(e, s, op);
    forall j | j in s'.db.jobs
      ensures PriorityInRange(s'.db.jobs[j].priority)
      ensures j in s.db.jobs ==> s'.db.jobs[j].priority == s.db.jobs[j].priority
    {
      JobPriority(e, s, op, j);
    }
    forall j | j in s'.redis.queue
      ensures exists k :: ScoredAt(e, s', j, k)
    {
      QueueOrigin(e, s, op, j);
      if Enqueues(s, op, j) {
        assert ScoredAt(e, s', j, s.pos);
      } else {
        var k :| ScoredAt(e, s, j, k);
        assert ScoredAt(e, s', j, k);
      }
    }
  }

  /** Every entry of the live queue is scored with its job's priority and the
      reading at which the run last enqueued the job: at creation, or, for a
      retry, at its promotion. */
  lemma {:induction false} ScoredWhenEnqueued(e: Env, ops: seq<Op>, job: string)
    requires ClockOk(e) && EnabledRun(e, InitialState(), ops) && Faultless(ops)
    requires job in Run(e, InitialState(), ops).redis.queue
    ensures var s := Run(e, InitialState(), ops);
            && job in s.db.jobs && LastEnqueue(e, InitialState(), ops, job).Some?
            && s.redis.queue[job] ==
               Score(e.rnd, s.db.jobs[job].priority, EnqueuedAt(e, InitialState(), ops, job))
  {
    hide Step, Enabled, TidyState, Score, Enqueues, DbInv;
    if ops != [] {
      var front, op := ops[..|ops| - 1], ops[|ops| - 1];
      var mid := Run(e, InitialState(), front);
      RunLast(e, InitialState(), ops);
      InitialIsTidy(e);
      RunKeepsTidy(e, InitialState(), front);
      QueueOrigin(e, mid, op, job);
      if !Enqueues(mid, op, job) {
        ScoredWhenEnqueued(e, front, job);
        TidyIsDbInv(e, mid);
        StepKeepsPriorities(e, mid, op);
        var i := LastEnqueue(e, InitialState(), front, job).value;
        assert front[..i] == ops[..i];
      }
    }
  }

  lemma TidyQueue(e: Env, s: State)
    requires TidyState(e, s)
    ensures s.redis.queue.Keys <= s.db.jobs.Keys
  {
  }

  lemma JobPriority(e: Env, s: State, op: Op, job: string)
    requires DbInv(e.cfg, s.db) && Enabled(e, s, op) && job in Step(e, s, op).db.jobs
    requires forall j :: j in s.db.jobs ==> PriorityInRange(s.db.jobs[j].priority)
    ensures PriorityInRange(Step(e, s, op).db.jobs[job].priority)
    ensures job in s.db.jobs ==> Step(e, s, op).db.jobs[job].priority == s.db.jobs[job].priority
  {
    if job in s.db.jobs {
      StepKeepsPriorities(e, s, op);
    } else {
      StepCreates(e, s, op, job);
    }
  }

  lemma CreatedPriority(e: Env, s: State, op: Op)
    requires op.Create? && Creatable(s.db, op.job, op.priority, op.pipelineValid)
    ensures op.job in Step(e, s, op).db.jobs && Step(e, s, op).db.jobs[op.job].priority == op.priority
    ensures Step(e, s, op).pos == s.pos + 1
  {
  }

  lemma {:induction false} RunKeepsScored(e: Env, s: State, ops: seq<Op>)
    requires ClockOk(e) && TidyState(e, s) && Scored(e, s) && EnabledRun(e, s, ops) && Faultless(ops)
    ensures TidyState(e, Run(e, s, ops)) && Scored(e, Run(e, s, ops))
  {
    hide Step, Enabled, TidyState, Scored;
    if ops != [] {
      var front := ops[..|ops| - 1];
      RunLast(e, s, ops);
      RunKeepsScored(e, s, front);
      StepKeepsTidy(e, Run(e, s, front), ops[|ops| - 1]);
      StepKeepsScored(e, Run(e, s, front), ops[|ops| - 1]);
    }
  }

  // ---- one claim -----------------------------------------------------------------

  /** Even with every score rounded to a float, the job that a claim pops has a
      priority no waiting job in the live queue exceeds. */
  lemma ClaimTakesHighestPriority(e: Env, ops: seq<Op>, other: string)
    requires ClockInRange(e) && DoubleRounding(e.rnd)
    requires EnabledRun(e, InitialState(), ops) && Faultless(ops)
    requires other in Run(e, InitialState(), ops).redis.queue
    ensures var s := Run(e, InitialState(), ops);
            Popped(s) in s.db.jobs && other in s.db.jobs
            && s.db.jobs[other].priority <= s.db.jobs[Popped(s)].priority
  {
    InitialIsTidy(e);
    RunKeepsScored(e, InitialState(), ops);
    var s := Run(e, InitialState(), ops);
    hide Run, TidyState, Score;
    PopIsQueued(s);
    PoppedScoresLeast(s, other);
    if s.db.jobs[other].priority > s.db.jobs[Popped(s)].priority {
      HigherScoresLess(e, s, other, Popped(s));
    }
  }

  lemma HigherScoresLess(e: Env, s: State, high: string, low: string)
    requires ClockInRange(e) && DoubleRounding(e.rnd) && Scored(e, s)
    requires high in s.redis.queue && low in s.redis.queue
    requires s.db.jobs[high].priority > s.db.jobs[low].priority
    ensures s.redis.queue[high] < s.redis.queue[low]
  {
    var k :| ScoredAt(e, s, high, k);
    var k' :| ScoredAt(e, s, low, k');
    assert 0.0 <= e.tick(k) <= e.tick(k) && 0.0 <= e.tick(k') <= e.tick(k');
    HigherPriorityFirst(e.rnd, s.db.jobs[high].priority, e.tick(k), s.db.jobs[low].priority, e.tick(k'));
  }

  lemma PoppedScoresLeast(s: State, other: string)
    requires other in s.redis.queue
    ensures Popped(s) in s.redis.queue && Before(s.redis.queue, Popped(s), other)
  {
  }

  lemma ExactIsRounding(rnd: real -> real)
    requires Exact(rnd)
    ensures DoubleRounding(rnd)
  {
  }

  /** Among the jobs of the popped job's priority none was enqueued earlier,
      retries included, unless its score ties with the popped job's and sorts
      after it by id. In exact arithmetic none was enqueued earlier at all. */
  lemma ClaimIsFifo(e: Env, ops: seq<Op>, other: string)
    requires ClockInRange(e) && (DoubleRounding(e.rnd) || Exact(e.rnd))
    requires EnabledRun(e, InitialState(), ops) && Faultless(ops)
    requires other in Run(e, InitialState(), ops).redis.queue
    ensures var start, s := InitialState(), Run(e, InitialState(), ops);
            var popped := Popped(s);
            && popped in s.db.jobs && other in s.db.jobs && popped in s.redis.queue
            && LastEnqueue(e, start, ops, popped).Some? && LastEnqueue(e, start, ops, other).Some?
            && (s.db.jobs[other].priority < s.db.jobs[popped].priority
                || (s.db.jobs[other].priority == s.db.jobs[popped].priority
                    && (EnqueuedAt(e, start, ops, popped) <= EnqueuedAt(e, start, ops, other)
                        || (s.redis.queue[popped] == s.redis.queue[other] && LexLeq(popped, other)))))
            && (Exact(e.rnd) && s.db.jobs[other].priority == s.db.jobs[popped].priority ==>
                  EnqueuedAt(e, start, ops, popped) <= EnqueuedAt(e, start, ops, other))
  {
    var s := Run(e, InitialState(), ops);
    if Exact(e.rnd) {
      ExactIsRounding(e.rnd);
    }
    ClaimTakesHighestPriority(e, ops, other);
    PopIsQueued(s);
    ScoredWhenEnqueued(e, ops, Popped(s));
    ScoredWhenEnqueued(e, ops, other);
    hide Run, TidyState, Score, LastEnqueue, EnqueuedAt, LexLeq, IsMin;
    PoppedScoresLeast(s, other);
    var p := s.db.jobs[Popped(s)].priority;
    var at, at' := EnqueuedAt(e, InitialState(), ops, Popped(s)), EnqueuedAt(e, InitialState(), ops, other);
    if p == s.db.jobs[other].priority && at' < at {
      EqualPriorityWeaklyFifo(e.rnd, p, at', at);
      if Exact(e.rnd) {
        ExactScore(e.rnd, p, at);
        ExactScore(e.rnd, p, at');
      }
    }
  }

  lemma ExactScore(rnd: real -> real, p: int, ts: real)
    requires Exact(rnd)
    ensures Score(rnd, p, ts) == -(p as real) * SCALE + ts
  {
  }

  // ---- whole runs ------------------------------------------------------------------

  /** The action pops the job off the live queue. */
  ghost predicate PopsJob(s: State, op: Op, job: string) {
    op.Claim? && Pops(s, op.worker) && Popped(s) == job
  }

  ghost predicate NeverPops(e: Env, s: State, ops: seq<Op>, job: string) {
    forall i :: 0 <= i < |ops| ==> !PopsJob(Run(e, s, ops[..i]), ops[i], job)
  }

  /** Both wait in the live queue, the one ahead of the other. */
  ghost predicate Precedes(s: State, a: string, b: string) {
    a in s.redis.queue && b in s.redis.queue && a != b && Before(s.redis.queue, a, b)
  }

  lemma StepKeepsQueued(e: Env, s: State, op: Op, job: string)
    requires TidyState(e, s) && Enabled(e, s, op) && !op.RedisFault?
    requires job in s.redis.queue && !PopsJob(s, op, job)
    ensures job in Step(e, s, op).redis.queue && Step(e, s, op).redis.queue[job] == s.redis.queue[job]
  {
    hide Step, TidyState, FormatEntry, ParseEntry, WellFormed, Score, BackoffSeconds, IsMin, Enabled;
    TidyQueue(e, s);
    if Quiet(op) {
      QuietRedis(e, s, op);
    } else if op.PromoteOne? {
      StepRedis(e, s, op);
      PromotableIsDelayed(e, s, op);
      PromotedIsNamed(e, s, op.entry);
      DelayedNotLive(e, s, ParseEntry(op.entry).value.0);
    } else if op.RequeueOrphan? {
      OrphansNone(e, s, op);
    } else {
      StepRedis(e, s, op);
    }
  }

  lemma PromotableIsDelayed(e: Env, s: State, op: Op)
    requires op.PromoteOne? && Enabled(e, s, op)
    ensures op.entry in s.redis.delayed
  {
  }

  lemma OrphansNone(e: Env, s: State, op: Op)
    requires op.RequeueOrphan? && TidyState(e, s)
    ensures !Enabled(e, s, op)
  {
    TidyIsDbInv(e, s);
    NothingToReconcile(e.cfg, s.db, [op.job]);
  }

  /** No overtaking: of two jobs in the live queue the one ahead is claimed first,
      whatever is enqueued, promoted or retried meanwhile. As long as a run does
      not pop it, the run does not pop the other either. */
  lemma {:induction false} NoOvertaking(e: Env, s: State, ops: seq<Op>, first: string, second: string)
    requires ClockOk(e) && TidyState(e, s) && EnabledRun(e, s, ops) && Faultless(ops)
    requires Precedes(s, first, second) && NeverPops(e, s, ops, first)
    ensures NeverPops(e, s, ops, second) && Precedes(Run(e, s, ops), first, second)
  {
    if ops == [] {
    } else {
      var front, last := ops[..|ops| - 1], ops[|ops| - 1];
      RunLast(e, s, ops);
      NeverPopsLast(e, s, ops, first);
      NeverPopsLast(e, s, ops, second);
      hide Step, Enabled, TidyState, PopsJob, LexLeq, NeverPops, EnabledRun, Run;
      NoOvertaking(e, s, front, first, second);
      RunKeepsTidy(e, s, front);
      var mid := Run(e, s, front);
      FirstPopsFirst(mid, last, first, second);
      StepKeepsQueued(e, mid, last, first);
      StepKeepsQueued(e, mid, last, second);
    }
  }

  lemma NeverPopsLast(e: Env, s: State, ops: seq<Op>, job: string)
    requires ops != []
    ensures var front := ops[..|ops| - 1];
            NeverPops(e, s, ops, job) <==>
              NeverPops(e, s, front, job) && !PopsJob(Run(e, s, front), ops[|ops| - 1], job)
  {
    hide PopsJob, Run;
    var front := ops[..|ops| - 1];
    forall i | 0 <= i < |front|
      ensures front[..i] == ops[..i] && front[i] == ops[i]
    {
    }
    if NeverPops(e, s, front, job) && !PopsJob(Run(e, s, front), ops[|ops| - 1], job) {
      forall i | 0 <= i < |ops|
        ensures !PopsJob(Run(e, s, ops[..i]), ops[i], job)
      {
        assert i < |front| ==> !PopsJob(Run(e, s, front[..i]), front[i], job);
      }
    }
    if NeverPops(e, s, ops, job) {
      forall i | 0 <= i < |front|
        ensures !PopsJob(Run(e, s, front[..i]), front[i], job)
      {
        assert !PopsJob(Run(e, s, ops[..i]), ops[i], job);
      }
    }
  }

  lemma FirstPopsFirst(s: State, op: Op, first: string, second: string)
    requires Precedes(s, first, second)
    ensures !PopsJob(s, op, second)
  {
    if PopsJob(s, op, second) {
      PoppedScoresLeast(s, first);
      LexAntisymmetric(first, second);
    }
  }

  /** Higher priority is claimed first over whole runs, rounding included. */
  lemma PriorityNeverOvertaken(e: Env, s: State, ops: seq<Op>, high: string, low: string)
    requires ClockInRange(e) && DoubleRounding(e.rnd) && TidyState(e, s) && Scored(e, s)
    requires EnabledRun(e, s, ops) && Faultless(ops)
    requires high in s.redis.queue && low in s.redis.queue
    requires s.db.jobs[high].priority > s.db.jobs[low].priority
    requires NeverPops(e, s, ops, high)
    ensures NeverPops(e, s, ops, low)
  {
    hide Scored, Score, TidyState, EnabledRun, NeverPops, DoubleRounding, Faultless, Precedes;
    HigherPrecedes(e, s, high, low);
    NoOvertaking(e, s, ops, high, low);
  }

  lemma HigherPrecedes(e: Env, s: State, high: string, low: string)
    requires ClockInRange(e) && DoubleRounding(e.rnd) && Scored(e, s)
    requires high in s.redis.queue && low in s.redis.queue
    requires s.db.jobs[high].priority > s.db.jobs[low].priority
    ensures Precedes(s, high, low)
  {
    HigherScoresLess(e, s, high, low);
  }

  /** In exact arithmetic, so is the job enqueued earlier of two of one priority. */
  lemma EarlierNeverOvertaken(e: Env, before: seq<Op>, after: seq<Op>, early: string, late: string)
    requires ClockOk(e) && Exact(e.rnd)
    requires EnabledRun(e, InitialState(), before) && Faultless(before)
    requires early in Run(e, InitialState(), before).redis.queue
    requires late in Run(e, InitialState(), before).redis.queue
    requires SamePriority(Run(e, InitialState(), before), early, late)
    requires EnqueuedBefore(e, before, early, late)
    requires EnabledRun(e, Run(e, InitialState(), before), after) && Faultless(after)
    requires NeverPops(e, Run(e, InitialState(), before), after, early)
    ensures NeverPops(e, Run(e, InitialState(), before), after, late)
  {
    InitialIsTidy(e);
    RunKeepsTidy(e, InitialState(), before);
    ScoredWhenEnqueued(e, before, early);
    ScoredWhenEnqueued(e, before, late);
    var s := Run(e, InitialState(), before);
    hide Run, Score, TidyState, LastEnqueue, EnqueuedAt;
    ExactScore(e.rnd, s.db.jobs[early].priority, EnqueuedAt(e, InitialState(), before, early));
    ExactScore(e.rnd, s.db.jobs[early].priority, EnqueuedAt(e, InitialState(), before, late));
    NoOvertaking(e, s, after, early, late);
  }

  predicate SamePriority(s: State, a: string, b: string) {
    a in s.db.jobs && b in s.db.jobs && s.db.jobs[a].priority == s.db.jobs[b].priority
  }

  /** The run from the empty server enqueued the one at an earlier reading. */
  ghost predicate EnqueuedBefore(e: Env, ops: seq<Op>, early: string, late: string) {
    && LastEnqueue(e, InitialState(), ops, early).Some? && LastEnqueue(e, InitialState(), ops, late).Some?
    && EnqueuedAt(e, InitialState(), ops, early) < EnqueuedAt(e, InitialState(), ops, late)
  }
}
