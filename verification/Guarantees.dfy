/** What the system of record guarantees over whole runs, whatever happens to
    Redis on the way: verdicts are final, an attempt has one owner and one
    outcome, claims are bounded, reconciliation never acts. */
module Guarantees {
  import opened Options
  import opened DelayedEntry
  import opened SortedSet
  import opened QueueScore
  import opened Records
  import opened JobLife
  import opened Protocol
  import opened Database

  // ---- jobs over a run ----------------------------------------------------------

  /** No run removes a job, changes its priority, removes or renumbers a row,
      hands a granted row to anyone else, or alters a terminal outcome. */
  lemma {:induction false} JobsOnlyProgress(e: Env, s: State, ops: seq<Op>, job: string)
    requires DbInv(e.cfg, s.db) && EnabledRun(e, s, ops) && job in s.db.jobs
    ensures job in Run(e, s, ops).db.jobs && Later(s.db.jobs[job], Run(e, s, ops).db.jobs[job])
  {
    hide Step;
    if ops != [] {
      RunLast(e, s, ops);
      var front := ops[..|ops| - 1];
      JobsOnlyProgress(e, s, front, job);
      RunKeepsDb(e, s, front);
      var mid := Run(e, s, front);
      StepMoves(e, mid, ops[|ops| - 1], job);
      MoveIsLater(e.cfg, mid.db.jobs[job], MoveOf(e, mid, ops[|ops| - 1], job));
      LaterTransitive(s.db.jobs[job], mid.db.jobs[job], Run(e, s, ops).db.jobs[job]);
    }
  }

  /** A verdict, once given, is final: neither the job's status, nor the number
      of its attempts, nor any column of theirs but the log changes again. */
  lemma VerdictsAreFinal(e: Env, s: State, ops: seq<Op>, job: string)
    requires DbInv(e.cfg, s.db) && EnabledRun(e, s, ops)
    requires job in s.db.jobs && Final(s.db.jobs[job].status)
    ensures job in Run(e, s, ops).db.jobs && SameButLogs(s.db.jobs[job], Run(e, s, ops).db.jobs[job])
  {
    hide Step, Enabled;
    JobsOnlyProgress(e, s, ops, job);
    var before, after := s.db.jobs[job], Run(e, s, ops).db.jobs[job];
    assert JobInv(e.cfg, before);
    forall i | 0 <= i < |before.attempts|
      ensures after.attempts[i] == before.attempts[i].(logs := after.attempts[i].logs)
    {
      assert !Active(before.attempts[i]) && before.attempts[i].token.Some?;
      assert RowLater(before.attempts[i], after.attempts[i]);
    }
  }

  /** Infrastructure failures end a job only when the whole budget is spent. */
  lemma ErroredSpentBudget(cfg: Settings, db: Db, job: string)
    requires DbInv(cfg, db) && job in db.jobs && db.jobs[job].status == JobErrored
    ensures |db.jobs[job].attempts| == Budget(cfg)
    ensures forall i :: 0 <= i < |db.jobs[job].attempts| ==> db.jobs[job].attempts[i].status == InfraError
  {
    assert JobInv(cfg, db.jobs[job]);
  }

  // ---- one owner, one outcome ---------------------------------------------------

  predicate Terminal(db: Db, id: AttemptId) {
    HasRow(db, id) && !Active(TheRow(db, id))
  }

  /** The action ends the attempt: an accepted report, or the reaper. */
  predicate Settles(e: Env, s: State, op: Op, id: AttemptId) {
    || (op.CompleteAttempt? && op.id == id && Accepts(e, s, id, op.token))
    || (op.ReapOne? && op.id == id)
  }

  lemma MoveSettles(cfg: Settings, job: Job, m: Move, row: nat)
    requires JobInv(cfg, job) && MoveOk(job, m) && row < |job.attempts|
    ensures var job' := JobNext(cfg, job, m);
            && row < |job'.attempts|
            && (!Active(job'.attempts[row]) <==>
                  !Active(job.attempts[row]) || ((m.Settle? || m.Lapse?) && row == |job.attempts| - 1))
  {
    hide BackoffSeconds;
    if m.Grant? {
      LatestIsLast(cfg, job);
    }
  }

  lemma NewRowsAreActive(cfg: Settings, job: Job, m: Move, row: nat)
    requires JobInv(cfg, job) && MoveOk(job, m)
    requires |job.attempts| <= row < |JobNext(cfg, job, m).attempts|
    ensures Active(JobNext(cfg, job, m).attempts[row])
  {
    hide BackoffSeconds;
  }

  lemma StepSettles(e: Env, s: State, op: Op, id: AttemptId)
    requires DbInv(e.cfg, s.db) && Enabled(e, s, op)
    ensures Terminal(Step(e, s, op).db, id) <==> Terminal(s.db, id) || Settles(e, s, op, id)
    ensures Settles(e, s, op, id) ==> !Terminal(s.db, id)
  {
    var s' := Step(e, s, op);
    hide Step, JobNext, Shape, LastAgrees;
    if id.job in s.db.jobs {
      var job := s.db.jobs[id.job];
      assert JobInv(e.cfg, job);
      var m := MoveOf(e, s, op, id.job);
      StepMoves(e, s, op, id.job);
      if id.row < |job.attempts| {
        MoveSettles(e.cfg, job, m, id.row);
        if m.Settle? || m.Lapse? {
          ActiveIsLast(e.cfg, job, op.id.row);
        }
      } else if HasRow(s'.db, id) {
        NewRowsAreActive(e.cfg, job, m, id.row);
      }
    } else if id.job in s'.db.jobs {
      StepCreates(e, s, op, id.job);
    }
  }

  ghost function SettleCount(e: Env, s: State, ops: seq<Op>, id: AttemptId): nat {
    if ops == [] then 0
    else
      var front := ops[..|ops| - 1];
      SettleCount(e, s, front, id) + if Settles(e, Run(e, s, front), ops[|ops| - 1], id) then 1 else 0
  }

  /** Over any run, acceptances and reapings of one attempt together number at
      most one, and exactly one if the run is what ended the attempt. */
  lemma {:induction false} OneOutcome(e: Env, s: State, ops: seq<Op>, id: AttemptId)
    requires DbInv(e.cfg, s.db) && EnabledRun(e, s, ops)
    ensures SettleCount(e, s, ops, id) ==
            if Terminal(Run(e, s, ops).db, id) && !Terminal(s.db, id) then 1 else 0
    ensures Terminal(s.db, id) ==> Terminal(Run(e, s, ops).db, id)
  {
    hide Step, Settles, Terminal;
    if ops != [] {
      var front, last := ops[..|ops| - 1], ops[|ops| - 1];
      RunLast(e, s, ops);
      OneOutcome(e, s, front, id);
      RunKeepsDb(e, s, front);
      StepSettles(e, Run(e, s, front), last, id);
    }
  }

  /** A report on an attempt that is not its job's latest, with whatever token,
      leaves the system of record as it was, but for a log tail sent along with
      the attempt's own token, which is appended to its row. */
  lemma ZombieReportIgnored(e: Env, s: State, id: AttemptId, token: string, report: Report, tail: Option<string>)
    requires DbInv(e.cfg, s.db) && HasRow(s.db, id) && id.row < |s.db.jobs[id.job].attempts| - 1
    ensures Run(e, s, CompleteOps(id, token, report, tail)).db ==
            if OwnsRow(s.db, id, token) && tail.Some?
            then PutRow(s.db, id, TheRow(s.db, id).(logs := TheRow(s.db, id).logs + tail.value)) else s.db
  {
    assert JobInv(e.cfg, s.db.jobs[id.job]) && Settled(s.db.jobs[id.job].attempts[id.row], InfraError);
    RejectedReportDb(e, s, id, token, report, tail);
    var a := TheRow(s.db, id);
    assert s.db.jobs[id.job].attempts[id.row := a] == s.db.jobs[id.job].attempts;
    assert tail == Some("") ==> a.(logs := a.logs + tail.value) == a && PutRow(s.db, id, a) == s.db;
  }

  /** A rejected report's effect on the database is its log tail's. */
  lemma RejectedReportDb(e: Env, s: State, id: AttemptId, token: string, report: Report, tail: Option<string>)
    requires !Accepts(e, s, id, token)
    ensures Run(e, s, CompleteOps(id, token, report, tail)).db ==
            if OwnsRow(s.db, id, token) && tail.Some? && tail.value != ""
            then PutRow(s.db, id, TheRow(s.db, id).(logs := TheRow(s.db, id).logs + tail.value)) else s.db
  {
    var finish := CompleteAttempt(id, token, report);
    if tail.Some? && tail.value != "" {
      var write := AppendTail(id, token, tail.value);
      assert CompleteOps(id, token, report, tail) == [write] + [finish];
      RunFirst(e, s, write);
      RunSnoc(e, s, [write], finish);
      var mid := Step(e, s, write);
      assert !Accepts(e, mid, id, token);
    } else {
      assert CompleteOps(id, token, report, tail) == [finish];
      RunFirst(e, s, finish);
    }
  }

  /** The log tail is stored before the report is judged, so a rejected report
      still changes the database exactly when its token matches the row and its
      tail is not empty, even on an attempt that is terminal. */
  lemma RejectedReportWritesTail(e: Env, s: State, id: AttemptId, token: string, report: Report, tail: Option<string>)
    requires !Accepts(e, s, id, token)
    ensures Run(e, s, CompleteOps(id, token, report, tail)).db == s.db
            <==> !(OwnsRow(s.db, id, token) && tail.Some? && tail.value != "")
  {
    RejectedReportDb(e, s, id, token, report, tail);
    if OwnsRow(s.db, id, token) && tail.Some? && tail.value != "" {
      var db' := Run(e, s, CompleteOps(id, token, report, tail)).db;
      hide Run;
      assert |TheRow(db', id).logs| == |TheRow(s.db, id).logs| + |tail.value|;
      assert db' != s.db;
    }
  }

  // ---- claims are bounded ---------------------------------------------------------

  function GrantedIn(db: Db, job: string): int {
    if job in db.jobs then GrantedRows(db.jobs[job]) else 0
  }

  /** How many actions of the run leased an attempt of the job to a worker. */
  ghost function GrantCount(e: Env, s: State, ops: seq<Op>, job: string): nat {
    if ops == [] then 0
    else
      var front := ops[..|ops| - 1];
      GrantCount(e, s, front, job) + if MoveOf(e, Run(e, s, front), ops[|ops| - 1], job).Grant? then 1 else 0
  }

  lemma {:induction false} GrantsAreCounted(e: Env, s: State, ops: seq<Op>, job: string)
    requires DbInv(e.cfg, s.db) && EnabledRun(e, s, ops)
    ensures GrantedIn(Run(e, s, ops).db, job) == GrantedIn(s.db, job) + GrantCount(e, s, ops, job)
  {
    if ops != [] {
      var front, last := ops[..|ops| - 1], ops[|ops| - 1];
      RunLast(e, s, ops);
      GrantsAreCounted(e, s, front, job);
      RunKeepsDb(e, s, front);
      StepCountsGrants(e, Run(e, s, front), last, job);
    }
  }

  lemma StepCountsGrants(e: Env, s: State, op: Op, job: string)
    requires DbInv(e.cfg, s.db) && Enabled(e, s, op)
    ensures GrantedIn(Step(e, s, op).db, job) ==
            GrantedIn(s.db, job) + if MoveOf(e, s, op, job).Grant? then 1 else 0
  {
    var s' := Step(e, s, op);
    hide Step;
    if job in s.db.jobs {
      StepMoves(e, s, op, job);
      MoveCountsGrants(e.cfg, s.db.jobs[job], MoveOf(e, s, op, job));
    } else if job in s'.db.jobs {
      StepCreates(e, s, op, job);
    }
  }

  /** In any run, however long and whatever happens to Redis, a job is claimed
      at most max(1, max_job_attempts) times. */
  lemma ClaimsAreBounded(e: Env, s: State, ops: seq<Op>, job: string)
    requires DbInv(e.cfg, s.db) && EnabledRun(e, s, ops)
    ensures GrantCount(e, s, ops, job) <= Budget(e.cfg)
  {
    GrantsAreCounted(e, s, ops, job);
    RunKeepsDb(e, s, ops);
    var db' := Run(e, s, ops).db;
    if job in s.db.jobs {
      assert JobInv(e.cfg, s.db.jobs[job]);
    }
    if job in db'.jobs {
      assert JobInv(e.cfg, db'.jobs[job]);
    }
  }

  // ---- reconciliation -----------------------------------------------------------

  /** Every waiting job has an attempt that is LEASED to nobody, which the sweep
      takes for one held by a worker: it selects no job at all. */
  lemma {:induction false} NothingToReconcile(cfg: Settings, db: Db, jobs: seq<string>)
    requires DbInv(cfg, db)
    ensures OrphanOps(db, jobs) == []
  {
    if jobs != [] {
      var job := jobs[|jobs| - 1];
      NothingToReconcile(cfg, db, jobs[..|jobs| - 1]);
      if job in db.jobs && db.jobs[job].status == JobQueued {
        assert JobInv(cfg, db.jobs[job]);
        assert Active(Last(db.jobs[job]));
      }
    }
  }

  /** In any database the sweep selects, of the jobs it is given, exactly the
      QUEUED ones none of whose attempts is LEASED or RUNNING. */
  lemma {:induction false} OrphanOpsIff(db: Db, jobs: seq<string>, job: string)
    ensures RequeueOrphan(job) in OrphanOps(db, jobs) <==>
            && job in jobs && job in db.jobs && db.jobs[job].status == JobQueued
            && forall i :: 0 <= i < |db.jobs[job].attempts| ==>
                 db.jobs[job].attempts[i].status != Leased && db.jobs[job].attempts[i].status != Running
  {
    if jobs != [] {
      var front, last := jobs[..|jobs| - 1], jobs[|jobs| - 1];
      OrphanOpsIff(db, front, job);
      assert jobs == front + [last];
    }
  }

  lemma ReconcileDoesNothing(e: Env, s: State, jobs: seq<string>)
    requires DbInv(e.cfg, s.db)
    ensures SweepStep(e, s, ReconcileOrphanedJobs(jobs)) == s
  {
    NothingToReconcile(e.cfg, s.db, jobs);
  }

  /** Redis holds nothing that leads back to the job. */
  ghost predicate Forgotten(r: Redis, job: string) {
    && job !in r.queue
    && forall entry :: entry in r.delayed ==> (ParseEntry(entry).Some? ==> ParseEntry(entry).value.0 != job)
  }

  lemma StepForgets(e: Env, s: State, op: Op, job: string)
    requires DbInv(e.cfg, s.db) && Enabled(e, s, op)
    requires job in s.db.jobs && s.db.jobs[job].status == JobQueued && Forgotten(s.redis, job)
    requires op.RedisFault? ==> Forgotten(Redis(op.queue, op.delayed), job)
    ensures Forgotten(Step(e, s, op).redis, job)
    ensures MoveOf(e, s, op, job).Stay? || MoveOf(e, s, op, job).Note?
  {
    AllEntriesRoundTrip();
    hide ParseEntry, FormatEntry, Score, BackoffSeconds, Lease, Latest, IsMin;
    assert JobInv(e.cfg, s.db.jobs[job]);
    if op.CompleteAttempt? || op.Renew? || op.ExpireLease? || op.ReapOne? {
      if op.id.job == job && HasRow(s.db, op.id) && Active(TheRow(s.db, op.id)) {
        ActiveIsLast(e.cfg, s.db.jobs[job], op.id.row);
      }
    }
    if op.RequeueOrphan? {
      NothingToReconcile(e.cfg, s.db, [op.job]);
    }
  }

  /** A waiting job that Redis has forgotten waits forever: unless a fault
      restores an entry for it, no action of any run changes its status, its
      place outside both sets, or any column of its attempts but the log. */
  lemma {:induction false} ForgottenForever(e: Env, s: State, ops: seq<Op>, job: string)
    requires DbInv(e.cfg, s.db) && EnabledRun(e, s, ops)
    requires job in s.db.jobs && s.db.jobs[job].status == JobQueued && Forgotten(s.redis, job)
    requires forall i :: 0 <= i < |ops| && ops[i].RedisFault? ==> Forgotten(Redis(ops[i].queue, ops[i].delayed), job)
    ensures var s' := Run(e, s, ops);
            && job in s'.db.jobs && s'.db.jobs[job].status == JobQueued && Forgotten(s'.redis, job)
            && SameButLogs(s.db.jobs[job], s'.db.jobs[job])
  {
    hide Step, Enabled, Forgotten;
    if ops != [] {
      var front, last := ops[..|ops| - 1], ops[|ops| - 1];
      RunLast(e, s, ops);
      ForgottenForever(e, s, front, job);
      RunKeepsDb(e, s, front);
      StepForgets(e, Run(e, s, front), last, job);
      StepMoves(e, Run(e, s, front), last, job);
    }
  }

  // ---- the two halves of a renewal --------------------------------------------------

  /** `mark_running` on its own looks only at the token, so it keeps the
      database consistent exactly when it is not aimed at a terminal attempt
      whose token it knows. */
  lemma MarkRunningSafeIff(e: Env, s: State, id: AttemptId, token: string)
    requires DbInv(e.cfg, s.db)
    ensures DbInv(e.cfg, MarkRunning(s, id, token).db)
            <==> !(OwnsRow(s.db, id, token) && !Active(TheRow(s.db, id)))
  {
    if OwnsRow(s.db, id, token) {
      var job := s.db.jobs[id.job];
      assert JobInv(e.cfg, job);
      var s' := MarkRunning(s, id, token);
      if Active(job.attempts[id.row]) {
        ActiveIsLast(e.cfg, job, id.row);
        SetLastKeepsShape(e.cfg, job, Last(job).(status := Running));
        assert JobInv(e.cfg, s'.db.jobs[id.job]);
      } else {
        assert s'.db.jobs[id.job].attempts[id.row].status == Running;
        if JobInv(e.cfg, s'.db.jobs[id.job]) {
          ActiveIsLast(e.cfg, s'.db.jobs[id.job], id.row);
        }
      }
    } else {
      assert MarkRunning(s, id, token) == s;
    }
  }

  /** Separated from its guard it can undo a verdict: if a renewal is decided,
      the attempt then finishes, and only then `mark_running` executes, the
      finished job is reaped as soon as the renewed lease runs out. A job with
      budget left goes back to the queue although it had SUCCEEDED or FAILED. */
  lemma SplitRenewalUndoesVerdict(e: Env, s: State, id: AttemptId, token: string, seen: nat)
    requires DbInv(e.cfg, s.db) && OwnsRow(s.db, id, token)
    requires id.row == |s.db.jobs[id.job].attempts| - 1
    requires Final(s.db.jobs[id.job].status) && RetryLeft(e.cfg, TheRow(s.db, id))
    requires seen < s.pos && TheRow(s.db, id).expires.value < e.tick(seen)
    ensures var s1 := MarkRunning(s, id, token);
            && Enabled(e, s1, ReapOne(id, seen))
            && Step(e, s1, ReapOne(id, seen)).db.jobs[id.job].status == JobQueued
            && |Step(e, s1, ReapOne(id, seen)).db.jobs[id.job].attempts| == id.row + 2
  {
    hide BackoffSeconds, FormatEntry;
    assert JobInv(e.cfg, s.db.jobs[id.job]);
  }

  /** The reaper names a failed step only where none is stored: a finished row that
      a split renewal has set RUNNING keeps the one its report gave. */
  lemma ReapKeepsFailedStep(e: Env, s: State, id: AttemptId, seen: nat)
    requires HasRow(s.db, id)
    ensures var before, after := TheRow(s.db, id).failedStep, Step(e, s, ReapOne(id, seen)).db;
            && HasRow(after, id)
            && TheRow(after, id).failedStep ==
               if before == None || before.value == "" then Some("lease_expired") else before
  {
    hide BackoffSeconds, FormatEntry;
  }

  /** The opening of the race: one worker, one job, one claim. */
  function Opening(w: string, j: string, token: string): seq<Op> {
    [Register(w)] + [Create(j, 0, true)] + [Claim(w, token)]
  }

  lemma OneClaim(e: Env, w: string, j: string, token: string)
    ensures var claimed := Run(e, InitialState(), Opening(w, j, token));
            && EnabledRun(e, InitialState(), Opening(w, j, token))
            && claimed.pos == 4
            && claimed.db.jobs == map[j := Lease(e.cfg, NewJob(0), w, token, e.tick(2), e.tick(3))]
            && DbInv(e.cfg, claimed.db)
  {
    hide Score, IsMin, Lease;
    var s0 := InitialState();
    var s1 := Step(e, s0, Register(w));
    var s2 := Step(e, s1, Create(j, 0, true));
    assert s2.pos == 2 && s2.db.jobs == map[j := NewJob(0)] && s2.redis.queue.Keys == {j};
    PoppedIsQueued(s2);
    var s3 := Step(e, s2, Claim(w, token));
    assert s3.db.jobs == map[j := Lease(e.cfg, NewJob(0), w, token, e.tick(2), e.tick(3))];
    hide Step, Enabled;
    RunFirst(e, s0, Register(w));
    RunSnoc(e, s0, [Register(w)], Create(j, 0, true));
    RunSnoc(e, s0, [Register(w)] + [Create(j, 0, true)], Claim(w, token));
    RequestsAreEnabled(e, s0, Opening(w, j, token));
    RunKeepsDb(e, s0, Opening(w, j, token));
  }

  lemma RequestsAreEnabled(e: Env, s: State, ops: seq<Op>)
    requires forall i :: 0 <= i < |ops| ==> ops[i].Register? || ops[i].Create? || ops[i].Claim?
    ensures EnabledRun(e, s, ops)
  {
  }

  lemma PoppedIsQueued(s: State)
    requires s.redis.queue != map[]
    ensures Popped(s) in s.redis.queue
  {
  }

  /** The race is reachable: a worker's renewal is admitted, its success report
      overtakes the second half, and the second half then executes. */
  lemma SplitRenewalReachable(e: Env, w: string, j: string, token: string)
    requires e.tick(5) <= e.tick(4) + e.cfg.jobLeaseSeconds
    ensures var id := AttemptId(j, 0);
            var claimed := Run(e, InitialState(), Opening(w, j, token));
            var renewed := RenewLease(e, claimed, id, token);
            var finished := Step(e, renewed, CompleteAttempt(id, token, Report(0, false, None)));
            && EnabledRun(e, InitialState(), Opening(w, j, token))
            && DbInv(e.cfg, finished.db)
            && j in finished.db.jobs && finished.db.jobs[j].status == JobSucceeded
            && !DbInv(e.cfg, MarkRunning(finished, id, token).db)
  {
    var id := AttemptId(j, 0);
    OneClaim(e, w, j, token);
    var claimed := Run(e, InitialState(), Opening(w, j, token));
    hide Run, Step, DbInv, Lease, Opening;
    ClaimedRow(e.cfg, w, token, e.tick(2), e.tick(3));
    assert HoldsLease(claimed.db, id, token);
    RenewLeaseKeepsDb(e, claimed, id, token);
    var renewed := RenewLease(e, claimed, id, token);
    RenewedIsAccepted(e, claimed, id, token);
    hide RenewLease;
    AcceptedSuccess(e, renewed, id, token);
    MarkRunningSafeIff(e, Step(e, renewed, CompleteAttempt(id, token, Report(0, false, None))), id, token);
  }

  lemma RenewedIsAccepted(e: Env, s: State, id: AttemptId, token: string)
    requires HoldsLease(s.db, id, token) && e.tick(s.pos + 1) <= e.tick(s.pos) + e.cfg.jobLeaseSeconds
    ensures Accepts(e, RenewLease(e, s, id, token), id, token)
  {
  }

  lemma ClaimedRow(cfg: Settings, w: string, token: string, t1: real, t2: real)
    ensures var job := Lease(cfg, NewJob(0), w, token, t1, t2);
            |job.attempts| == 1 && job.attempts[0].token == Some(token) && Active(job.attempts[0])
  {
  }

  lemma AcceptedSuccess(e: Env, s: State, id: AttemptId, token: string)
    requires DbInv(e.cfg, s.db) && Accepts(e, s, id, token)
    ensures var s' := Step(e, s, CompleteAttempt(id, token, Report(0, false, None)));
            && DbInv(e.cfg, s'.db) && id.job in s'.db.jobs && s'.db.jobs[id.job].status == JobSucceeded
            && OwnsRow(s'.db, id, token) && TheRow(s'.db, id).status == Succeeded
  {
    StepKeepsDb(e, s, CompleteAttempt(id, token, Report(0, false, None)));
    hide DbInv;
  }

  lemma RenewLeaseKeepsDb(e: Env, s: State, id: AttemptId, token: string)
    requires DbInv(e.cfg, s.db)
    ensures DbInv(e.cfg, RenewLease(e, s, id, token).db)
  {
    if HoldsLease(s.db, id, token) {
      var job := s.db.jobs[id.job];
      assert JobInv(e.cfg, job);
      ActiveIsLast(e.cfg, job, id.row);
      SetLastKeepsShape(e.cfg, job, TheRow(RenewLease(e, s, id, token).db, id));
    }
  }

  // ---- a report after the verdict -------------------------------------------------------

  lemma ClaimedUntil(cfg: Settings, w: string, token: string, t1: real, t2: real)
    ensures Lease(cfg, NewJob(0), w, token, t1, t2).attempts[0].expires == Some(t1 + cfg.jobLeaseSeconds)
  {
  }

  /** The documentation says that a stale worker cannot update a terminal
      attempt. It can append to its log: after a claim and an accepted report,
      the same worker's second report is rejected and yet changes the row. */
  lemma LateTailReachable(e: Env, w: string, j: string, token: string, tail: string)
    requires e.tick(4) <= e.tick(2) + e.cfg.jobLeaseSeconds && tail != ""
    ensures var id, done := AttemptId(j, 0), Report(0, false, None);
            var ops := Opening(w, j, token) + [CompleteAttempt(id, token, done)];
            var s := Run(e, InitialState(), ops);
            var s' := Run(e, s, CompleteOps(id, token, done, Some(tail)));
            && EnabledRun(e, InitialState(), ops)
            && Terminal(s.db, id) && TheRow(s.db, id).status == Succeeded && !Accepts(e, s, id, token)
            && HasRow(s'.db, id) && TheRow(s'.db, id).logs == TheRow(s.db, id).logs + tail
  {
    var id, done := AttemptId(j, 0), Report(0, false, None);
    OneClaim(e, w, j, token);
    var claimed := Run(e, InitialState(), Opening(w, j, token));
    RunSnoc(e, InitialState(), Opening(w, j, token), CompleteAttempt(id, token, done));
    assert Enabled(e, claimed, CompleteAttempt(id, token, done));
    ClaimIsAccepted(e, claimed, w, j, token);
    hide Run, Step, DbInv, Lease, EnabledRun, Opening, CompleteOps, Enabled, Accepts, Terminal;
    AcceptedSuccess(e, claimed, id, token);
    SecondReport(e, Step(e, claimed, CompleteAttempt(id, token, done)), id, token, done, tail);
  }

  lemma ClaimIsAccepted(e: Env, s: State, w: string, j: string, token: string)
    requires s.pos == 4 && s.db.jobs == map[j := Lease(e.cfg, NewJob(0), w, token, e.tick(2), e.tick(3))]
    requires e.tick(4) <= e.tick(2) + e.cfg.jobLeaseSeconds
    ensures Accepts(e, s, AttemptId(j, 0), token)
  {
    ClaimedRow(e.cfg, w, token, e.tick(2), e.tick(3));
    ClaimedUntil(e.cfg, w, token, e.tick(2), e.tick(3));
  }

  lemma SecondReport(e: Env, s: State, id: AttemptId, token: string, report: Report, tail: string)
    requires OwnsRow(s.db, id, token) && !Active(TheRow(s.db, id)) && tail != ""
    ensures !Accepts(e, s, id, token) && Terminal(s.db, id)
    ensures var s' := Run(e, s, CompleteOps(id, token, report, Some(tail)));
            HasRow(s'.db, id) && TheRow(s'.db, id).logs == TheRow(s.db, id).logs + tail
  {
    RejectedReportDb(e, s, id, token, report, Some(tail));
    hide Run;
  }
}
