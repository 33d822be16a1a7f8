/** The server's functions over their mutable stores, each proved to perform
    exactly the actions that `Protocol` prescribes for it. */
module Server {
  import opened Options
  import opened DelayedEntry
  import opened SortedSet
  import opened QueueScore
  import opened Records
  import opened Protocol

  datatype ClaimReply = WorkerNotFound | NoContent | LeaseClaim(id: AttemptId, number: int, token: string)

  /** Rows of a query without ORDER BY: any order is possible. */
  method InSomeOrder<T(==, !new)>(selected: set<T>) returns (rows: seq<T>)
    ensures Enumerates(rows, selected)
  {
    rows := [];
    var rest := selected;
    while rest != {}
      invariant forall x :: x in selected <==> x in rows || x in rest
      invariant forall x :: x in rows ==> x !in rest
      invariant Distinct(rows)
      decreases |rest|
    {
      var x :| x in rest;
      rest := rest - {x};
      rows := rows + [x];
    }
  }

  lemma ReportedRow(job: Job, row: nat, report: Report, t: real)
    requires row < |job.attempts|
    ensures |Reported(job, row, report, t).attempts| == |job.attempts|
    ensures Reported(job, row, report, t).attempts[row].number == job.attempts[row].number
  {
  }

  /** A retry decided on a job stored before looks only at that job. */
  lemma FailureOverwrites(e: Env, s: State, marked: State, id: AttemptId, job: Job)
    requires id.row < |job.attempts| && marked == s.(db := PutJob(s.db, id.job, job))
    ensures AfterFailure(e, marked, id, job) == AfterFailure(e, s, id, job)
  {
    var retried := Retry(e.cfg, job, id.row, Now(e, s));
    assert s.db.jobs[id.job := job][id.job := retried] == s.db.jobs[id.job := retried];
  }

  lemma LongerPlan(plan: seq<Casualty>, last: Casualty, seen: nat)
    ensures BuryOps(plan + [last], seen) ==
            BuryOps(plan, seen) + [MarkDead(last.worker, seen)] + ExpireOps(last.rows, last.worker)
  {
    assert (plan + [last])[..|plan|] == plan;
  }

  /** The plan of the dead-worker sweep after its first `|plan|` workers. */
  ghost predicate PlanSoFar(db: Db, stale: seq<string>, plan: seq<Casualty>) {
    && |plan| <= |stale|
    && (forall i :: 0 <= i < |plan| ==> plan[i].worker == stale[i])
    && forall i :: 0 <= i < |plan| ==> Enumerates(plan[i].rows, RowsHeldBy(db, plan[i].worker))
  }

  lemma PlanGrows(db: Db, stale: seq<string>, plan: seq<Casualty>, rows: seq<AttemptId>)
    requires PlanSoFar(db, stale, plan) && |plan| < |stale|
    requires Enumerates(rows, RowsHeldBy(db, stale[|plan|]))
    ensures PlanSoFar(db, stale, plan + [Casualty(stale[|plan|], rows)])
  {
    hide Enumerates, RowsHeldBy;
  }

  lemma WholePlan(e: Env, db: Db, t: real, stale: seq<string>, plan: seq<Casualty>)
    requires Enumerates(stale, StaleWorkers(e, db, t)) && PlanSoFar(db, stale, plan) && |plan| == |stale|
    ensures IsPlan(e, db, t, plan)
  {
    hide Enumerates, StaleWorkers, RowsHeldBy;
    assert seq(|plan|, i requires 0 <= i < |plan| => plan[i].worker) == stale;
  }

  ghost predicate AllThere(db: Db, rows: seq<AttemptId>) {
    forall id :: id in rows ==> HasRow(db, id)
  }

  ghost predicate KeepsRows(db: Db, db': Db) {
    forall id :: HasRow(db, id) ==> HasRow(db', id)
  }

  lemma StillThere(db: Db, db': Db, rows: seq<AttemptId>)
    requires AllThere(db, rows) && KeepsRows(db, db')
    ensures AllThere(db', rows)
  {
    hide HasRow;
  }

  lemma RowIsThere(db: Db, rows: seq<AttemptId>, n: nat)
    requires AllThere(db, rows) && n < |rows|
    ensures HasRow(db, rows[n])
  {
  }

  lemma OneMoreReaped(rows: seq<AttemptId>, n: nat, seen: nat)
    requires n < |rows|
    ensures ReapOps(rows[..n + 1], seen) == ReapOps(rows[..n], seen) + [ReapOne(rows[n], seen)]
  {
  }

  class CiServer {
    const e: Env
    var workers: map<string, Worker>
    var jobs: map<string, Job>
    var queue: ZSet
    var delayed: ZSet
    var pos: nat

    ghost function View(): State
      reads this
    {
      State(Db(workers, jobs), Redis(queue, delayed), pos)
    }

    constructor (e: Env)
      ensures this.e == e && View() == InitialState()
    {
      this.e := e;
      workers, jobs, queue, delayed, pos := map[], map[], map[], map[], 0;
    }

    method Now() returns (t: real)
      modifies `pos
      ensures t == e.tick(old(pos)) && pos == old(pos) + 1
    {
      t := e.tick(pos);
      pos := pos + 1;
    }

    // ---- redis_client -------------------------------------------------------

    method Enqueue(job: string, priority: int, ts: real)
      modifies `queue
      ensures queue == old(queue)[job := Score(e.rnd, priority, ts)]
    {
      queue := queue[job := Score(e.rnd, priority, ts)];
    }

    method DequeueOne() returns (job: Option<string>)
      modifies `queue
      ensures old(queue) == map[] ==> job == None && queue == map[]
      ensures old(queue) != map[] ==>
                job == Some(MinMember(old(queue))) && queue == old(queue) - {MinMember(old(queue))}
    {
      if queue == map[] {
        return None;
      }
      var m := FindMin(queue);
      MinUnique(queue, m, MinMember(queue));
      queue := queue - {m};
      job := Some(m);
    }

    // ---- workers ------------------------------------------------------------

    method RegisterWorker(worker: string) returns (added: bool)
      modifies this
      ensures View() == Step(e, old(View()), Register(worker))
      ensures added <==> worker !in old(workers)
    {
      added := worker !in workers;
      if added {
        var t := Now();
        workers := workers[worker := Worker(Online, t)];
      }
    }

    method HeartbeatFrom(worker: string) returns (found: bool)
      modifies this
      ensures View() == Step(e, old(View()), Heartbeat(worker))
      ensures found <==> worker in old(workers)
    {
      found := worker in workers;
      if found {
        var t := Now();
        workers := workers[worker := workers[worker].(lastHeartbeat := t)];
        if workers[worker].status == Dead {
          workers := workers[worker := workers[worker].(status := Online)];
        }
      }
    }

    /** `claim_next_job` after the pop: lease the latest row. */
    method LeaseJob(job: string, worker: string, token: string) returns (id: AttemptId, number: int)
      requires job in jobs
      modifies this
      ensures workers == old(workers) && queue == old(queue) && delayed == old(delayed) && pos == old(pos) + 2
      ensures jobs ==
              old(jobs)[job := Lease(e.cfg, old(jobs)[job], worker, token, e.tick(old(pos)), e.tick(old(pos) + 1))]
      ensures id.job == job && HoldsLease(View().db, id, token) && number == TheRow(View().db, id).number
    {
      if jobs[job].attempts == [] {
        jobs := jobs[job := jobs[job].(attempts := [NewAttempt(1, None)])];
      }
      var row := Latest(jobs[job].attempts);
      var attempt := jobs[job].attempts[row];
      attempt := attempt.(worker := Some(worker), status := Leased, token := Some(token));
      var t := Now();
      attempt := attempt.(expires := Some(t + e.cfg.jobLeaseSeconds));
      t := Now();
      attempt := attempt.(started := Some(t));
      jobs := jobs[job := SetRow(jobs[job], row, attempt).(status := JobRunning)];
      id, number := AttemptId(job, row), attempt.number;
    }

    method ClaimJob(worker: string, token: string) returns (reply: ClaimReply)
      modifies this
      ensures View() == Step(e, old(View()), Claim(worker, token))
      ensures reply == WorkerNotFound <==> worker !in old(workers)
      ensures reply.LeaseClaim? <==>
                Pops(old(View()), worker)
                && MinMember(old(queue)) in old(jobs) && old(jobs)[MinMember(old(queue))].status == JobQueued
      ensures reply.LeaseClaim? ==>
                reply.id.job == MinMember(old(queue)) && reply.token == token
                && HoldsLease(View().db, reply.id, token) && reply.number == TheRow(View().db, reply.id).number
    {
      hide Lease, HoldsLease, IsMin;
      if worker !in workers {
        return WorkerNotFound;
      }
      if workers[worker].status != Online {
        return NoContent;
      }
      var popped := DequeueOne();
      if popped == None {
        return NoContent;
      }
      var job := popped.value;
      if job !in jobs || jobs[job].status != JobQueued {
        return NoContent;  // a stale queue entry is dropped
      }
      var id, number := LeaseJob(job, worker, token);
      reply := LeaseClaim(id, number, token);
    }

    // ---- attempts -----------------------------------------------------------

    method RenewOnly(id: AttemptId, token: string) returns (ok: bool)
      modifies this
      ensures View() == RenewLease(e, old(View()), id, token)
      ensures ok <==> HoldsLease(old(View()).db, id, token)
    {
      if id.job !in jobs || id.row >= |jobs[id.job].attempts| || jobs[id.job].attempts[id.row].token != Some(token) {
        return false;
      }
      var attempt := jobs[id.job].attempts[id.row];
      if !Active(attempt) {
        return false;
      }
      var t := Now();
      jobs := jobs[id.job := SetRow(jobs[id.job], id.row, attempt.(expires := Some(t + e.cfg.jobLeaseSeconds)))];
      ok := true;
    }

    method MarkRunningOnly(id: AttemptId, token: string) returns (ok: bool)
      modifies this
      ensures View() == MarkRunning(old(View()), id, token)
      ensures ok <==> OwnsRow(old(View()).db, id, token)
    {
      if id.job !in jobs || id.row >= |jobs[id.job].attempts| || jobs[id.job].attempts[id.row].token != Some(token) {
        return false;
      }
      var attempt := jobs[id.job].attempts[id.row];
      jobs := jobs[id.job := SetRow(jobs[id.job], id.row, attempt.(status := Running))];
      ok := true;
    }

    method RenewRequest(id: AttemptId, token: string) returns (ok: bool)
      modifies this
      ensures View() == Step(e, old(View()), Renew(id, token))
      ensures ok <==> HoldsLease(old(View()).db, id, token)
    {
      ok := RenewOnly(id, token);
      if ok {
        var _ := MarkRunningOnly(id, token);
      }
    }

    method AppendLogChunk(id: AttemptId, token: string, text: string) returns (ok: bool)
      modifies this
      ensures View() == Step(e, old(View()), AppendLog(id, token, text))
      ensures ok <==> HoldsLease(old(View()).db, id, token)
    {
      if id.job !in jobs || id.row >= |jobs[id.job].attempts| {
        return false;
      }
      var attempt := jobs[id.job].attempts[id.row];
      if attempt.token != Some(token) || !Active(attempt) {
        return false;
      }
      jobs := jobs[id.job := SetRow(jobs[id.job], id.row, attempt.(logs := attempt.logs + text))];
      ok := true;
    }

    method MaybeRetry(id: AttemptId) returns (requeued: bool)
      requires HasRow(View().db, id)
      modifies this
      ensures View() == AfterFailure(e, old(View()), id, old(jobs)[id.job])
      ensures requeued <==> RetryLeft(e.cfg, old(TheRow(View().db, id)))
    {
      var job := jobs[id.job];
      var failed := job.attempts[id.row];
      if failed.number >= e.cfg.maxJobAttempts {
        jobs := jobs[id.job := job.(status := JobErrored)];
        return false;
      }
      var t := Now();
      var ready := t + BackoffSeconds(e.cfg, failed.number);
      job := job.(attempts := job.attempts + [NewAttempt(failed.number + 1, Some(ready))]);
      jobs := jobs[id.job := job.(status := JobQueued)];
      ScheduleDelayedRequeue(id.job, ready, job.priority);
      requeued := true;
    }

    method ScheduleDelayedRequeue(job: string, ready: real, priority: int)
      modifies `delayed
      ensures delayed == old(delayed)[FormatEntry(job, priority) := ready]
    {
      delayed := delayed[FormatEntry(job, priority) := ready];
    }

    /** The outcome columns of an accepted report. */
    method RecordOutcome(id: AttemptId, report: Report)
      requires HasRow(View().db, id)
      modifies this
      ensures workers == old(workers) && queue == old(queue) && delayed == old(delayed) && pos == old(pos) + 1
      ensures jobs == old(jobs)[id.job := Reported(old(jobs)[id.job], id.row, report, e.tick(old(pos)))]
    {
      var t := Now();
      var attempt := jobs[id.job].attempts[id.row];
      attempt := attempt.(finished := Some(t), exitCode := Some(report.exitCode),
                          failedStep := report.failedStep, permanent := report.permanent);
      if report.exitCode == 0 {
        jobs := jobs[id.job := SetRow(jobs[id.job], id.row, attempt.(status := Succeeded)).(status := JobSucceeded)];
      } else if report.permanent {
        jobs := jobs[id.job := SetRow(jobs[id.job], id.row, attempt.(status := Failed)).(status := JobFailed)];
      } else {
        jobs := jobs[id.job := SetRow(jobs[id.job], id.row, attempt.(status := InfraError))];
      }
    }

    /** None is the rejection of a stale report; Some(requeued) an acceptance. */
    method Finalize(id: AttemptId, token: string, report: Report) returns (result: Option<bool>)
      modifies this
      ensures View() == Step(e, old(View()), CompleteAttempt(id, token, report))
      ensures result.Some? <==> Accepts(e, old(View()), id, token)
      ensures result.Some? ==>
                (result.value <==> InfraReport(report) && RetryLeft(e.cfg, old(TheRow(View().db, id))))
    {
      hide AfterFailure, Reported;
      if id.job !in jobs || id.row >= |jobs[id.job].attempts| {
        return None;
      }
      var attempt := jobs[id.job].attempts[id.row];
      if attempt.token != Some(token) || !Active(attempt) || attempt.expires == None {
        return None;
      }
      var t := Now();
      if attempt.expires.value < t {
        return None;
      }
      ghost var before := View();
      RecordOutcome(id, report);
      ReportedRow(before.db.jobs[id.job], id.row, report, e.tick(before.pos));
      var requeued := false;
      if report.exitCode != 0 && !report.permanent {
        ghost var marked := View();
        requeued := MaybeRetry(id);
        FailureOverwrites(e, before.(pos := marked.pos), marked, id, marked.db.jobs[id.job]);
      }
      result := Some(requeued);
    }

    /** The handler of /complete: the log tail is stored before the report is
        judged, if only the token matches. */
    method Complete(id: AttemptId, token: string, report: Report, tail: Option<string>) returns (result: Option<bool>)
      modifies this
      ensures View() == Run(e, old(View()), CompleteOps(id, token, report, tail))
      ensures result.Some? <==> Accepts(e, old(View()), id, token)
    {
      ghost var s := View();
      var ops := [];
      if tail.Some? && tail.value != "" {
        ops := [AppendTail(id, token, tail.value)];
        if id.job in jobs && id.row < |jobs[id.job].attempts| && jobs[id.job].attempts[id.row].token == Some(token) {
          var attempt := jobs[id.job].attempts[id.row];
          jobs := jobs[id.job := SetRow(jobs[id.job], id.row, attempt.(logs := attempt.logs + tail.value))];
        }
        assert ops[..0] == [];
      }
      assert View() == Run(e, s, ops);
      result := Finalize(id, token, report);
      assert (ops + [CompleteAttempt(id, token, report)])[..|ops|] == ops;
    }

    // ---- job_manager ----------------------------------------------------------

    method CreateAndEnqueueJob(job: string, priority: int, pipelineValid: bool) returns (created: bool)
      modifies this
      ensures View() == Step(e, old(View()), Create(job, priority, pipelineValid))
      ensures created <==> Creatable(old(View()).db, job, priority, pipelineValid)
    {
      if !pipelineValid || job in jobs || !PriorityInRange(priority) {
        return false;
      }
      jobs := jobs[job := Job(JobQueued, priority, [NewAttempt(1, None)])];
      var t := Now();
      Enqueue(job, priority, t);
      created := true;
    }

    // ---- the reaper -----------------------------------------------------------

    /** The body of the promotion loop; `int(priority)` raises if not ok. */
    method PromoteEntry(entry: string, ghost seen: nat) returns (ok: bool)
      modifies this
      ensures ok <==> WellFormed(entry)
      ensures ok ==> View() == Step(e, old(View()), PromoteOne(entry, seen))
      ensures !ok ==> View() == old(View())
    {
      var parsed := ParseEntry(entry);
      ok := parsed.Some?;
      if ok {
        var t := Now();
        Enqueue(parsed.value.0, parsed.value.1, t);
        delayed := delayed - {entry};
      }
    }

    method PromoteDelayed() returns (promoted: nat, raised: bool, ghost entries: seq<string>)
      modifies this
      ensures Selected(e, old(View()), PromoteDelayedJobs(entries))
      ensures View() == SweepStep(e, old(View()), PromoteDelayedJobs(entries))
      ensures promoted == WellFormedPrefix(entries)
      ensures raised <==> promoted < |entries|
    {
      hide Run, WellFormed, IsRange, EnabledRun, LexLeq, Score, ParseEntry;
      ghost var s := View();
      var cutoff := Now();
      var ready := RangeByScore(delayed, 0.0, cutoff);
      entries := ready;
      ghost var n := WellFormedPrefix(ready);
      ghost var ops := [ReadClock];
      RunFirst(e, s, ReadClock);
      promoted, raised := 0, false;
      hide Step;
      while promoted < |ready|
        invariant promoted <= n
        invariant ops == [ReadClock] + PromoteOps(ready[..promoted], s.pos)
        invariant View() == Run(e, s, ops)
        invariant !raised
      {
        ghost var op := PromoteOne(ready[promoted], s.pos);
        var ok := PromoteEntry(ready[promoted], s.pos);
        if !ok {
          raised := true;
          break;
        }
        RunSnoc(e, s, ops, op);
        ops := ops + [op];
        promoted := promoted + 1;
      }
    }

    /** The body of the expiry loop. */
    method ReapRow(id: AttemptId, ghost seen: nat)
      requires HasRow(View().db, id)
      modifies this
      ensures View() == Step(e, old(View()), ReapOne(id, seen))
      ensures KeepsRows(old(View()).db, View().db)
    {
      ghost var before := View();
      var t := Now();
      jobs := jobs[id.job := Lapsed(jobs[id.job], id.row, t)];
      ghost var marked := jobs;
      var requeued := MaybeRetry(id);
      if !requeued {
        jobs := jobs[id.job := jobs[id.job].(status := JobErrored)];
      }
      assert jobs == before.db.jobs[id.job := jobs[id.job]];
    }

    method ReapExpired() returns (count: nat, ghost selected: seq<AttemptId>)
      modifies this
      ensures Selected(e, old(View()), ReapExpiredLeases(selected))
      ensures View() == SweepStep(e, old(View()), ReapExpiredLeases(selected))
      ensures count == |selected|
    {
      hide Run;
      ghost var s := View();
      var t := Now();
      var rows := InSomeOrder(ExpiredRows(Db(workers, jobs), t));
      selected := rows;
      assert Selected(e, s, ReapExpiredLeases(rows));
      ghost var ops := [ReadClock];
      RunFirst(e, s, ReadClock);
      assert AllThere(View().db, rows) && ReapOps(rows[..0], s.pos) == [];
      count := 0;
      hide Step, Enumerates, ExpiredRows, Selected, AllThere, KeepsRows, ReapOps;
      while count < |rows|
        invariant count <= |rows|
        invariant AllThere(View().db, rows)
        invariant ops == [ReadClock] + ReapOps(rows[..count], s.pos)
        invariant View() == Run(e, s, ops)
      {
        ghost var op := ReapOne(rows[count], s.pos);
        ghost var db := View().db;
        assert HasRow(db, rows[count]) by { RowIsThere(db, rows, count); }
        ReapRow(rows[count], s.pos);
        StillThere(db, View().db, rows);
        RunSnoc(e, s, ops, op);
        OneMoreReaped(rows, count, s.pos);
        ops := ops + [op];
        count := count + 1;
      }
      assert rows[..count] == rows;
    }

    method ExpireRow(id: AttemptId, ghost holder: string)
      requires HasRow(View().db, id)
      modifies this
      ensures View() == Step(e, old(View()), ExpireLease(id, holder))
      ensures SameOwners(old(View()).db, View().db) && workers == old(workers)
    {
      var t := Now();
      jobs := jobs[id.job := SetRow(jobs[id.job], id.row, jobs[id.job].attempts[id.row].(expires := Some(t)))];
    }

    /** The body of the dead-worker loop: mark one worker, expire its leases. */
    method BuryWorker(worker: string, ghost seen: nat, ghost s: State, ghost done: seq<Op>)
      returns (ghost held: seq<AttemptId>)
      requires worker in workers && View() == Run(e, s, done)
      modifies this
      ensures Enumerates(held, RowsHeldBy(old(View()).db, worker))
      ensures View() == Run(e, s, done + [MarkDead(worker, seen)] + ExpireOps(held, worker))
      ensures workers == old(workers)[worker := old(workers)[worker].(status := Dead)]
      ensures SameOwners(old(View()).db, View().db)
    {
      hide Run;
      ghost var db := View().db;
      workers := workers[worker := workers[worker].(status := Dead)];
      var dead := workers;
      ghost var ops := done + [MarkDead(worker, seen)];
      RunSnoc(e, s, done, MarkDead(worker, seen));
      var rows := InSomeOrder(RowsHeldBy(Db(workers, jobs), worker));
      held := rows;
      assert SameOwners(db, View().db);
      SameOwnersSameRows(db, View().db, worker);
      hide Step;
      for i := 0 to |rows|
        invariant workers == dead
        invariant SameOwners(db, View().db)
        invariant ops == done + [MarkDead(worker, seen)] + ExpireOps(rows[..i], worker)
        invariant View() == Run(e, s, ops)
      {
        ghost var op := ExpireLease(rows[i], worker);
        assert rows[i] in rows && HasRow(db, rows[i]);
        ExpireRow(rows[i], worker);
        RunSnoc(e, s, ops, op);
        ops := ops + [op];
      }
      assert rows[..|rows|] == rows;
    }

    method ReapDead() returns (count: nat, ghost plan: seq<Casualty>)
      modifies this
      ensures Selected(e, old(View()), ReapDeadWorkers(plan))
      ensures View() == SweepStep(e, old(View()), ReapDeadWorkers(plan))
      ensures count == |plan|
    {
      hide Run;
      ghost var s := View();
      var t := Now();
      var stale := InSomeOrder(StaleWorkers(e, Db(workers, jobs), t));
      plan := [];
      count := 0;
      ghost var ops := [ReadClock];
      RunFirst(e, s, ReadClock);
      assert BuryOps(plan, s.pos) == [];
      assert forall w :: w in stale ==> w in workers;
      hide Step, BuryOps, ExpireOps, RowsHeldBy, SameOwners, PlanSoFar, Enumerates, IsPlan, StaleWorkers;
      while count < |stale|
        invariant count == |plan| <= |stale| && PlanSoFar(s.db, stale, plan)
        invariant workers.Keys == s.db.workers.Keys
        invariant SameOwners(s.db, View().db)
        invariant ops == [ReadClock] + BuryOps(plan, s.pos)
        invariant View() == Run(e, s, ops)
      {
        var worker := stale[count];
        assert worker in stale;
        SameOwnersSameRows(s.db, View().db, worker);
        ghost var held := BuryWorker(worker, s.pos, s, ops);
        PlanGrows(s.db, stale, plan, held);
        LongerPlan(plan, Casualty(worker, held), s.pos);
        ops := ops + [MarkDead(worker, s.pos)] + ExpireOps(held, worker);
        plan := plan + [Casualty(worker, held)];
        count := count + 1;
      }
      WholePlan(e, s.db, t, stale, plan);
    }

    method ReconcileOrphaned() returns (requeued: nat, ghost order: seq<string>)
      modifies this
      ensures Selected(e, old(View()), ReconcileOrphanedJobs(order))
      ensures View() == SweepStep(e, old(View()), ReconcileOrphanedJobs(order))
      ensures requeued == |OrphanOps(old(View()).db, order)|
    {
      ghost var s := View();
      var queued := InSomeOrder(QueuedJobs(Db(workers, jobs)));
      order := queued;
      requeued := 0;
      assert queued[..0] == [];
      for i := 0 to |queued|
        invariant View().db == s.db
        invariant View() == Run(e, s, OrphanOps(s.db, queued[..i]))
        invariant requeued == |OrphanOps(s.db, queued[..i])|
      {
        assert queued[..i + 1][..i] == queued[..i];
        if Orphaned(Db(workers, jobs), queued[i]) {
          var t := Now();
          Enqueue(queued[i], jobs[queued[i]].priority, t);
          requeued := requeued + 1;
          ghost var ops := OrphanOps(s.db, queued[..i]);
          assert OrphanOps(s.db, queued[..i + 1]) == ops + [RequeueOrphan(queued[i])];
          assert (ops + [RequeueOrphan(queued[i])])[..|ops|] == ops;
        } else {
          assert OrphanOps(s.db, queued[..i + 1]) == OrphanOps(s.db, queued[..i]);
        }
      }
      assert queued[..|queued|] == queued;
    }

    /** One tick: the four sweeps in order; an exception in promotion skips
        reconciliation, the earlier sweeps having committed. */
    method RunReaperOnce() returns (raised: bool, ghost t: Tick)
      modifies this
      ensures TickSelected(e, old(View()), t)
      ensures View() == TickStep(e, old(View()), t)
      ensures raised <==> PromoteRaises(t)
    {
      var _, plan := ReapDead();
      var _, rows := ReapExpired();
      var promoted, failed, entries := PromoteDelayed();
      raised := failed;
      t := Tick(plan, rows, entries, []);
      if !raised {
        var _, order := ReconcileOrphaned();
        t := Tick(plan, rows, entries, order);
      }
    }
  }
}
