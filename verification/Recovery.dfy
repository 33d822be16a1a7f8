/** What a reaper tick achieves: a dead worker holds nothing afterwards, a silent
    holder is recovered from within a bounded time, and a retry whose backoff has
    elapsed rejoins the live queue. */
module Recovery {
  import opened Options
  import opened DelayedEntry
  import opened SortedSet
  import opened QueueScore
  import opened Records
  import opened JobLife
  import opened Protocol
  import opened Database
  import opened Guarantees
  import opened Sweeps
  import opened Ticks
  import opened Tidy
  import opened Automaton

  // ---- what reap_expired_leases does to every row -------------------------------------

  /** Reaped rows are INFRA_ERROR; other rows stay as they are; rows inserted
      for retries belong to nobody. */
  ghost predicate Reaped(s: State, s': State, rows: seq<AttemptId>) {
    && s'.db.workers == s.db.workers && s'.redis.queue == s.redis.queue && s'.pos >= s.pos
    && (forall id :: HasRow(s.db, id) ==> HasRow(s'.db, id))
    && (forall id :: HasRow(s.db, id) ==>
          if id in rows then TheRow(s'.db, id).status == InfraError else TheRow(s'.db, id) == TheRow(s.db, id))
    && (forall id :: HasRow(s'.db, id) && !HasRow(s.db, id) ==> TheRow(s'.db, id).worker == None)
    && (forall j :: j in s.db.jobs && (forall id :: id in rows ==> id.job != j) ==>
          j in s'.db.jobs && s'.db.jobs[j] == s.db.jobs[j])
  }

  lemma ReapedOne(e: Env, s: State, id: AttemptId, seen: nat)
    requires HasRow(s.db, id)
    ensures Reaped(s, Step(e, s, ReapOne(id, seen)), [id])
  {
    hide BackoffSeconds, FormatEntry;
    var s' := Step(e, s, ReapOne(id, seen));
    assert s'.db.jobs == s.db.jobs[id.job := s'.db.jobs[id.job]];
    forall other | HasRow(s.db, other)
      ensures HasRow(s'.db, other)
      ensures if other in [id] then TheRow(s'.db, other).status == InfraError
              else TheRow(s'.db, other) == TheRow(s.db, other)
    {
    }
    assert id in [id];
  }

  lemma ReapedTransitive(s: State, mid: State, s': State, rows: seq<AttemptId>, id: AttemptId)
    requires Reaped(s, mid, rows) && Reaped(mid, s', [id]) && HasRow(s.db, id)
    ensures Reaped(s, s', rows + [id])
  {
    forall other | HasRow(s'.db, other) && !HasRow(s.db, other)
      ensures TheRow(s'.db, other).worker == None
    {
      assert other !in [id];
      if HasRow(mid.db, other) {
        assert TheRow(s'.db, other) == TheRow(mid.db, other);
      }
    }
    forall j | j in s.db.jobs && (forall other :: other in rows + [id] ==> other.job != j)
      ensures j in s'.db.jobs && s'.db.jobs[j] == s.db.jobs[j]
    {
      assert forall other :: other in rows ==> other in rows + [id];
      assert id in rows + [id];
      assert forall other :: other in [id] ==> other.job != j;
    }
  }

  lemma {:induction false} ReapOpsReap(e: Env, s: State, rows: seq<AttemptId>, seen: nat)
    requires forall id :: id in rows ==> HasRow(s.db, id)
    ensures Reaped(s, Run(e, s, ReapOps(rows, seen)), rows)
  {
    hide Step, HasRow;
    if rows == [] {
      assert ReapOps(rows, seen) == [];
      ReapedNone(s);
    } else {
      var n := |rows| - 1;
      var front := rows[..n];
      assert forall id :: id in front ==> id in rows;
      ReapOpsReap(e, s, front, seen);
      var mid := Run(e, s, ReapOps(front, seen));
      assert ReapOps(rows, seen) == ReapOps(front, seen) + [ReapOne(rows[n], seen)];
      RunSnoc(e, s, ReapOps(front, seen), ReapOne(rows[n], seen));
      assert rows[n] in rows;
      ReapedOne(e, mid, rows[n], seen);
      ReapedTransitive(s, mid, Run(e, s, ReapOps(rows, seen)), front, rows[n]);
      assert rows == front + [rows[n]];
    }
  }

  lemma ReapedNone(s: State)
    ensures Reaped(s, s, [])
  {
  }

  /** The expiry sweep: a row that has expired by the sweep's first clock reading
      is reaped, any other row is left alone. */
  lemma ExpirySweep(e: Env, s: State, rows: seq<AttemptId>)
    requires Selected(e, s, ReapExpiredLeases(rows))
    ensures Reaped(s, SweepStep(e, s, ReapExpiredLeases(rows)), rows)
    ensures forall id :: id in rows <==> LeaseExpired(s.db, id, Now(e, s))
  {
    var s1 := Step(e, s, ReadClock);
    forall id
      ensures id in rows <==> LeaseExpired(s.db, id, Now(e, s))
    {
      assert id in rows <==> id in ExpiredRows(s.db, Now(e, s));
      if LeaseExpired(s.db, id, Now(e, s)) {
        assert id in AllRows(s.db);
      }
    }
    ReapOpsReap(e, s1, rows, s.pos);
    RunFirst(e, s, ReadClock);
    RunConcat(e, s, [ReadClock], ReapOps(rows, s.pos));
    hide Run;
    ReapedFrom(s, s1, SweepStep(e, s, ReapExpiredLeases(rows)), rows);
  }

  lemma ReapedFrom(s: State, s1: State, s': State, rows: seq<AttemptId>)
    requires s1 == s.(pos := s.pos + 1) && Reaped(s1, s', rows)
    ensures Reaped(s, s', rows)
  {
  }

  // ---- the rest of a tick ----------------------------------------------------------------

  /** Promotion and reconciliation leave the system of record alone. */
  lemma TickDb(e: Env, s: State, t: Tick)
    requires ClockOk(e) && DbInv(e.cfg, s.db) && TickSelected(e, s, t)
    ensures DbInv(e.cfg, AfterBury(e, s, t).db) && DbInv(e.cfg, AfterReap(e, s, t).db)
    ensures TickStep(e, s, t).db == AfterReap(e, s, t).db && TickStep(e, s, t).pos >= AfterReap(e, s, t).pos
    ensures TickStep(e, s, t) == AfterPromote(e, s, t)
  {
    hide Selected, SweepStep;
    SweepEnabled(e, s, ReapDeadWorkers(t.plan));
    SweepEnabled(e, AfterBury(e, s, t), ReapExpiredLeases(t.rows));
    PromoteSweepEnabled(e, AfterReap(e, s, t), t.entries);
    assert AfterPromote(e, s, t).db == AfterReap(e, s, t).db;
    if !PromoteRaises(t) {
      ReconcileDoesNothing(e, AfterPromote(e, s, t), t.jobs);
    }
  }

  // ---- dead workers hold nothing -----------------------------------------------------------

  /** Every active attempt that belongs to a worker belongs to an ONLINE one. */
  ghost predicate NoDeadHolder(db: Db) {
    forall id :: HasRow(db, id) && Active(TheRow(db, id)) && TheRow(db, id).worker.Some? ==>
                   TheRow(db, id).worker.value in db.workers
                   && db.workers[TheRow(db, id).worker.value].status == Online
  }

  /** No lease was cut short, or the clock has moved on between the first sweep's
      last reading and the second sweep's first. */
  predicate SweepsApart(e: Env, s: State, p: nat) {
    p == s.pos + 1 || (p > 0 && e.tick(p - 1) < e.tick(p))
  }

  /** A worker's rows after the first sweep. */
  lemma AfterBuryRow(e: Env, s: State, t: Tick, id: AttemptId)
    requires ClockOk(e) && TickSelected(e, s, t)
    requires HasRow(s.db, id) || HasRow(AfterBury(e, s, t).db, id)
    ensures var b := AfterBury(e, s, t);
            && HasRow(s.db, id) && HasRow(b.db, id)
            && TheRow(b.db, id) == TheRow(s.db, id).(expires := TheRow(b.db, id).expires)
            && (if exists w :: Stale(e, s.db, w, Now(e, s)) && HeldBy(s.db, id, w)
                then b.pos > s.pos + 1 && TheRow(b.db, id).expires.Some?
                     && TheRow(b.db, id).expires.value <= e.tick(b.pos - 1)
                else TheRow(b.db, id) == TheRow(s.db, id))
  {
    hide TickStep, SweepStep;
    var s1 := Step(e, s, ReadClock);
    var ops := BuryOps(t.plan, s.pos);
    DeadSweep(e, s, t.plan);
    var b := AfterBury(e, s, t);
    assert Buried(e, s1, ops, b);
    hide Step, Selected;
    assert HasRow(s1.db, id) <==> HasRow(b.db, id);
    assert BuriedRow(e, s1, ops, b, id);
  }

  lemma AfterBuryWorker(e: Env, s: State, t: Tick, w: string)
    requires ClockOk(e) && TickSelected(e, s, t)
    ensures var b := AfterBury(e, s, t);
            && b.redis == s.redis && b.pos >= s.pos + 1
            && (w in b.db.workers <==> w in s.db.workers)
            && (w in s.db.workers ==>
                  b.db.workers[w] ==
                  if Stale(e, s.db, w, Now(e, s)) then s.db.workers[w].(status := Dead) else s.db.workers[w])
  {
    DeadSweep(e, s, t.plan);
    hide Run;
  }

  lemma AfterReapRow(e: Env, s: State, t: Tick, id: AttemptId)
    requires ClockOk(e) && TickSelected(e, s, t)
    ensures var b, r := AfterBury(e, s, t), AfterReap(e, s, t);
            && r.db.workers == b.db.workers && r.pos >= b.pos
            && (HasRow(b.db, id) ==> HasRow(r.db, id))
            && (HasRow(b.db, id) ==>
                  if LeaseExpired(b.db, id, Now(e, b)) then TheRow(r.db, id).status == InfraError
                  else TheRow(r.db, id) == TheRow(b.db, id))
            && (HasRow(r.db, id) && !HasRow(b.db, id) ==> TheRow(r.db, id).worker == None)
  {
    hide SweepStep;
    ExpirySweep(e, AfterBury(e, s, t), t.rows);
  }

  /** After a tick no dead worker holds an attempt, provided the clock moved on
      between the first two sweeps; the proviso is exact. */
  lemma TickBuriesTheDead(e: Env, s: State, t: Tick)
    requires ClockOk(e) && DbInv(e.cfg, s.db) && NoDeadHolder(s.db) && TickSelected(e, s, t)
    ensures NoDeadHolder(TickStep(e, s, t).db) <==> SweepsApart(e, s, AfterBury(e, s, t).pos)
  {
    TickDb(e, s, t);
    hide TickStep, SweepStep, TickSelected;
    if SweepsApart(e, s, AfterBury(e, s, t).pos) {
      TickBuriesAll(e, s, t);
    } else {
      TickMissesOne(e, s, t);
    }
  }

  lemma TickBuriesAll(e: Env, s: State, t: Tick)
    requires ClockOk(e) && NoDeadHolder(s.db) && TickSelected(e, s, t)
    requires SweepsApart(e, s, AfterBury(e, s, t).pos)
    ensures NoDeadHolder(AfterReap(e, s, t).db)
  {
    hide AfterBury, AfterReap, TickSelected;
    var b, r := AfterBury(e, s, t), AfterReap(e, s, t);
    forall id | HasRow(r.db, id) && Active(TheRow(r.db, id)) && TheRow(r.db, id).worker.Some?
      ensures TheRow(r.db, id).worker.value in r.db.workers
      ensures r.db.workers[TheRow(r.db, id).worker.value].status == Online
    {
      AfterReapRow(e, s, t, id);
      AfterBuryRow(e, s, t, id);
      var w := TheRow(r.db, id).worker.value;
      AfterBuryWorker(e, s, t, w);
      assert TheRow(r.db, id) == TheRow(b.db, id);
      assert HasRow(s.db, id) && Active(TheRow(s.db, id)) && TheRow(s.db, id).worker == Some(w);
      assert HeldBy(s.db, id, w);
      assert !LeaseExpired(b.db, id, Now(e, b));
      assert !Stale(e, s.db, w, Now(e, s));
    }
  }

  lemma TickMissesOne(e: Env, s: State, t: Tick)
    requires ClockOk(e) && NoDeadHolder(s.db) && TickSelected(e, s, t)
    requires !SweepsApart(e, s, AfterBury(e, s, t).pos)
    ensures !NoDeadHolder(AfterReap(e, s, t).db)
  {
    var s1 := Step(e, s, ReadClock);
    var ops := BuryOps(t.plan, s.pos);
    DeadSweep(e, s, t.plan);
    RunFirst(e, s, ReadClock);
    RunConcat(e, s, [ReadClock], ops);
    var b, r := AfterBury(e, s, t), AfterReap(e, s, t);
    assert b == Run(e, s1, ops);
    hide Run, TickSelected, Selected, SweepStep, AfterReap;
    assert b.pos >= s1.pos && e.tick(b.pos - 1) <= e.tick(b.pos);
    var id := BurialLast(e, s1, ops);
    var w :| Stale(e, s.db, w, Now(e, s)) && HeldBy(s.db, id, w);
    AfterReapRow(e, s, t, id);
    AfterBuryWorker(e, s, t, w);
    AfterBuryRow(e, s, t, id);
    assert !LeaseExpired(b.db, id, Now(e, b));
  }

  lemma RequestKeepsHolders(e: Env, s: State, op: Op)
    requires DbInv(e.cfg, s.db) && NoDeadHolder(s.db) && IsRequest(op)
    ensures NoDeadHolder(Step(e, s, op).db)
  {
    var db' := Step(e, s, op).db;
    forall id | HasRow(db', id) && Active(TheRow(db', id)) && TheRow(db', id).worker.Some?
      ensures TheRow(db', id).worker.value in db'.workers
      ensures db'.workers[TheRow(db', id).worker.value].status == Online
    {
      RequestOwner(e, s, op, id);
      RequestWorker(e, s, op, TheRow(db', id).worker.value);
    }
  }

  lemma RequestWorker(e: Env, s: State, op: Op, w: string)
    requires IsRequest(op) && w in s.db.workers && s.db.workers[w].status == Online
    ensures w in Step(e, s, op).db.workers && Step(e, s, op).db.workers[w].status == Online
  {
    hide Lease, Finish, Reported, Retry, Score, FormatEntry, IsMin;
  }

  lemma MoveOwner(cfg: Settings, job: Job, m: Move, row: nat)
    requires JobInv(cfg, job) && MoveOk(job, m) && row < |JobNext(cfg, job, m).attempts|
    requires JobNext(cfg, job, m).attempts[row].worker.Some? && Active(JobNext(cfg, job, m).attempts[row])
    ensures var w := JobNext(cfg, job, m).attempts[row].worker;
            (m.Grant? && w == Some(m.worker))
            || (row < |job.attempts| && job.attempts[row].worker == w && Active(job.attempts[row]))
  {
    hide BackoffSeconds;
  }

  /** An active row's owner was its owner before, or has just claimed it. */
  lemma RequestOwner(e: Env, s: State, op: Op, id: AttemptId)
    requires DbInv(e.cfg, s.db) && IsRequest(op)
    requires HasRow(Step(e, s, op).db, id) && Active(TheRow(Step(e, s, op).db, id))
    requires TheRow(Step(e, s, op).db, id).worker.Some?
    ensures var w := TheRow(Step(e, s, op).db, id).worker;
            || (HasRow(s.db, id) && Active(TheRow(s.db, id)) && TheRow(s.db, id).worker == w)
            || (w.value in s.db.workers && s.db.workers[w.value].status == Online)
  {
    if id.job in s.db.jobs {
      StepMoves(e, s, op, id.job);
      MoveOwner(e.cfg, s.db.jobs[id.job], MoveOf(e, s, op, id.job), id.row);
      hide Step, JobNext, JobInv, IsMin;
    } else {
      StepCreates(e, s, op, id.job);
    }
  }

  ghost predicate ClockMoves(e: Env, s: State, ev: Event) {
    ev.Reaper? ==> SweepsApart(e, s, AfterBury(e, s, ev.t).pos)
  }

  ghost predicate ClockKeepsMoving(e: Env, s: State, evs: seq<Event>) {
    forall i :: 0 <= i < |evs| ==> ClockMoves(e, Life(e, s, evs[..i]), evs[i])
  }

  lemma EventKeepsHolders(e: Env, s: State, ev: Event)
    requires ClockOk(e) && DbInv(e.cfg, s.db) && NoDeadHolder(s.db)
    requires EventOk(e, s, ev) && ClockMoves(e, s, ev)
    ensures NoDeadHolder(EventStep(e, s, ev).db)
  {
    hide Step, TickStep, TickSelected, NoDeadHolder, AfterBury;
    match ev
    case Request(op) => RequestKeepsHolders(e, s, op);
    case Reaper(t) => TickBuriesTheDead(e, s, t);
  }

  lemma {:induction false} LifeKeepsDb(e: Env, s: State, evs: seq<Event>)
    requires ClockOk(e) && DbInv(e.cfg, s.db) && LifeOk(e, s, evs)
    ensures DbInv(e.cfg, Life(e, s, evs).db)
  {
    var ops := LifeIsRun(e, s, evs);
    RunKeepsDb(e, s, ops);
  }

  /** In every state that any life of the server reaches, with workers dying and
      coming back and Redis failing in any way, no DEAD worker holds a LEASED or
      RUNNING attempt. */
  lemma {:induction false} NoDeadHolderEver(e: Env, s: State, evs: seq<Event>)
    requires ClockOk(e) && DbInv(e.cfg, s.db) && NoDeadHolder(s.db)
    requires LifeOk(e, s, evs) && ClockKeepsMoving(e, s, evs)
    ensures NoDeadHolder(Life(e, s, evs).db)
  {
    hide NoDeadHolder, ClockMoves, EventOk, EventStep;
    if evs != [] {
      var front := evs[..|evs| - 1];
      LifeFront(e, s, evs);
      assert forall i :: 0 <= i < |front| ==> front[..i] == evs[..i];
      NoDeadHolderEver(e, s, front);
      LifeKeepsDb(e, s, front);
      EventKeepsHolders(e, Life(e, s, front), evs[|evs| - 1]);
    }
  }

  // ---- recovery from a silent holder ---------------------------------------------------------

  /** The lease ran out, or was cut short, by a clock reading already taken. */
  predicate RanOut(e: Env, s: State, a: Attempt) {
    a.expires.Some? && s.pos > 0 && a.expires.value <= e.tick(s.pos - 1)
  }

  /** The attempt is held, and neither renewed nor its worker heard of since `t`:
      its expiry dates from before, unless a sweep has cut it short. */
  predicate SilentSince(e: Env, s: State, id: AttemptId, w: string, token: string, t: real) {
    && HeldBy(s.db, id, w) && HoldsLease(s.db, id, token)
    && TheRow(s.db, id).expires.Some?
    && (TheRow(s.db, id).expires.value <= t + e.cfg.jobLeaseSeconds || RanOut(e, s, TheRow(s.db, id)))
    && w in s.db.workers && s.db.workers[w].lastHeartbeat <= t
  }

  /** How long the server waits for a silent holder: a worker that is not ONLINE
      is not declared dead again, so a lease it has renewed must run out. */
  function Allowance(e: Env, s: State, id: AttemptId, w: string): real
    requires HasRow(s.db, id) && w in s.db.workers
  {
    if s.db.workers[w].status == Online || RanOut(e, s, TheRow(s.db, id))
    then Least(e.cfg.jobLeaseSeconds, e.cfg.workerDeadAfterSeconds)
    else e.cfg.jobLeaseSeconds
  }

  /** The attempt ended for infrastructure reasons and its job was retried or
      given up, as its budget allows. */
  ghost predicate RecoveredFrom(cfg: Settings, db: Db, id: AttemptId) {
    && HasRow(db, id) && TheRow(db, id).status == InfraError
    && if RetryLeft(cfg, TheRow(db, id)) then |db.jobs[id.job].attempts| > id.row + 1
       else db.jobs[id.job].status == JobErrored
  }

  lemma InfraIsRecovered(cfg: Settings, db: Db, id: AttemptId)
    requires DbInv(cfg, db) && HasRow(db, id) && TheRow(db, id).status == InfraError
    ensures RecoveredFrom(cfg, db, id)
  {
    var job := db.jobs[id.job];
    assert JobInv(cfg, job);
    if id.row == |job.attempts| - 1 {
      assert Last(job).status == InfraError;
    }
  }

  /** The row that a sweep inserted for a retry waits, and is the last of its job. */
  lemma RetryWaits(e: Env, s: State, t: Tick, id: AttemptId)
    requires ClockOk(e) && DbInv(e.cfg, s.db) && TickSelected(e, s, t)
    requires HasRow(s.db, id) && Active(TheRow(s.db, id))
    requires DbInv(e.cfg, AfterReap(e, s, t).db) && RecoveredFrom(e.cfg, AfterReap(e, s, t).db, id)
    requires RetryLeft(e.cfg, TheRow(AfterReap(e, s, t).db, id))
    ensures var job := AfterReap(e, s, t).db.jobs[id.job];
            job.status == JobQueued && |job.attempts| == id.row + 2
  {
    hide TickSelected, AfterBury, AfterReap;
    var next := AttemptId(id.job, id.row + 1);
    assert JobInv(e.cfg, s.db.jobs[id.job]);
    ActiveIsLast(e.cfg, s.db.jobs[id.job], id.row);
    if HasRow(AfterBury(e, s, t).db, next) {
      AfterBuryRow(e, s, t, next);
    }
    AfterReapRow(e, s, t, next);
    assert JobInv(e.cfg, AfterReap(e, s, t).db.jobs[id.job]);
  }

  /** The clock moves on between the tick's first two sweeps; or the first sweep
      cuts nothing, and a lease that has run out did so before the tick began. */
  ghost predicate TickDecides(e: Env, s: State, t: Tick, id: AttemptId)
  {
    var p := AfterBury(e, s, t).pos;
    || (p > 0 && e.tick(p - 1) < e.tick(p))
    || (p == s.pos + 1
        && (HasRow(s.db, id) && RanOut(e, s, TheRow(s.db, id)) ==> TheRow(s.db, id).expires.value < Now(e, s)))
  }

  /** An overdue lease has expired by the reading of the second sweep. */
  lemma OverdueExpires(e: Env, s: State, t: Tick, id: AttemptId, w: string, token: string, since: real)
    requires ClockOk(e) && TickSelected(e, s, t) && SilentSince(e, s, id, w, token, since)
    requires TickDecides(e, s, t, id) && Now(e, s) > since + Allowance(e, s, id, w)
    ensures LeaseExpired(AfterBury(e, s, t).db, id, Now(e, AfterBury(e, s, t)))
  {
    hide TickSelected, AfterBury;
    AfterBuryRow(e, s, t, id);
    AfterBuryWorker(e, s, t, w);
    var b := AfterBury(e, s, t);
    assert e.tick(s.pos) <= e.tick(b.pos - 1) <= e.tick(b.pos);
    if Stale(e, s.db, w, Now(e, s)) {
      assert HeldBy(s.db, id, w);
    } else {
      assert forall w' :: HeldBy(s.db, id, w') ==> w' == w;
      if s.pos > 0 {
        assert e.tick(s.pos - 1) <= e.tick(b.pos - 1);
      }
    }
  }

  /** One tick suffices once the lease or the heartbeat is overdue: the attempt
      becomes INFRA_ERROR, and its job waits for one more attempt or is ERRORED. */
  lemma TickRecovers(e: Env, s: State, t: Tick, id: AttemptId, w: string, token: string, since: real)
    requires ClockOk(e) && DbInv(e.cfg, s.db) && TickSelected(e, s, t)
    requires SilentSince(e, s, id, w, token, since)
    requires TickDecides(e, s, t, id) && Now(e, s) > since + Allowance(e, s, id, w)
    ensures var db' := TickStep(e, s, t).db;
            && RecoveredFrom(e.cfg, db', id)
            && (RetryLeft(e.cfg, TheRow(db', id)) ==>
                  db'.jobs[id.job].status == JobQueued && |db'.jobs[id.job].attempts| == id.row + 2)
  {
    hide TickStep, TickSelected, AfterBury, AfterReap, TickDecides;
    TickDb(e, s, t);
    AfterReapRow(e, s, t, id);
    OverdueExpires(e, s, t, id, w, token, since);
    InfraIsRecovered(e.cfg, AfterReap(e, s, t).db, id);
    if RetryLeft(e.cfg, TheRow(AfterReap(e, s, t).db, id)) {
      RetryWaits(e, s, t, id);
    }
  }

  /** Messages by which the holder could make itself heard. */
  predicate FromHolder(op: Op, id: AttemptId, w: string, token: string) {
    || (op.Heartbeat? && op.worker == w)
    || (op.Renew? && op.id == id && op.token == token)
    || (op.CompleteAttempt? && op.id == id && op.token == token)
  }

  predicate Silence(evs: seq<Event>, id: AttemptId, w: string, token: string) {
    forall i :: 0 <= i < |evs| && evs[i].Request? ==> !FromHolder(evs[i].op, id, w, token)
  }

  lemma RequestKeepsSilence(e: Env, s: State, op: Op, id: AttemptId, w: string, token: string, since: real)
    requires DbInv(e.cfg, s.db) && SilentSince(e, s, id, w, token, since)
    requires ClockOk(e) && IsRequest(op) && !FromHolder(op, id, w, token)
    ensures SilentSince(e, Step(e, s, op), id, w, token, since)
    ensures Allowance(e, Step(e, s, op), id, w) <= Allowance(e, s, id, w)
  {
    var job := s.db.jobs[id.job];
    assert JobInv(e.cfg, job);
    ActiveIsLast(e.cfg, job, id.row);
    hide Step, JobNext, IsMin, JobInv, DbInv, MoveOf, ClockOk, FromHolder, IsRequest, Allowance;
    RequestEnabled(e, s, op);
    StepMoves(e, s, op, id.job);
    SilentMove(e, s, op, id, w, token);
    QuietMoveKeepsRow(e.cfg, job, MoveOf(e, s, op, id.job));
    SilentWorker(e, s, op, w, since);
    LoggedSilence(e, s, Step(e, s, op), id, w, token, since);
  }

  /** Neither silence nor allowance depends on the row's log. */
  lemma LoggedSilence(e: Env, s: State, s': State, id: AttemptId, w: string, token: string, since: real)
    requires ClockOk(e) && SilentSince(e, s, id, w, token, since) && s.pos <= s'.pos
    requires w in s'.db.workers && s'.db.workers[w] == s.db.workers[w]
    requires HasRow(s'.db, id) && TheRow(s'.db, id) == TheRow(s.db, id).(logs := TheRow(s'.db, id).logs)
    ensures SilentSince(e, s', id, w, token, since) && Allowance(e, s', id, w) <= Allowance(e, s, id, w)
  {
    LaterRanOut(e, s, s', TheRow(s.db, id));
  }

  lemma LaterRanOut(e: Env, s: State, s': State, a: Attempt)
    requires ClockOk(e) && s.pos <= s'.pos
    ensures RanOut(e, s, a) ==> RanOut(e, s', a)
  {
  }

  lemma RequestEnabled(e: Env, s: State, op: Op)
    requires IsRequest(op)
    ensures Enabled(e, s, op)
  {
  }

  lemma SilentMove(e: Env, s: State, op: Op, id: AttemptId, w: string, token: string)
    requires DbInv(e.cfg, s.db) && IsRequest(op) && !FromHolder(op, id, w, token)
    requires HoldsLease(s.db, id, token) && s.db.jobs[id.job].status == JobRunning
    ensures var m := MoveOf(e, s, op, id.job); m.Stay? || m.Note?
  {
    var job := s.db.jobs[id.job];
    assert JobInv(e.cfg, job);
    ActiveIsLast(e.cfg, job, id.row);
    hide Shape, LastAgrees, IsMin, DbInv;
    var m := MoveOf(e, s, op, id.job);
    if m.Settle? || m.Extend? {
      ActiveIsLast(e.cfg, job, op.id.row);
    }
  }

  lemma QuietMoveKeepsRow(cfg: Settings, job: Job, m: Move)
    requires MoveOk(job, m) && (m.Stay? || m.Note?)
    ensures var job' := JobNext(cfg, job, m);
            |job'.attempts| == |job.attempts| && Last(job') == Last(job).(logs := Last(job').logs)
  {
  }

  lemma SilentWorker(e: Env, s: State, op: Op, w: string, since: real)
    requires IsRequest(op) && !(op.Heartbeat? && op.worker == w)
    requires w in s.db.workers && s.db.workers[w].lastHeartbeat <= since
    ensures Step(e, s, op).pos >= s.pos && w in Step(e, s, op).db.workers
    ensures Step(e, s, op).db.workers[w] == s.db.workers[w]
  {
    hide Lease, Finish, Reported, Retry, Score, FormatEntry, IsMin;
  }

  lemma TickKeepsSilence(e: Env, s: State, t: Tick, id: AttemptId, w: string, token: string, since: real)
    requires ClockOk(e) && DbInv(e.cfg, s.db) && TickSelected(e, s, t)
    requires SilentSince(e, s, id, w, token, since)
    ensures var s' := TickStep(e, s, t);
            || RecoveredFrom(e.cfg, s'.db, id)
            || (SilentSince(e, s', id, w, token, since) && Allowance(e, s', id, w) <= Allowance(e, s, id, w))
  {
    hide TickStep, TickSelected, AfterBury, AfterReap, SilentSince, Allowance, RecoveredFrom;
    TickDb(e, s, t);
    AfterReapRow(e, s, t, id);
    AfterBuryWorker(e, s, t, w);
    BurialKeepsSilence(e, s, t, id, w, token, since);
    var b, r := AfterBury(e, s, t), AfterReap(e, s, t);
    SilentIsHeld(e, b, id, w, token, since);
    if LeaseExpired(b.db, id, Now(e, b)) {
      InfraIsRecovered(e.cfg, r.db, id);
    } else {
      LoggedSilence(e, b, TickStep(e, s, t), id, w, token, since);
    }
  }

  lemma BurialKeepsSilence(e: Env, s: State, t: Tick, id: AttemptId, w: string, token: string, since: real)
    requires ClockOk(e) && TickSelected(e, s, t) && SilentSince(e, s, id, w, token, since)
    ensures var b := AfterBury(e, s, t);
            SilentSince(e, b, id, w, token, since) && Allowance(e, b, id, w) <= Allowance(e, s, id, w)
  {
    hide TickSelected, AfterBury, ClockOk;
    AfterBuryRow(e, s, t, id);
    AfterBuryWorker(e, s, t, w);
    var b := AfterBury(e, s, t);
    LaterRanOut(e, s, b, TheRow(s.db, id));
    assert !Stale(e, s.db, w, Now(e, s)) ==> forall w' :: HeldBy(s.db, id, w') ==> w' == w;
  }

  /** Recovery once made is kept. */
  lemma EventKeepsRecovery(e: Env, s: State, ev: Event, id: AttemptId)
    requires ClockOk(e) && DbInv(e.cfg, s.db) && EventOk(e, s, ev) && RecoveredFrom(e.cfg, s.db, id)
    ensures RecoveredFrom(e.cfg, EventStep(e, s, ev).db, id)
  {
    var ops;
    match ev {
      case Request(op) =>
        ops := [op];
        RunFirst(e, s, op);
        OneEnabled(e, s, op);
      case Reaper(t) =>
        ops := TickIsRun(e, s, t);
    }
    hide Step, Enabled, EventOk, EventStep, Run;
    assert EventStep(e, s, ev) == Run(e, s, ops) by { EventIsRun(e, s, ev, ops); }
    JobsOnlyProgress(e, s, ops, id.job);
    RunKeepsDb(e, s, ops);
    assert RowLater(TheRow(s.db, id), TheRow(Run(e, s, ops).db, id));
    InfraIsRecovered(e.cfg, Run(e, s, ops).db, id);
  }

  lemma EventIsRun(e: Env, s: State, ev: Event, ops: seq<Op>)
    requires match ev
             case Request(op) => Run(e, s, ops) == Step(e, s, op)
             case Reaper(t) => Run(e, s, ops) == TickStep(e, s, t)
    ensures EventStep(e, s, ev) == Run(e, s, ops)
  {
  }

  lemma {:induction false} SilenceIsRecovered(
      e: Env, s: State, evs: seq<Event>, id: AttemptId, w: string, token: string, since: real)
    requires ClockOk(e) && DbInv(e.cfg, s.db) && LifeOk(e, s, evs)
    requires SilentSince(e, s, id, w, token, since) && Silence(evs, id, w, token)
    ensures var s' := Life(e, s, evs);
            || RecoveredFrom(e.cfg, s'.db, id)
            || (SilentSince(e, s', id, w, token, since) && Allowance(e, s', id, w) <= Allowance(e, s, id, w))
  {
    hide RecoveredFrom, Step, TickStep, TickSelected, FromHolder, AfterBury, Allowance, HeldBy, HoldsLease, RanOut;
    if evs != [] {
      var front, ev := evs[..|evs| - 1], evs[|evs| - 1];
      LifeFront(e, s, evs);
      SilenceIsRecovered(e, s, front, id, w, token, since);
      LifeKeepsDb(e, s, front);
      var mid := Life(e, s, front);
      if RecoveredFrom(e.cfg, mid.db, id) {
        EventKeepsRecovery(e, mid, ev, id);
      } else {
        match ev
        case Request(op) => RequestKeepsSilence(e, mid, op, id, w, token, since);
        case Reaper(t) => TickKeepsSilence(e, mid, t, id, w, token, since);
      }
    }
  }

  /** Bounded recovery: if the holder of an attempt sends nothing after `since`,
      then whatever else the server does meanwhile, and whatever its clock did in
      earlier ticks, the first deciding tick that reads a clock later than
      since + min(lease, dead_after) finds or makes the attempt INFRA_ERROR and
      its job retried or ERRORED. (A holder that was DEAD to begin with, and had
      renewed since, is given its lease.) Redis may fail in any way. */
  lemma BoundedRecovery(
      e: Env, s: State, evs: seq<Event>, t: Tick, id: AttemptId, w: string, token: string, since: real)
    requires ClockOk(e) && DbInv(e.cfg, s.db) && LifeOk(e, s, evs + [Reaper(t)])
    requires SilentSince(e, s, id, w, token, since) && Silence(evs, id, w, token)
    requires Now(e, Life(e, s, evs)) > since + Allowance(e, s, id, w)
    requires TickDecides(e, Life(e, s, evs), t, id)
    ensures RecoveredFrom(e.cfg, Life(e, s, evs + [Reaper(t)]).db, id)
  {
    var all := evs + [Reaper(t)];
    assert all[..|evs|] == evs;
    LifeFront(e, s, all);
    hide RecoveredFrom, SilentSince, Step, TickStep, TickSelected, FromHolder, TickDecides, Allowance;
    SilenceIsRecovered(e, s, evs, id, w, token, since);
    LifeKeepsDb(e, s, evs);
    var mid := Life(e, s, evs);
    if RecoveredFrom(e.cfg, mid.db, id) {
      EventKeepsRecovery(e, mid, Reaper(t), id);
    } else {
      SilentIsHeld(e, mid, id, w, token, since);
      TickRecovers(e, mid, t, id, w, token, since);
    }
  }

  lemma SilentIsHeld(e: Env, s: State, id: AttemptId, w: string, token: string, since: real)
    requires SilentSince(e, s, id, w, token, since)
    ensures HasRow(s.db, id) && w in s.db.workers
  {
  }

  // ---- a retry rejoins the live queue ----------------------------------------------------------

  lemma BurialKeepsWaiting(e: Env, s: State, t: Tick, job: string)
    requires ClockOk(e) && TidyState(e, s) && TickSelected(e, s, t)
    requires job in s.db.jobs && s.db.jobs[job].status == JobQueued
    ensures var b, r := AfterBury(e, s, t), AfterReap(e, s, t);
            && job in r.db.jobs && r.db.jobs[job].status == JobQueued
            && r.db.jobs[job].priority == s.db.jobs[job].priority
            && |r.db.jobs[job].attempts| == |s.db.jobs[job].attempts| && r.db.jobs[job].attempts != []
            && Last(r.db.jobs[job]).nextRetry == Last(s.db.jobs[job]).nextRetry
            && r.redis.queue == s.redis.queue
  {
    TidyIsDbInv(e, s);
    assert JobInv(e.cfg, s.db.jobs[job]);
    var s1 := Step(e, s, ReadClock);
    DeadSweep(e, s, t.plan);
    var b, r := AfterBury(e, s, t), AfterReap(e, s, t);
    ExpirySweep(e, b, t.rows);
    hide SweepStep, Step, TickSelected, Selected, Run, AfterReap, TidyState;
    forall id | id in t.rows
      ensures id.job != job
    {
      assert LeaseExpired(b.db, id, Now(e, b));
      if id.job == job {
        assert HasRow(s1.db, id);
        assert BuriedRow(e, s1, BuryOps(t.plan, s.pos), b, id);
        ActiveIsLast(e.cfg, s.db.jobs[job], id.row);
        UnclaimedNotHeld(e, s, t, id);
      }
    }
    var last := AttemptId(job, |s.db.jobs[job].attempts| - 1);
    assert BuriedRow(e, s1, BuryOps(t.plan, s.pos), b, last);
  }

  lemma UnclaimedNotHeld(e: Env, s: State, t: Tick, id: AttemptId)
    requires ClockOk(e) && TickSelected(e, s, t)
    requires HasRow(s.db, id) && TheRow(s.db, id).worker == None
    ensures HasRow(AfterBury(e, s, t).db, id) && TheRow(AfterBury(e, s, t).db, id) == TheRow(s.db, id)
  {
    hide TickSelected, AfterBury;
    AfterBuryRow(e, s, t, id);
  }

  /** In a tidy state every delayed entry is well formed, so promotion reaches
      the end of its list. */
  lemma AllWellFormed(e: Env, s: State, entries: seq<string>)
    requires TidyState(e, s) && forall x :: x in entries ==> x in s.redis.delayed
    ensures WellFormedPrefix(entries) == |entries|
  {
    hide WellFormed;
    forall i | 0 <= i < |entries|
      ensures WellFormed(entries[i])
    {
      assert entries[i] in entries;
      PromotedIsNamed(e, s, entries[i]);
    }
  }

  lemma StillDelayed(e: Env, s: State, t: Tick, job: string)
    requires ClockOk(e) && TidyState(e, s) && TickSelected(e, s, t)
    requires job in s.db.jobs && s.db.jobs[job].status == JobQueued
    requires EntryOf(s.db, job) in s.redis.delayed
    ensures var r := AfterReap(e, s, t);
            && job in r.db.jobs && r.db.jobs[job].status == JobQueued && EntryOf(r.db, job) == EntryOf(s.db, job)
            && EntryOf(s.db, job) in r.redis.delayed
            && r.redis.delayed[EntryOf(s.db, job)] == s.redis.delayed[EntryOf(s.db, job)]
  {
    hide TickSelected, AfterReap, TidyState, FormatEntry, JobInv, AfterBury;
    TidyParts(e, s, job);
    BurialKeepsWaiting(e, s, t, job);
    TicksAreTidy(e, s, t);
    TidyParts(e, AfterReap(e, s, t), job);
  }

  /** Promotion drains every entry it selects, all being well formed. */
  lemma PromotionDrains(e: Env, s: State, entries: seq<string>, entry: string)
    requires TidyState(e, s) && Selected(e, s, PromoteDelayedJobs(entries))
    requires entry in s.redis.delayed && 0.0 <= s.redis.delayed[entry] <= Now(e, s)
    ensures entry !in SweepStep(e, s, PromoteDelayedJobs(entries)).redis.delayed
  {
    hide TidyState, WellFormed, LexLeq, Run;
    assert entry in entries;
    AllWellFormed(e, s, entries);
    PromoteSweepEnabled(e, s, entries);
    assert entries[..|entries|] == entries;
    assert entries[..|entries|][..|entries|] == entries;
  }

  lemma TicksAreTidy(e: Env, s: State, t: Tick)
    requires ClockOk(e) && TidyState(e, s) && TickSelected(e, s, t)
    ensures TidyState(e, AfterReap(e, s, t)) && TidyState(e, TickStep(e, s, t))
  {
    TidyIsDbInv(e, s);
    var whole := TickIsRun(e, s, t);
    RunKeepsTidy(e, s, whole);
    var b := AfterBury(e, s, t);
    SweepEnabled(e, s, ReapDeadWorkers(t.plan));
    RunKeepsTidy(e, s, SweepOps(s, ReapDeadWorkers(t.plan)));
    SweepEnabled(e, b, ReapExpiredLeases(t.rows));
    RunKeepsTidy(e, b, SweepOps(b, ReapExpiredLeases(t.rows)));
  }

  /** The job waits in the delayed set until `ready`. */
  predicate WaitsUntil(s: State, job: string, ready: real) {
    && job in s.db.jobs && s.db.jobs[job].status == JobQueued
    && EntryOf(s.db, job) in s.redis.delayed && s.redis.delayed[EntryOf(s.db, job)] == ready
  }

  /** A tick whose promotion reads a clock at or after the ready time of a
      waiting retry puts its job into the live queue. */
  lemma DueTickPromotes(e: Env, s: State, t: Tick, job: string, ready: real)
    requires ClockOk(e) && TidyState(e, s) && TickSelected(e, s, t)
    requires WaitsUntil(s, job, ready) && 0.0 <= ready <= Now(e, AfterReap(e, s, t))
    ensures var s' := TickStep(e, s, t);
            && job in s'.db.jobs && s'.db.jobs[job].status == JobQueued
            && job in s'.redis.queue && EntryOf(s'.db, job) !in s'.redis.delayed
  {
    TidyIsDbInv(e, s);
    StillDelayed(e, s, t, job);
    TickDb(e, s, t);
    TicksAreTidy(e, s, t);
    var r, s' := AfterReap(e, s, t), TickStep(e, s, t);
    PromotionDrains(e, r, t.entries, EntryOf(s.db, job));
    hide TickStep, SweepStep, TidyState, FormatEntry, JobInv;
    TidyParts(e, s', job);
  }

  lemma NotSelected(e: Env, s: State, entries: seq<string>, entry: string)
    requires Selected(e, s, PromoteDelayedJobs(entries))
    requires entry in s.redis.delayed && Now(e, s) < s.redis.delayed[entry]
    ensures entry !in entries
  {
    hide LexLeq;
  }

  /** An earlier tick leaves it waiting. */
  lemma EarlyTickKeepsWaiting(e: Env, s: State, t: Tick, job: string, ready: real)
    requires ClockOk(e) && TidyState(e, s) && TickSelected(e, s, t)
    requires WaitsUntil(s, job, ready) && Now(e, AfterReap(e, s, t)) < ready
    ensures WaitsUntil(TickStep(e, s, t), job, ready)
  {
    TidyIsDbInv(e, s);
    StillDelayed(e, s, t, job);
    TickDb(e, s, t);
    var r := AfterReap(e, s, t);
    PromoteSweepEnabled(e, r, t.entries);
    var entry := EntryOf(s.db, job);
    assert Selected(e, r, PromoteDelayedJobs(t.entries));
    NotSelected(e, r, t.entries, entry);
    hide TickStep, SweepStep, TidyState, FormatEntry, JobInv, Selected, TickSelected, WellFormed;
    var n := WellFormedPrefix(t.entries);
    assert entry !in t.entries[..n];
    assert t.entries[..n][..n] == t.entries[..n];
  }

  /** So does every request: in the automaton only a promotion ends a backoff. */
  lemma RequestKeepsWaiting(e: Env, s: State, op: Op, job: string, ready: real)
    requires ClockOk(e) && TidyState(e, s) && IsRequest(op) && !op.RedisFault?
    requires WaitsUntil(s, job, ready)
    ensures WaitsUntil(Step(e, s, op), job, ready)
  {
    hide Step, TidyState, FormatEntry, JobInv, MoveOf, MoveLabel, Enabled, ClockOk;
    RequestEnabled(e, s, op);
    TidyParts(e, s, job);
    StepSimulates(e, s, op, job);
    var n := Last(s.db.jobs[job]).number;
    assert PhaseOf(s, job) == Backoff(n, ready);
    NotPromoted(e, s, op, job);
    hide LabelOf;
    assert PhaseOf(Step(e, s, op), job) == Backoff(n, ready);
  }

  lemma NotPromoted(e: Env, s: State, op: Op, job: string)
    requires IsRequest(op)
    ensures !LabelOf(e, s, op, job).Promoted?
  {
    hide MoveOf;
  }

  predicate BackoffOk(cfg: Settings) {
    0.0 <= cfg.retryBackoffBaseSeconds && 0.0 <= cfg.retryBackoffMaxSeconds
  }

  ghost predicate RetryTimesOk(r: Redis) {
    forall entry :: entry in r.delayed ==> 0.0 <= r.delayed[entry]
  }

  lemma ReadyInTime(e: Env, a: Attempt, k: nat)
    requires ClockOk(e) && BackoffOk(e.cfg)
    ensures 0.0 <= ReadyAt(e.cfg, a, e.tick(k))
  {
    assert 0.0 <= e.tick(k) <= e.tick(k);
    assert e.cfg.retryBackoffBaseSeconds * Pow2(a.number - 1) >= 0.0;
  }

  lemma StepRetryTimes(e: Env, s: State, op: Op)
    requires ClockOk(e) && BackoffOk(e.cfg) && TidyState(e, s) && Enabled(e, s, op) && !op.RedisFault?
    requires RetryTimesOk(s.redis)
    ensures RetryTimesOk(Step(e, s, op).redis)
  {
    hide Step, FormatEntry, ParseEntry, Score, ReadyAt, WellFormed, ClockOk, TidyState, IsMin;
    StepRedis(e, s, op);
    if op.RequeueOrphan? {
      TidyIsDbInv(e, s);
      NothingToReconcile(e.cfg, s.db, [op.job]);
    } else if op.CompleteAttempt? && Accepts(e, s, op.id, op.token) {
      ReadyInTime(e, TheRow(s.db, op.id), s.pos + 2);
    } else if op.ReapOne? && HasRow(s.db, op.id) {
      ReadyInTime(e, TheRow(s.db, op.id), s.pos + 1);
    }
  }

  lemma {:induction false} RunRetryTimes(e: Env, s: State, ops: seq<Op>)
    requires ClockOk(e) && BackoffOk(e.cfg) && TidyState(e, s) && EnabledRun(e, s, ops) && Faultless(ops)
    requires RetryTimesOk(s.redis)
    ensures TidyState(e, Run(e, s, ops)) && RetryTimesOk(Run(e, s, ops).redis)
  {
    hide Step, Enabled, TidyState, RetryTimesOk;
    if ops != [] {
      var front, last := ops[..|ops| - 1], ops[|ops| - 1];
      RunLast(e, s, ops);
      RunRetryTimes(e, s, front);
      StepKeepsTidy(e, Run(e, s, front), last);
      StepRetryTimes(e, Run(e, s, front), last);
    }
  }

  lemma LifeIsTidy(e: Env, s: State, evs: seq<Event>)
    requires ClockOk(e) && TidyState(e, s) && LifeOk(e, s, evs) && NoFaults(evs)
    ensures TidyState(e, Life(e, s, evs))
    ensures BackoffOk(e.cfg) && RetryTimesOk(s.redis) ==> RetryTimesOk(Life(e, s, evs).redis)
  {
    TidyIsDbInv(e, s);
    var ops := LifeIsRun(e, s, evs);
    hide TidyState, RetryTimesOk, Life;
    RunKeepsTidy(e, s, ops);
    if BackoffOk(e.cfg) && RetryTimesOk(s.redis) {
      RunRetryTimes(e, s, ops);
    }
  }

  /** No tick of the life promotes at or after `ready`. */
  ghost predicate Early(e: Env, s: State, evs: seq<Event>, ready: real) {
    forall i :: 0 <= i < |evs| && evs[i].Reaper? ==>
      Now(e, AfterReap(e, Life(e, s, evs[..i]), evs[i].t)) < ready
  }

  lemma {:induction false} LifeKeepsWaiting(e: Env, s: State, evs: seq<Event>, job: string, ready: real)
    requires ClockOk(e) && TidyState(e, s) && LifeOk(e, s, evs) && NoFaults(evs)
    requires WaitsUntil(s, job, ready) && Early(e, s, evs, ready)
    ensures WaitsUntil(Life(e, s, evs), job, ready)
  {
    hide WaitsUntil, TidyState, Step, TickStep, AfterReap, TickSelected;
    if evs != [] {
      var front, ev := evs[..|evs| - 1], evs[|evs| - 1];
      LifeFront(e, s, evs);
      assert forall i :: 0 <= i < |front| ==> front[..i] == evs[..i];
      LifeKeepsWaiting(e, s, front, job, ready);
      LifeIsTidy(e, s, front);
      var mid := Life(e, s, front);
      match ev
      case Request(op) => RequestKeepsWaiting(e, mid, op, job, ready);
      case Reaper(t) => EarlyTickKeepsWaiting(e, mid, t, job, ready);
    }
  }

  /** A retry rejoins on time: in a fault-free life from the empty server, a job
      in backoff stays in the delayed set through everything that happens before
      its ready time, and the first tick whose promotion reads the clock at or
      after that time moves it to the live queue. */
  lemma BackoffRejoins(e: Env, past: seq<Event>, evs: seq<Event>, t: Tick, job: string, ready: real)
    requires ClockOk(e) && BackoffOk(e.cfg)
    requires LifeOk(e, InitialState(), past) && NoFaults(past)
    requires LifeOk(e, Life(e, InitialState(), past), evs) && NoFaults(evs)
    requires TickSelected(e, Life(e, Life(e, InitialState(), past), evs), t)
    requires WaitsUntil(Life(e, InitialState(), past), job, ready)
    requires Early(e, Life(e, InitialState(), past), evs, ready)
    requires ready <= Now(e, AfterReap(e, Life(e, Life(e, InitialState(), past), evs), t))
    ensures var s := Life(e, Life(e, InitialState(), past), evs);
            var s' := TickStep(e, s, t);
            && WaitsUntil(s, job, ready) && job !in s.redis.queue
            && job in s'.db.jobs && s'.db.jobs[job].status == JobQueued
            && job in s'.redis.queue && EntryOf(s'.db, job) !in s'.redis.delayed
  {
    InitialIsTidy(e);
    var s0 := Life(e, InitialState(), past);
    LifeIsTidy(e, InitialState(), past);
    var s := Life(e, s0, evs);
    hide Life, TidyState, TickStep, AfterReap, TickSelected;
    assert 0.0 <= ready;
    LifeIsTidy(e, s0, evs);
    LifeKeepsWaiting(e, s0, evs, job, ready);
    TidyParts(e, s, job);
    DueTickPromotes(e, s, t, job, ready);
  }
}
