/** Whole sweeps, reaper ticks, and the server's life as a sequence of requests
    and ticks, each shown to be a run of enabled actions. What is proved of all
    runs therefore holds of every such life. */
module Ticks {
  import opened Options
  import opened DelayedEntry
  import opened SortedSet
  import opened Records
  import opened Protocol
  import opened Database
  import opened Guarantees
  import opened Sweeps

  /** Actions that a client asks for, and Redis faults; the rest is the reaper's. */
  predicate IsRequest(op: Op) {
    !(op.ReadClock? || op.MarkDead? || op.ExpireLease? || op.ReapOne? || op.PromoteOne? || op.RequeueOrphan?)
  }

  predicate ReaperOnly(ops: seq<Op>) {
    forall i :: 0 <= i < |ops| ==> !IsRequest(ops[i])
  }

  // ---- the four sweeps ------------------------------------------------------------

  lemma ExpiredSweepEnabled(e: Env, s: State, rows: seq<AttemptId>)
    requires DbInv(e.cfg, s.db) && Selected(e, s, ReapExpiredLeases(rows))
    ensures EnabledRun(e, s, SweepOps(s, ReapExpiredLeases(rows)))
  {
    var s1 := Step(e, s, ReadClock);
    forall id | id in rows
      ensures LeaseExpired(s1.db, id, e.tick(s.pos))
    {
      assert id in ExpiredRows(s.db, Now(e, s));
    }
    ReapPrefix(e, s1, rows, s.pos, |rows|);
    assert rows[..|rows|] == rows;
    RunFirst(e, s, ReadClock);
    EnabledConcat(e, s, [ReadClock], ReapOps(rows, s.pos));
  }

  lemma PromoteSweepEnabled(e: Env, s: State, entries: seq<string>)
    requires Selected(e, s, PromoteDelayedJobs(entries))
    ensures EnabledRun(e, s, SweepOps(s, PromoteDelayedJobs(entries)))
    ensures var n := WellFormedPrefix(entries);
            Untouched(Step(e, s, ReadClock), SweepStep(e, s, PromoteDelayedJobs(entries)), entries[..n], n)
  {
    var n := WellFormedPrefix(entries);
    var prefix := entries[..n];
    var s1 := Step(e, s, ReadClock);
    SelectedPromotable(e, s, entries);
    RunFirst(e, s, ReadClock);
    assert EnabledRun(e, s, [ReadClock]);
    hide WellFormed, LexLeq, Step, Enabled, EnabledRun, Selected, Untouched;
    PromotePrefix(e, s1, prefix, s.pos, n);
    assert prefix[..n] == prefix;
    RunConcat(e, s, [ReadClock], PromoteOps(prefix, s.pos));
    EnabledConcat(e, s, [ReadClock], PromoteOps(prefix, s.pos));
  }

  lemma SelectedPromotable(e: Env, s: State, entries: seq<string>)
    requires Selected(e, s, PromoteDelayedJobs(entries))
    ensures var n, s1 := WellFormedPrefix(entries), Step(e, s, ReadClock);
            && s.pos < s1.pos && Distinct(entries[..n])
            && forall i :: 0 <= i < n ==> Enabled(e, s1, PromoteOne(entries[..n][i], s.pos))
  {
    hide WellFormed, LexLeq;
    var n := WellFormedPrefix(entries);
    forall i | 0 <= i < n
      ensures Enabled(e, Step(e, s, ReadClock), PromoteOne(entries[..n][i], s.pos))
    {
      assert entries[i] in entries;
    }
  }

  lemma PlannedIsStale(e: Env, db: Db, t: real, plan: seq<Casualty>)
    requires IsPlan(e, db, t, plan)
    ensures forall i, k :: 0 <= i < k < |plan| ==> plan[i].worker != plan[k].worker
    ensures forall w :: Planned(plan, w) <==> Stale(e, db, w, t)
    ensures forall id, w :: PlannedRow(plan, id, w) <==> Stale(e, db, w, t) && HeldBy(db, id, w)
  {
    var names := seq(|plan|, i requires 0 <= i < |plan| => plan[i].worker);
    forall i, k | 0 <= i < k < |plan|
      ensures plan[i].worker != plan[k].worker
    {
      assert names[i] != names[k];
    }
    forall w
      ensures Planned(plan, w) <==> Stale(e, db, w, t)
    {
      assert w in names <==> w in StaleWorkers(e, db, t);
      if Planned(plan, w) {
        var i :| 0 <= i < |plan| && plan[i].worker == w;
        assert names[i] == w;
      }
    }
    forall id: AttemptId, w
      ensures PlannedRow(plan, id, w) <==> Stale(e, db, w, t) && HeldBy(db, id, w)
    {
      if Stale(e, db, w, t) && HeldBy(db, id, w) {
        assert Planned(plan, w);
        var i :| 0 <= i < |plan| && plan[i].worker == w;
        assert id in RowsHeldBy(db, plan[i].worker);
        assert id in plan[i].rows;
      }
      if PlannedRow(plan, id, w) {
        var i :| 0 <= i < |plan| && plan[i].worker == w && id in plan[i].rows;
        assert id in RowsHeldBy(db, plan[i].worker);
        assert Planned(plan, w);
      }
    }
  }

  lemma BurialEnabledAt(e: Env, s: State, plan: seq<Casualty>, i: nat)
    requires ClockOk(e) && Selected(e, s, ReapDeadWorkers(plan)) && i < |BuryOps(plan, s.pos)|
    requires Burying(s.db, BuryOps(plan, s.pos))
    requires PlanAction(plan, s.pos, BuryOps(plan, s.pos), i)
    ensures Enabled(e, Run(e, Step(e, s, ReadClock), BuryOps(plan, s.pos)[..i]), BuryOps(plan, s.pos)[i])
  {
    var ops := BuryOps(plan, s.pos);
    var s1 := Step(e, s, ReadClock);
    PlannedIsStale(e, s.db, Now(e, s), plan);
    Burial(e, s1, ops[..i]);
    hide Run, Step;
    match ops[i] {
      case MarkDead(w, _) => assert Planned(plan, w);
      case ExpireLease(id, w) =>
        assert HeldBy(s.db, id, w);
        assert BuriedRow(e, s1, ops[..i], Run(e, s1, ops[..i]), id);
    }
  }

  /** The dead-worker sweep marks exactly the stale workers and brings the expiry
      of exactly the leases they hold down to a reading of its own. */
  lemma DeadSweep(e: Env, s: State, plan: seq<Casualty>)
    requires ClockOk(e) && Selected(e, s, ReapDeadWorkers(plan))
    ensures EnabledRun(e, s, SweepOps(s, ReapDeadWorkers(plan)))
    ensures Burying(s.db, BuryOps(plan, s.pos))
    ensures Buried(e, Step(e, s, ReadClock), BuryOps(plan, s.pos), SweepStep(e, s, ReapDeadWorkers(plan)))
    ensures forall w :: Marks(BuryOps(plan, s.pos), w) <==> Stale(e, s.db, w, Now(e, s))
    ensures forall id :: Cuts(BuryOps(plan, s.pos), id) <==>
                         exists w :: Stale(e, s.db, w, Now(e, s)) && HeldBy(s.db, id, w)
  {
    var ops := BuryOps(plan, s.pos);
    var s1 := Step(e, s, ReadClock);
    PlannedIsStale(e, s.db, Now(e, s), plan);
    BuryOpsActions(plan, s.pos);
    forall i | 0 <= i < |ops|
      ensures (ops[i].MarkDead? && ops[i].worker in s.db.workers) || (ops[i].ExpireLease? && HasRow(s.db, ops[i].id))
    {
      assert PlanAction(plan, s.pos, ops, i);
      match ops[i] {
        case MarkDead(w, _) => assert Stale(e, s.db, w, Now(e, s));
        case ExpireLease(id, w) => assert HeldBy(s.db, id, w);
      }
    }
    forall i | 0 <= i < |ops|
      ensures Enabled(e, Run(e, s1, ops[..i]), ops[i])
    {
      BurialEnabledAt(e, s, plan, i);
    }
    forall id
      ensures Cuts(ops, id) <==> exists w :: Stale(e, s.db, w, Now(e, s)) && HeldBy(s.db, id, w)
    {
      if w :| PlannedRow(plan, id, w) {
        assert Stale(e, s.db, w, Now(e, s)) && HeldBy(s.db, id, w);
      }
    }
    Burial(e, s1, ops);
    RunFirst(e, s, ReadClock);
    RunConcat(e, s, [ReadClock], ops);
    EnabledConcat(e, s, [ReadClock], ops);
  }

  lemma SweepEnabled(e: Env, s: State, sweep: Sweep)
    requires ClockOk(e) && DbInv(e.cfg, s.db) && Selected(e, s, sweep)
    ensures EnabledRun(e, s, SweepOps(s, sweep)) && ReaperOnly(SweepOps(s, sweep))
    ensures DbInv(e.cfg, SweepStep(e, s, sweep).db)
  {
    hide Step, Enabled;
    match sweep {
      case ReapDeadWorkers(plan) =>
        DeadSweep(e, s, plan);
        forall i | 0 <= i < |BuryOps(plan, s.pos)|
          ensures !IsRequest(BuryOps(plan, s.pos)[i])
        {
        }
      case ReapExpiredLeases(rows) => ExpiredSweepEnabled(e, s, rows);
      case PromoteDelayedJobs(entries) => PromoteSweepEnabled(e, s, entries);
      case ReconcileOrphanedJobs(jobs) => NothingToReconcile(e.cfg, s.db, jobs);
    }
    RunKeepsDb(e, s, SweepOps(s, sweep));
  }

  // ---- ticks ------------------------------------------------------------------------

  lemma ExtendRun(e: Env, s: State, ops: seq<Op>, sweep: Sweep) returns (ops': seq<Op>)
    requires ClockOk(e) && DbInv(e.cfg, s.db) && EnabledRun(e, s, ops) && ReaperOnly(ops)
    requires Selected(e, Run(e, s, ops), sweep)
    ensures EnabledRun(e, s, ops') && ReaperOnly(ops')
    ensures Run(e, s, ops') == SweepStep(e, Run(e, s, ops), sweep)
  {
    hide Step, Enabled, Selected;
    RunKeepsDb(e, s, ops);
    var mid := Run(e, s, ops);
    SweepEnabled(e, mid, sweep);
    ops' := ops + SweepOps(mid, sweep);
    RunConcat(e, s, ops, SweepOps(mid, sweep));
    EnabledConcat(e, s, ops, SweepOps(mid, sweep));
  }

  lemma TickIsRun(e: Env, s: State, t: Tick) returns (ops: seq<Op>)
    requires ClockOk(e) && DbInv(e.cfg, s.db) && TickSelected(e, s, t)
    ensures EnabledRun(e, s, ops) && ReaperOnly(ops) && Run(e, s, ops) == TickStep(e, s, t)
  {
    assert Run(e, s, []) == s;
    hide Run, Selected, SweepStep;
    ops := ExtendRun(e, s, [], ReapDeadWorkers(t.plan));
    ops := ExtendRun(e, s, ops, ReapExpiredLeases(t.rows));
    ops := ExtendRun(e, s, ops, PromoteDelayedJobs(t.entries));
    if !PromoteRaises(t) {
      ops := ExtendRun(e, s, ops, ReconcileOrphanedJobs(t.jobs));
    }
  }

  lemma RequeueEffect(e: Env, s: State, job: string)
    requires job in s.db.jobs
    ensures var s' := Step(e, s, RequeueOrphan(job));
            s'.db == s.db && s'.redis.queue.Keys == s.redis.queue.Keys + {job}
  {
  }

  lemma {:induction false} OrphanRun(e: Env, s: State, jobs: seq<string>, job: string)
    ensures var s' := Run(e, s, OrphanOps(s.db, jobs));
            && s'.db == s.db
            && (job in s'.redis.queue <==> job in s.redis.queue || RequeueOrphan(job) in OrphanOps(s.db, jobs))
  {
    if jobs == [] {
      RunOfNothing(e, s);
    } else {
      var front, last := jobs[..|jobs| - 1], jobs[|jobs| - 1];
      OrphanRun(e, s, front, job);
      var ops := OrphanOps(s.db, front);
      if Orphaned(s.db, last) {
        assert OrphanOps(s.db, jobs) == ops + [RequeueOrphan(last)];
        RunSnoc(e, s, ops, RequeueOrphan(last));
        hide Run, OrphanOps, Step;
        RequeueEffect(e, Run(e, s, ops), last);
      } else {
        assert OrphanOps(s.db, jobs) == ops + [];
        assert ops + [] == ops;
      }
    }
  }

  lemma RaisesIff(entries: seq<string>)
    ensures WellFormedPrefix(entries) == |entries| <==> forall x :: x in entries ==> WellFormed(x)
  {
    hide WellFormed;
    if WellFormedPrefix(entries) == |entries| {
      forall x | x in entries
        ensures WellFormed(x)
      {
        var i :| 0 <= i < |entries| && entries[i] == x;
      }
    } else {
      assert entries[WellFormedPrefix(entries)] in entries;
    }
  }

  /** The fourth sweep runs exactly if promotion met no malformed entry: a QUEUED
      job that has no active attempt, and is not in the live queue after the
      promotion, is put there by the rest of the tick exactly in that case. */
  lemma TickReconcilesIff(e: Env, s: State, t: Tick, job: string)
    requires TickSelected(e, s, t)
    requires Orphaned(AfterPromote(e, s, t).db, job) && job !in AfterPromote(e, s, t).redis.queue
    ensures job in TickStep(e, s, t).redis.queue <==> forall x :: x in t.entries ==> WellFormed(x)
  {
    RaisesIff(t.entries);
    var p := AfterPromote(e, s, t);
    if !PromoteRaises(t) {
      assert Selected(e, p, ReconcileOrphanedJobs(t.jobs));
      assert job in QueuedJobs(p.db) && job in t.jobs;
      OrphanOpsIff(p.db, t.jobs, job);
      hide Run, AfterPromote, WellFormed, OrphanOps;
      OrphanRun(e, p, t.jobs, job);
    }
  }

  // ---- lives --------------------------------------------------------------------------

  /** What reaches the server: a request, or one tick of its reaper loop. */
  datatype Event = Request(op: Op) | Reaper(t: Tick)

  ghost function EventStep(e: Env, s: State, ev: Event): State {
    match ev
    case Request(op) => Step(e, s, op)
    case Reaper(t) => TickStep(e, s, t)
  }

  ghost predicate EventOk(e: Env, s: State, ev: Event) {
    match ev
    case Request(op) => IsRequest(op)
    case Reaper(t) => TickSelected(e, s, t)
  }

  ghost function Life(e: Env, s: State, evs: seq<Event>): State {
    if evs == [] then s
    else EventStep(e, Life(e, s, evs[..|evs| - 1]), evs[|evs| - 1])
  }

  ghost predicate LifeOk(e: Env, s: State, evs: seq<Event>) {
    forall i :: 0 <= i < |evs| ==> EventOk(e, Life(e, s, evs[..i]), evs[i])
  }

  predicate NoFaults(evs: seq<Event>) {
    forall i :: 0 <= i < |evs| ==> !(evs[i].Request? && evs[i].op.RedisFault?)
  }

  lemma LifeFront(e: Env, s: State, evs: seq<Event>)
    requires evs != [] && LifeOk(e, s, evs)
    ensures LifeOk(e, s, evs[..|evs| - 1])
    ensures EventOk(e, Life(e, s, evs[..|evs| - 1]), evs[|evs| - 1])
  {
    var front := evs[..|evs| - 1];
    forall i | 0 <= i < |front|
      ensures EventOk(e, Life(e, s, front[..i]), front[i])
    {
      assert front[..i] == evs[..i];
    }
  }

  /** Every life of the server is a run of enabled actions. */
  lemma {:induction false} LifeIsRun(e: Env, s: State, evs: seq<Event>) returns (ops: seq<Op>)
    requires ClockOk(e) && DbInv(e.cfg, s.db) && LifeOk(e, s, evs)
    ensures EnabledRun(e, s, ops) && Run(e, s, ops) == Life(e, s, evs)
    ensures NoFaults(evs) ==> Faultless(ops)
  {
    hide Step, TickStep, TickSelected, Run;
    if evs == [] {
      ops := [];
      assert Run(e, s, []) == s by { RunOfNothing(e, s); }
    } else {
      var n := |evs| - 1;
      LifeFront(e, s, evs);
      ops := LifeIsRun(e, s, evs[..n]);
      RunKeepsDb(e, s, ops);
      var mid := Run(e, s, ops);
      var more;
      match evs[n] {
        case Request(op) =>
          more := [op];
          RunFirst(e, mid, op);
          OneEnabled(e, mid, op);
        case Reaper(t) =>
          more := TickIsRun(e, mid, t);
      }
      RunConcat(e, s, ops, more);
      EnabledConcat(e, s, ops, more);
      ops := ops + more;
    }
  }

  /** Redis is disposable: whatever happens to the live queue and the delayed set,
      and however requests and ticks follow one another, the system of record
      stays consistent from the empty server on. */
  lemma RedisIsDisposable(e: Env, evs: seq<Event>)
    requires ClockOk(e) && LifeOk(e, InitialState(), evs)
    ensures DbInv(e.cfg, Life(e, InitialState(), evs).db)
  {
    var ops := LifeIsRun(e, InitialState(), evs);
    RunKeepsDb(e, InitialState(), ops);
  }

  lemma RunOfNothing(e: Env, s: State)
    ensures Run(e, s, []) == s
  {
  }

  lemma OneEnabled(e: Env, s: State, op: Op)
    requires IsRequest(op)
    ensures EnabledRun(e, s, [op])
  {
  }
}
