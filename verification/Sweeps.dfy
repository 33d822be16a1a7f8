/** The reaper's sweeps, seen as runs of single actions: each action of a sweep
    finds its row still selected when its turn comes, and the sweep does to
    every row it selected what it set out to do. */
module Sweeps {
  import opened Options
  import opened DelayedEntry
  import opened QueueScore
  import opened Records
  import opened JobLife
  import opened Protocol
  import opened Database

  // ---- reap_expired_leases --------------------------------------------------------

  /** One job has at most one active attempt, so the selected rows belong to
      different jobs and no reaping disturbs the next. */
  lemma ExpiredRowsApart(e: Env, db: Db, t: real, a: AttemptId, b: AttemptId)
    requires DbInv(e.cfg, db) && LeaseExpired(db, a, t) && LeaseExpired(db, b, t) && a != b
    ensures a.job != b.job
  {
    if a.job == b.job {
      assert JobInv(e.cfg, db.jobs[a.job]);
      ActiveIsLast(e.cfg, db.jobs[a.job], a.row);
      ActiveIsLast(e.cfg, db.jobs[a.job], b.row);
    }
  }

  lemma ReapTouchesOneJob(e: Env, s: State, id: AttemptId, seen: nat, other: string)
    requires other != id.job
    ensures var s' := Step(e, s, ReapOne(id, seen));
            && (other in s'.db.jobs <==> other in s.db.jobs)
            && (other in s.db.jobs ==> s'.db.jobs[other] == s.db.jobs[other])
            && s'.db.workers == s.db.workers && s'.pos >= s.pos
  {
    hide BackoffSeconds, FormatEntry;
  }

  /** Reaping the next row leaves the remaining ones selected. */
  lemma ReapNext(e: Env, s: State, rows: seq<AttemptId>, seen: nat, k: nat)
    requires DbInv(e.cfg, s.db) && seen < s.pos && k < |rows| && Distinct(rows)
    requires forall i :: k <= i < |rows| ==> LeaseExpired(s.db, rows[i], e.tick(seen))
    ensures Enabled(e, s, ReapOne(rows[k], seen)) && Step(e, s, ReapOne(rows[k], seen)).pos >= s.pos
    ensures forall i :: k < i < |rows| ==>
              LeaseExpired(Step(e, s, ReapOne(rows[k], seen)).db, rows[i], e.tick(seen))
  {
    var op := ReapOne(rows[k], seen);
    ReapTouchesOneJob(e, s, rows[k], seen, rows[k].job + "x");
    hide Step, DbInv;
    forall i | k < i < |rows|
      ensures LeaseExpired(Step(e, s, op).db, rows[i], e.tick(seen))
    {
      ExpiredRowsApart(e, s.db, e.tick(seen), rows[k], rows[i]);
      ReapTouchesOneJob(e, s, rows[k], seen, rows[i].job);
    }
  }

  lemma {:induction false} ReapPrefix(e: Env, s: State, rows: seq<AttemptId>, seen: nat, k: nat)
    requires DbInv(e.cfg, s.db) && seen < s.pos && k <= |rows| && Distinct(rows)
    requires forall id :: id in rows ==> LeaseExpired(s.db, id, e.tick(seen))
    ensures EnabledRun(e, s, ReapOps(rows[..k], seen))
    ensures Run(e, s, ReapOps(rows[..k], seen)).pos >= s.pos
    ensures forall i :: k <= i < |rows| ==>
              LeaseExpired(Run(e, s, ReapOps(rows[..k], seen)).db, rows[i], e.tick(seen))
  {
    hide Step, Enabled, LeaseExpired, DbInv, Distinct;
    if k == 0 {
      assert ReapOps(rows[..0], seen) == [];
      assert forall i :: 0 <= i < |rows| ==> rows[i] in rows;
    } else {
      ReapPrefix(e, s, rows, seen, k - 1);
      var ops, op := ReapOps(rows[..k - 1], seen), ReapOne(rows[k - 1], seen);
      assert ReapOps(rows[..k], seen) == ops + [op];
      RunSnoc(e, s, ops, op);
      RunKeepsDb(e, s, ops);
      ReapNext(e, Run(e, s, ops), rows, seen, k - 1);
    }
  }

  // ---- promote_delayed_jobs ---------------------------------------------------------

  /** What the first k promotions leave alone. */
  ghost predicate Untouched(s: State, s': State, entries: seq<string>, k: nat)
    requires k <= |entries|
  {
    && s'.db == s.db && s'.pos >= s.pos
    && s'.redis.delayed.Keys <= s.redis.delayed.Keys
    && (forall x :: x in s.redis.delayed ==> (x in s'.redis.delayed <==> x !in entries[..k]))
    && (forall x :: x in s'.redis.delayed ==> s'.redis.delayed[x] == s.redis.delayed[x])
  }

  lemma UntouchedStep(e: Env, s: State, mid: State, entries: seq<string>, k: nat, seen: nat)
    requires k < |entries| && Untouched(s, mid, entries, k) && WellFormed(entries[k])
    ensures Untouched(s, Step(e, mid, PromoteOne(entries[k], seen)), entries, k + 1)
  {
    PromoteEffect(e, mid, entries[k], seen);
    hide WellFormed, Step;
    assert entries[..k + 1] == entries[..k] + [entries[k]];
  }

  lemma StillPromotable(e: Env, s: State, mid: State, entries: seq<string>, seen: nat, k: nat)
    requires k < |entries| && Distinct(entries) && Enabled(e, s, PromoteOne(entries[k], seen))
    requires Untouched(s, mid, entries, k)
    ensures Enabled(e, mid, PromoteOne(entries[k], seen)) && WellFormed(entries[k])
  {
    hide WellFormed;
    assert entries[k] !in entries[..k];
  }

  lemma {:induction false} PromotePrefix(e: Env, s: State, entries: seq<string>, seen: nat, k: nat)
    requires seen < s.pos && k <= |entries| && Distinct(entries)
    requires forall i :: 0 <= i < |entries| ==> Enabled(e, s, PromoteOne(entries[i], seen))
    ensures EnabledRun(e, s, PromoteOps(entries[..k], seen))
    ensures Untouched(s, Run(e, s, PromoteOps(entries[..k], seen)), entries, k)
  {
    hide Step, WellFormed;
    if k == 0 {
      assert PromoteOps(entries[..0], seen) == [];
    } else {
      hide Run, EnabledRun, Untouched, Enabled;
      PromotePrefix(e, s, entries, seen, k - 1);
      var ops, op := PromoteOps(entries[..k - 1], seen), PromoteOne(entries[k - 1], seen);
      var mid := Run(e, s, ops);
      assert PromoteOps(entries[..k], seen) == ops + [op];
      StillPromotable(e, s, mid, entries, seen, k - 1);
      RunSnoc(e, s, ops, op);
      UntouchedStep(e, s, mid, entries, k - 1, seen);
    }
  }

  lemma PromoteEffect(e: Env, s: State, entry: string, seen: nat)
    requires WellFormed(entry)
    ensures var s' := Step(e, s, PromoteOne(entry, seen));
            && s'.db == s.db && s'.pos == s.pos + 1
            && s'.redis.delayed == s.redis.delayed - {entry}
            && s'.redis.queue ==
               s.redis.queue[ParseEntry(entry).value.0 := Score(e.rnd, ParseEntry(entry).value.1, Now(e, s))]
  {
  }

  // ---- reap_dead_workers ------------------------------------------------------------

  ghost predicate Marks(ops: seq<Op>, worker: string) {
    exists i :: 0 <= i < |ops| && ops[i].MarkDead? && ops[i].worker == worker
  }

  ghost predicate Cuts(ops: seq<Op>, id: AttemptId) {
    exists i :: 0 <= i < |ops| && ops[i].ExpireLease? && ops[i].id == id
  }

  /** What burying workers may touch: their status, and the expiry of rows. */
  ghost predicate Burying(db: Db, ops: seq<Op>) {
    forall i :: 0 <= i < |ops| ==>
      || (ops[i].MarkDead? && ops[i].worker in db.workers)
      || (ops[i].ExpireLease? && HasRow(db, ops[i].id))
  }

  /** The system of record after a burial, row by row. */
  ghost predicate Buried(e: Env, s: State, ops: seq<Op>, s': State) {
    && s'.redis == s.redis && s.pos <= s'.pos
    && s'.db.workers.Keys == s.db.workers.Keys
    && (forall w :: w in s.db.workers ==>
          s'.db.workers[w] == if Marks(ops, w) then s.db.workers[w].(status := Dead) else s.db.workers[w])
    && s'.db.jobs.Keys == s.db.jobs.Keys
    && (forall j :: j in s.db.jobs ==>
          s'.db.jobs[j] == s.db.jobs[j].(attempts := s'.db.jobs[j].attempts)
          && |s'.db.jobs[j].attempts| == |s.db.jobs[j].attempts|)
    && (forall id :: HasRow(s.db, id) ==> BuriedRow(e, s, ops, s', id))
  }

  ghost predicate BuriedRow(e: Env, s: State, ops: seq<Op>, s': State, id: AttemptId)
    requires HasRow(s.db, id)
  {
    && HasRow(s'.db, id)
    && TheRow(s'.db, id) == TheRow(s.db, id).(expires := TheRow(s'.db, id).expires)
    && (if Cuts(ops, id)
        then s'.pos > s.pos && TheRow(s'.db, id).expires.Some?
             && TheRow(s'.db, id).expires.value <= e.tick(s'.pos - 1)
        else TheRow(s'.db, id) == TheRow(s.db, id))
  }

  lemma SnocMembers(ops: seq<Op>, op: Op)
    ensures forall w :: Marks(ops + [op], w) <==> Marks(ops, w) || (op.MarkDead? && op.worker == w)
    ensures forall id :: Cuts(ops + [op], id) <==> Cuts(ops, id) || (op.ExpireLease? && op.id == id)
  {
    var all := ops + [op];
    forall w
      ensures Marks(all, w) <==> Marks(ops, w) || (op.MarkDead? && op.worker == w)
    {
      if Marks(ops, w) {
        var i :| 0 <= i < |ops| && ops[i].MarkDead? && ops[i].worker == w;
        assert all[i] == ops[i];
      }
      if op.MarkDead? && op.worker == w {
        assert all[|ops|] == op;
      }
    }
    forall id
      ensures Cuts(all, id) <==> Cuts(ops, id) || (op.ExpireLease? && op.id == id)
    {
      if Cuts(ops, id) {
        var i :| 0 <= i < |ops| && ops[i].ExpireLease? && ops[i].id == id;
        assert all[i] == ops[i];
      }
      if op.ExpireLease? && op.id == id {
        assert all[|ops|] == op;
      }
    }
  }

  lemma BurialStep(e: Env, s: State, ops: seq<Op>, mid: State, op: Op)
    requires ClockOk(e) && Buried(e, s, ops, mid) && Burying(s.db, [op])
    ensures Buried(e, s, ops + [op], Step(e, mid, op))
  {
    SnocMembers(ops, op);
    assert [op][0] == op;
    var s' := Step(e, mid, op);
    if op.ExpireLease? {
      assert BuriedRow(e, s, ops, mid, op.id);
    }
    hide Marks, Cuts;
    forall id | HasRow(s.db, id)
      ensures BuriedRow(e, s, ops + [op], s', id)
    {
      assert BuriedRow(e, s, ops, mid, id);
      if mid.pos > s.pos {
        assert e.tick(mid.pos - 1) <= e.tick(s'.pos - 1);
      }
    }
  }

  lemma BurialFront(db: Db, ops: seq<Op>)
    requires Burying(db, ops) && ops != []
    ensures Burying(db, ops[..|ops| - 1]) && Burying(db, [ops[|ops| - 1]])
    ensures ops == ops[..|ops| - 1] + [ops[|ops| - 1]]
  {
    assert [ops[|ops| - 1]][0] == ops[|ops| - 1];
  }

  lemma {:induction false} Burial(e: Env, s: State, ops: seq<Op>)
    requires ClockOk(e) && Burying(s.db, ops)
    ensures Buried(e, s, ops, Run(e, s, ops))
  {
    if ops != [] {
      hide ClockOk, Step, Burying, Buried;
      BurialFront(s.db, ops);
      Burial(e, s, ops[..|ops| - 1]);
      RunLast(e, s, ops);
      BurialStep(e, s, ops[..|ops| - 1], Run(e, s, ops[..|ops| - 1]), ops[|ops| - 1]);
    }
  }

  /** The last clock reading of a burial is the expiry of the last row it cut. */
  lemma {:induction false} BurialLast(e: Env, s: State, ops: seq<Op>) returns (id: AttemptId)
    requires ClockOk(e) && Burying(s.db, ops) && Run(e, s, ops).pos > s.pos
    ensures Cuts(ops, id) && HasRow(s.db, id) && HasRow(Run(e, s, ops).db, id)
    ensures TheRow(Run(e, s, ops).db, id).expires == Some(e.tick(Run(e, s, ops).pos - 1))
  {
    var front, op := ops[..|ops| - 1], ops[|ops| - 1];
    var mid := Run(e, s, front);
    BurialFront(s.db, ops);
    Burial(e, s, front);
    SnocMembers(front, op);
    BurialActions(e, s.db, mid, op);
    hide ClockOk, Marks, Cuts, Step, Burying;
    if op.ExpireLease? {
      id := op.id;
      assert BuriedRow(e, s, front, mid, id);
    } else {
      id := BurialLast(e, s, front);
    }
  }

  lemma BurialActions(e: Env, db: Db, s: State, op: Op)
    requires Burying(db, [op])
    ensures var s' := Step(e, s, op);
            if op.ExpireLease? then
              HasRow(db, op.id)
              && (HasRow(s.db, op.id) ==>
                    s'.pos == s.pos + 1 && HasRow(s'.db, op.id)
                    && TheRow(s'.db, op.id).expires == Some(Now(e, s)))
            else s'.pos == s.pos && s'.db.jobs == s.db.jobs
  {
    assert [op][0] == op;
  }

  // the actions that a plan prescribes

  ghost predicate Planned(plan: seq<Casualty>, worker: string) {
    exists i :: 0 <= i < |plan| && plan[i].worker == worker
  }

  ghost predicate PlannedRow(plan: seq<Casualty>, id: AttemptId, worker: string) {
    exists i :: 0 <= i < |plan| && plan[i].worker == worker && id in plan[i].rows
  }

  /** Every action a plan prescribes: a mark for a planned worker, not marked
      before, or a cut of a planned row, whose holder was marked before. */
  ghost predicate PlanAction(plan: seq<Casualty>, seen: nat, ops: seq<Op>, i: nat)
    requires i < |ops|
  {
    match ops[i]
    case MarkDead(w, k) => k == seen && Planned(plan, w) && !Marks(ops[..i], w)
    case ExpireLease(id, w) => PlannedRow(plan, id, w) && Marks(ops[..i], w)
    case _ => false
  }

  lemma {:induction false} BuryOpsActions(plan: seq<Casualty>, seen: nat)
    requires forall i, k :: 0 <= i < k < |plan| ==> plan[i].worker != plan[k].worker
    ensures forall i :: 0 <= i < |BuryOps(plan, seen)| ==> PlanAction(plan, seen, BuryOps(plan, seen), i)
    ensures forall w :: Marks(BuryOps(plan, seen), w) <==> Planned(plan, w)
    ensures forall id :: Cuts(BuryOps(plan, seen), id) <==> exists w :: PlannedRow(plan, id, w)
  {
    if plan != [] {
      var n := |plan| - 1;
      var front, last := plan[..n], plan[n];
      var before := BuryOps(front, seen);
      BuryOpsActions(front, seen);
      var ops := BuryOps(plan, seen);
      var mark := MarkDead(last.worker, seen);
      var cuts := ExpireOps(last.rows, last.worker);
      assert ops == before + [mark] + cuts;
      forall i | 0 <= i < |ops|
        ensures PlanAction(plan, seen, ops, i)
      {
        if i < |before| {
          assert ops[i] == before[i] && ops[..i] == before[..i];
          assert PlanAction(front, seen, before, i);
        } else if i == |before| {
          assert ops[..i] == before && plan[n].worker == last.worker;
          forall m | 0 <= m < |front|
            ensures front[m].worker != last.worker
          {
            assert front[m] == plan[m];
          }
          assert !Planned(front, last.worker);
        } else {
          var r := i - |before| - 1;
          assert ops[i] == ExpireLease(last.rows[r], last.worker);
          assert plan[n].worker == last.worker && last.rows[r] in plan[n].rows;
          assert ops[..i][|before|] == mark;
        }
      }
      forall w
        ensures Marks(ops, w) <==> Planned(plan, w)
      {
        if Planned(plan, w) {
          var m :| 0 <= m < |plan| && plan[m].worker == w;
          if m == n {
            assert ops[|before|] == mark;
          } else {
            assert front[m].worker == w && Marks(before, w);
            var i :| 0 <= i < |before| && before[i].MarkDead? && before[i].worker == w;
            assert ops[i] == before[i];
          }
        }
        if Marks(ops, w) {
          var i :| 0 <= i < |ops| && ops[i].MarkDead? && ops[i].worker == w;
          assert PlanAction(plan, seen, ops, i);
        }
      }
      forall id
        ensures Cuts(ops, id) <==> exists w :: PlannedRow(plan, id, w)
      {
        if w :| PlannedRow(plan, id, w) {
          var m :| 0 <= m < |plan| && plan[m].worker == w && id in plan[m].rows;
          if m == n {
            var r :| 0 <= r < |last.rows| && last.rows[r] == id;
            assert ops[|before| + 1 + r] == ExpireLease(id, last.worker);
          } else {
            assert front[m].worker == w && PlannedRow(front, id, w) && Cuts(before, id);
            var i :| 0 <= i < |before| && before[i].ExpireLease? && before[i].id == id;
            assert ops[i] == before[i];
          }
        }
        if Cuts(ops, id) {
          var i :| 0 <= i < |ops| && ops[i].ExpireLease? && ops[i].id == id;
          assert PlanAction(plan, seen, ops, i);
          assert PlannedRow(plan, id, ops[i].holder);
        }
      }
    }
  }
}
