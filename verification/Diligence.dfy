/** A worker that keeps renewing and heartbeating never loses its attempt. */
module Diligence {
  import opened Options
  import opened DelayedEntry
  import opened SortedSet
  import opened QueueScore
  import opened Records
  import opened JobLife
  import opened Protocol
  import opened Database
  import opened Ticks
  import opened Recovery

  /** The lease in question, with the times of its holder's last renewal (or
      claim) and last heartbeat. */
  datatype Tenure = Tenure(id: AttemptId, worker: string, token: string, renewed: real, beat: real)

  /** No clock reading so far lies beyond the allowance of either message. */
  predicate InTime(e: Env, s: State, l: Tenure) {
    s.pos > 0 ==>
      && e.tick(s.pos - 1) <= l.renewed + e.cfg.jobLeaseSeconds
      && e.tick(s.pos - 1) <= l.beat + e.cfg.workerDeadAfterSeconds
  }

  predicate Kept(e: Env, s: State, l: Tenure) {
    && HeldBy(s.db, l.id, l.worker) && HoldsLease(s.db, l.id, l.token)
    && TheRow(s.db, l.id).expires == Some(l.renewed + e.cfg.jobLeaseSeconds)
    && l.worker in s.db.workers && s.db.workers[l.worker].status == Online
    && s.db.workers[l.worker].lastHeartbeat == l.beat
  }

  function Heard(e: Env, s: State, op: Op, l: Tenure): Tenure {
    if op == Renew(l.id, l.token) then l.(renewed := Now(e, s))
    else if op == Heartbeat(l.worker) then l.(beat := Now(e, s))
    else l
  }

  predicate Ends(op: Op, l: Tenure) {
    op.CompleteAttempt? && op.id == l.id && op.token == l.token
  }

  lemma EveryReadingInTime(e: Env, s: State, l: Tenure)
    requires ClockOk(e) && InTime(e, s, l)
    ensures forall k: nat :: k < s.pos ==>
              e.tick(k) <= l.renewed + e.cfg.jobLeaseSeconds && e.tick(k) <= l.beat + e.cfg.workerDeadAfterSeconds
  {
    forall k: nat | k < s.pos
      ensures e.tick(k) <= e.tick(s.pos - 1)
    {
    }
  }

  lemma StepKeepsWorker(e: Env, s: State, op: Op, l: Tenure)
    requires ClockOk(e) && Enabled(e, s, op) && Kept(e, s, l) && InTime(e, s, l)
    ensures var workers := Step(e, s, op).db.workers;
            l.worker in workers && workers[l.worker].status == Online
            && workers[l.worker].lastHeartbeat == Heard(e, s, op, l).beat
  {
    hide Lease, Finish, Reported, Retry, Lapsed, FormatEntry, IsMin, Score;
    EveryReadingInTime(e, s, l);
  }

  lemma StepKeepsTenure(e: Env, s: State, op: Op, l: Tenure)
    requires ClockOk(e) && DbInv(e.cfg, s.db) && Enabled(e, s, op)
    requires Kept(e, s, l) && InTime(e, s, l) && !Ends(op, l)
    ensures Kept(e, Step(e, s, op), Heard(e, s, op, l))
  {
    var job := s.db.jobs[l.id.job];
    assert JobInv(e.cfg, job);
    ActiveIsLast(e.cfg, job, l.id.row);
    hide Step, JobNext, Shape, LastAgrees, IsMin, ClockOk, DbInv, MoveOf, Enabled, InTime;
    StepKeepsWorker(e, s, op, l);
    StepMoves(e, s, op, l.id.job);
    TenureMove(e, s, op, l);
    TenureMoved(e, s, Step(e, s, op), l, Heard(e, s, op, l), MoveOf(e, s, op, l.id.job));
  }

  lemma TenureMoved(e: Env, s: State, s': State, l: Tenure, l': Tenure, m: Move)
    requires Kept(e, s, l) && Moved(e.cfg, s.db, s'.db, l.id.job, m) && (m.Stay? || m.Note? || m.Extend?)
    requires l.id.row == |s.db.jobs[l.id.job].attempts| - 1
    requires l' == l.(renewed := if m.Extend? then m.at else l.renewed, beat := l'.beat)
    requires l.worker in s'.db.workers && s'.db.workers[l.worker].status == Online
    requires s'.db.workers[l.worker].lastHeartbeat == l'.beat
    ensures Kept(e, s', l')
  {
    RowKeepsTenure(e.cfg, s.db.jobs[l.id.job], m);
    hide JobNext;
  }

  /** Nothing but a log line or the holder's own renewal can reach the row. */
  lemma TenureMove(e: Env, s: State, op: Op, l: Tenure)
    requires ClockOk(e) && DbInv(e.cfg, s.db) && Enabled(e, s, op)
    requires Kept(e, s, l) && InTime(e, s, l) && !Ends(op, l)
    ensures var m := MoveOf(e, s, op, l.id.job);
            if op == Renew(l.id, l.token) then m == Extend(Now(e, s)) else m.Stay? || m.Note?
  {
    EveryReadingInTime(e, s, l);
    var job := s.db.jobs[l.id.job];
    assert JobInv(e.cfg, job);
    ActiveIsLast(e.cfg, job, l.id.row);
    hide Shape, LastAgrees, IsMin, ClockOk, DbInv;
    var m := MoveOf(e, s, op, l.id.job);
    if m.Settle? || m.Cut? || m.Lapse? || m.Extend? {
      ActiveIsLast(e.cfg, job, op.id.row);
    }
  }

  lemma RowKeepsTenure(cfg: Settings, job: Job, m: Move)
    requires MoveOk(job, m) && (m.Stay? || m.Note? || m.Extend?) && Active(Last(job))
    ensures var job' := JobNext(cfg, job, m);
            && |job'.attempts| == |job.attempts| && Active(Last(job'))
            && Last(job').worker == Last(job).worker && Last(job').token == Last(job).token
            && Last(job').expires == if m.Extend? then Some(m.at + cfg.jobLeaseSeconds) else Last(job).expires
  {
  }

  // ---- runs of single actions ---------------------------------------------------------

  /** After every action, the last clock reading is within job_lease_seconds of
      the last renewal and within worker_dead_after_seconds of the last
      heartbeat; and the holder has not reported the attempt finished. */
  ghost predicate Diligent(e: Env, s: State, ops: seq<Op>, l: Tenure)
    decreases |ops|
  {
    ops == []
    || (var s', l' := Step(e, s, ops[0]), Heard(e, s, ops[0], l);
        !Ends(ops[0], l) && InTime(e, s', l') && Diligent(e, s', ops[1..], l'))
  }

  ghost function TenureAfter(e: Env, s: State, ops: seq<Op>, l: Tenure): Tenure
    decreases |ops|
  {
    if ops == [] then l
    else TenureAfter(e, Step(e, s, ops[0]), ops[1..], Heard(e, s, ops[0], l))
  }

  /** However other requests, sweeps and Redis faults interleave, a diligent
      holder keeps its lease: same row, same worker, same token, an expiry that
      follows its last renewal, and a worker that stays ONLINE. */
  lemma {:induction false} DiligentNeverReaped(e: Env, s: State, ops: seq<Op>, l: Tenure)
    requires ClockOk(e) && DbInv(e.cfg, s.db) && EnabledRun(e, s, ops)
    requires Kept(e, s, l) && InTime(e, s, l) && Diligent(e, s, ops, l)
    ensures Kept(e, Run(e, s, ops), TenureAfter(e, s, ops, l))
    decreases |ops|
  {
    hide Step, Enabled, Kept, InTime, DbInv, Heard, Ends;
    if ops != [] {
      RunHead(e, s, ops);
      StepKeepsTenure(e, s, ops[0], l);
      StepKeepsDb(e, s, ops[0]);
      DiligentNeverReaped(e, Step(e, s, ops[0]), ops[1..], Heard(e, s, ops[0], l));
    } else {
      RunOfNothing(e, s);
    }
  }

  // ---- lives of the server --------------------------------------------------------------

  lemma StepClock(e: Env, s: State, op: Op)
    ensures Step(e, s, op).pos >= s.pos
  {
    hide Lease, Finish, Reported, Retry, Lapsed, FormatEntry, IsMin, Score;
  }

  lemma {:induction false} ReaperKeepsTenure(e: Env, s: State, ops: seq<Op>, l: Tenure)
    requires ClockOk(e) && DbInv(e.cfg, s.db) && EnabledRun(e, s, ops) && ReaperOnly(ops)
    requires Kept(e, s, l) && InTime(e, s, l) && InTime(e, Run(e, s, ops), l)
    ensures Kept(e, Run(e, s, ops), l) && Run(e, s, ops).pos >= s.pos
  {
    hide Step, Enabled, Kept, DbInv;
    if ops != [] {
      var front, op := ops[..|ops| - 1], ops[|ops| - 1];
      RunLast(e, s, ops);
      var mid := Run(e, s, front);
      StepClock(e, mid, op);
      assert mid.pos > 0 ==> e.tick(mid.pos - 1) <= e.tick(Run(e, s, ops).pos - 1);
      ReaperKeepsTenure(e, s, front, l);
      RunKeepsDb(e, s, front);
      assert !IsRequest(op);
      StepKeepsTenure(e, mid, op, l);
    }
  }

  function HeardEvent(e: Env, s: State, ev: Event, l: Tenure): Tenure {
    if ev.Request? then Heard(e, s, ev.op, l) else l
  }

  ghost predicate DiligentLife(e: Env, s: State, evs: seq<Event>, l: Tenure)
    decreases |evs|
  {
    evs == []
    || (var s', l' := EventStep(e, s, evs[0]), HeardEvent(e, s, evs[0], l);
        !(evs[0].Request? && Ends(evs[0].op, l)) && InTime(e, s', l') && DiligentLife(e, s', evs[1..], l'))
  }

  lemma EventKeepsTenure(e: Env, s: State, ev: Event, l: Tenure)
    requires ClockOk(e) && DbInv(e.cfg, s.db) && EventOk(e, s, ev)
    requires Kept(e, s, l) && InTime(e, s, l) && InTime(e, EventStep(e, s, ev), HeardEvent(e, s, ev, l))
    requires !(ev.Request? && Ends(ev.op, l))
    ensures Kept(e, EventStep(e, s, ev), HeardEvent(e, s, ev, l))
  {
    hide Step, TickStep, TickSelected, Kept, InTime, DbInv, Heard, Ends;
    match ev
    case Request(op) =>
      RequestEnabled(e, s, op);
      StepKeepsTenure(e, s, op, l);
    case Reaper(t) =>
      var ops := TickIsRun(e, s, t);
      ReaperKeepsTenure(e, s, ops, l);
  }

  lemma LifeHead(e: Env, s: State, evs: seq<Event>)
    requires evs != []
    ensures Life(e, s, evs) == Life(e, EventStep(e, s, evs[0]), evs[1..])
    ensures LifeOk(e, s, evs) ==> EventOk(e, s, evs[0]) && LifeOk(e, EventStep(e, s, evs[0]), evs[1..])
  {
    hide EventStep, EventOk;
    LifeShift(e, s, evs);
    if LifeOk(e, s, evs) {
      assert evs[..0] == [];
      assert EventOk(e, Life(e, s, evs[..0]), evs[0]);
      var rest := evs[1..];
      forall i | 0 <= i < |rest|
        ensures EventOk(e, Life(e, EventStep(e, s, evs[0]), rest[..i]), rest[i])
      {
        assert EventOk(e, Life(e, s, evs[..i + 1]), evs[i + 1]);
        LifeShift(e, s, evs[..i + 1]);
        assert evs[..i + 1][1..] == rest[..i];
      }
    }
  }

  lemma {:induction false} LifeShift(e: Env, s: State, evs: seq<Event>)
    requires evs != []
    ensures Life(e, s, evs) == Life(e, EventStep(e, s, evs[0]), evs[1..])
  {
    hide EventStep;
    var n := |evs| - 1;
    if n == 0 {
      assert evs[..0] == [] && evs[1..] == [];
    } else {
      LifeShift(e, s, evs[..n]);
      assert evs[..n][1..] == evs[1..][..n - 1];
    }
  }

  /** The same over lives of the server, ticks of the reaper included: no tick
      ever reaps the attempt of a worker whose renewals and heartbeats keep pace. */
  lemma {:induction false} DiligentHolderKeepsLease(e: Env, s: State, evs: seq<Event>, l: Tenure)
    requires ClockOk(e) && DbInv(e.cfg, s.db) && LifeOk(e, s, evs)
    requires Kept(e, s, l) && InTime(e, s, l) && DiligentLife(e, s, evs, l)
    ensures HeldBy(Life(e, s, evs).db, l.id, l.worker) && HoldsLease(Life(e, s, evs).db, l.id, l.token)
    decreases |evs|
  {
    if evs != [] {
      hide EventStep, EventOk, DbInv, Kept, InTime, Ends, HeardEvent;
      LifeHead(e, s, evs);
      EventKeepsTenure(e, s, evs[0], l);
      SameTenure(e, s, evs[0], l);
      LifeKeepsDb(e, s, [evs[0]]) by { OneEvent(e, s, evs[0]); }
      OneEvent(e, s, evs[0]);
      DiligentHolderKeepsLease(e, EventStep(e, s, evs[0]), evs[1..], HeardEvent(e, s, evs[0], l));
    }
  }

  lemma SameTenure(e: Env, s: State, ev: Event, l: Tenure)
    ensures var l' := HeardEvent(e, s, ev, l); l'.id == l.id && l'.worker == l.worker && l'.token == l.token
  {
  }

  lemma OneEvent(e: Env, s: State, ev: Event)
    ensures Life(e, s, [ev]) == EventStep(e, s, ev)
    ensures EventOk(e, s, ev) ==> LifeOk(e, s, [ev])
  {
    hide EventStep, EventOk;
    assert [ev][..0] == [];
    assert Life(e, s, [ev][..0]) == s;
  }
}
