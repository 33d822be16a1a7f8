/** The server as a state machine. Every `now()` takes the next reading of the
    clock oracle `tick`; an `Op` is one action on the stores, and a sweep of the
    reaper is a clock reading followed by one `Op` per row it selected. */
module Protocol {
  import opened Options
  import opened DelayedEntry
  import opened SortedSet
  import opened QueueScore
  import opened Records

  datatype Env = Env(cfg: Settings, tick: nat -> real, rnd: real -> real)

  datatype Redis = Redis(queue: ZSet, delayed: ZSet)

  /** `pos` counts the clock readings taken so far. */
  datatype State = State(db: Db, redis: Redis, pos: nat)

  /** The server before its first request. */
  function InitialState(): State {
    State(Db(map[], map[]), Redis(map[], map[]), 0)
  }

  ghost predicate ClockOk(e: Env) {
    forall i: nat, k: nat :: i <= k ==> 0.0 <= e.tick(i) <= e.tick(k)
  }

  datatype Op =
    | ReadClock
    | Register(worker: string)
    | Heartbeat(worker: string)
    | Create(job: string, priority: int, pipelineValid: bool)
    | Claim(worker: string, token: string)
    | Renew(id: AttemptId, token: string)
    | AppendLog(id: AttemptId, token: string, text: string)
    | AppendTail(id: AttemptId, token: string, text: string)
    | CompleteAttempt(id: AttemptId, token: string, report: Report)
    | MarkDead(worker: string, seen: nat)
    | ExpireLease(id: AttemptId, holder: string)
    | ReapOne(id: AttemptId, seen: nat)
    | PromoteOne(entry: string, seen: nat)
    | RequeueOrphan(job: string)
    | RedisFault(queue: ZSet, delayed: ZSet)

  // ---- rows -----------------------------------------------------------------

  predicate HasRow(db: Db, id: AttemptId) {
    id.job in db.jobs && id.row < |db.jobs[id.job].attempts|
  }

  function TheRow(db: Db, id: AttemptId): Attempt
    requires HasRow(db, id)
  {
    db.jobs[id.job].attempts[id.row]
  }

  function PutJob(db: Db, job: string, row: Job): Db {
    db.(jobs := db.jobs[job := row])
  }

  function PutRow(db: Db, id: AttemptId, a: Attempt): Db
    requires HasRow(db, id)
  {
    PutJob(db, id.job, SetRow(db.jobs[id.job], id.row, a))
  }

  function PutWorker(db: Db, worker: string, row: Worker): Db {
    db.(workers := db.workers[worker := row])
  }

  /** The guard shared by log writes, renewal and completion. */
  predicate OwnsRow(db: Db, id: AttemptId, token: string) {
    HasRow(db, id) && TheRow(db, id).token == Some(token)
  }

  predicate HoldsLease(db: Db, id: AttemptId, token: string) {
    OwnsRow(db, id, token) && Active(TheRow(db, id))
  }

  // ---- the actions ----------------------------------------------------------

  function Now(e: Env, s: State): real {
    e.tick(s.pos)
  }

  function Enqueued(e: Env, s: State, job: string, priority: int): State {
    s.(redis := s.redis.(queue := s.redis.queue[job := Score(e.rnd, priority, Now(e, s))]), pos := s.pos + 1)
  }

  function RegisterStep(e: Env, s: State, worker: string): State {
    if worker in s.db.workers then s
    else s.(db := PutWorker(s.db, worker, Worker(Online, Now(e, s))), pos := s.pos + 1)
  }

  function HeartbeatStep(e: Env, s: State, worker: string): State {
    if worker !in s.db.workers then s
    else
      var status := if s.db.workers[worker].status == Dead then Online else s.db.workers[worker].status;
      s.(db := PutWorker(s.db, worker, Worker(status, Now(e, s))), pos := s.pos + 1)
  }

  /** A row the database refuses (a repeated id, a priority outside its
      Integer column) or an invalid pipeline changes nothing. */
  predicate Creatable(db: Db, job: string, priority: int, pipelineValid: bool) {
    pipelineValid && job !in db.jobs && PriorityInRange(priority)
  }

  function CreateStep(e: Env, s: State, job: string, priority: int, pipelineValid: bool): State {
    if !Creatable(s.db, job, priority, pipelineValid) then s
    else Enqueued(e, s.(db := PutJob(s.db, job, NewJob(priority))), job, priority)
  }

  ghost predicate Pops(s: State, worker: string) {
    && worker in s.db.workers && s.db.workers[worker].status == Online
    && s.redis.queue != map[]
  }

  ghost function Popped(s: State): (job: string)
    requires s.redis.queue != map[]
    ensures IsMin(s.redis.queue, job)
  {
    MinMember(s.redis.queue)
  }

  ghost function ClaimStep(e: Env, s: State, worker: string, token: string): State {
    if !Pops(s, worker) then s
    else
      var job := Popped(s);
      var s1 := s.(redis := s.redis.(queue := s.redis.queue - {job}));
      if job !in s.db.jobs || s.db.jobs[job].status != JobQueued then s1
      else
        var leased := Lease(e.cfg, s.db.jobs[job], worker, token, e.tick(s.pos), e.tick(s.pos + 1));
        s1.(db := PutJob(s.db, job, leased), pos := s.pos + 2)
  }

  /** `renew_lease` alone: the expiry of the old lease is not looked at. */
  function RenewLease(e: Env, s: State, id: AttemptId, token: string): State {
    if !HoldsLease(s.db, id, token) then s
    else
      var a := TheRow(s.db, id).(expires := Some(Now(e, s) + e.cfg.jobLeaseSeconds));
      s.(db := PutRow(s.db, id, a), pos := s.pos + 1)
  }

  /** `mark_running` alone: only the token is looked at. */
  function MarkRunning(s: State, id: AttemptId, token: string): State {
    if !OwnsRow(s.db, id, token) then s
    else s.(db := PutRow(s.db, id, TheRow(s.db, id).(status := Running)))
  }

  /** The handler of /renew: the second half runs only if the first succeeded. */
  function RenewStep(e: Env, s: State, id: AttemptId, token: string): State {
    if !HoldsLease(s.db, id, token) then s
    else MarkRunning(RenewLease(e, s, id, token), id, token)
  }

  function AppendStep(s: State, id: AttemptId, text: string, admitted: bool): State
    requires admitted ==> HasRow(s.db, id)
  {
    if !admitted then s
    else s.(db := PutRow(s.db, id, TheRow(s.db, id).(logs := TheRow(s.db, id).logs + text)))
  }

  /** Does a completion report get past every guard? */
  predicate Accepts(e: Env, s: State, id: AttemptId, token: string) {
    && HoldsLease(s.db, id, token)
    && TheRow(s.db, id).expires.Some?
    && !(TheRow(s.db, id).expires.value < Now(e, s))
  }

  /** `_maybe_retry`: `job` is the job with its failed row already marked. */
  function AfterFailure(e: Env, s: State, id: AttemptId, job: Job): State
    requires id.row < |job.attempts|
  {
    var a := job.attempts[id.row];
    var saved := s.(db := PutJob(s.db, id.job, Retry(e.cfg, job, id.row, Now(e, s))));
    if !RetryLeft(e.cfg, a) then saved
    else
      var entry := FormatEntry(id.job, job.priority);
      saved.(redis := s.redis.(delayed := s.redis.delayed[entry := ReadyAt(e.cfg, a, Now(e, s))]), pos := s.pos + 1)
  }

  function CompleteStep(e: Env, s: State, id: AttemptId, token: string, report: Report): State {
    if !HoldsLease(s.db, id, token) || TheRow(s.db, id).expires.None? then s
    else if !Accepts(e, s, id, token) then s.(pos := s.pos + 1)
    else
      var done := Reported(s.db.jobs[id.job], id.row, report, e.tick(s.pos + 1));
      var s1 := s.(pos := s.pos + 2);
      if InfraReport(report) then AfterFailure(e, s1, id, done)
      else s1.(db := PutJob(s.db, id.job, done))
  }

  function ReapStep(e: Env, s: State, id: AttemptId): State {
    if !HasRow(s.db, id) then s
    else AfterFailure(e, s.(pos := s.pos + 1), id, Lapsed(s.db.jobs[id.job], id.row, Now(e, s)))
  }

  function PromoteStep(e: Env, s: State, entry: string): State {
    match ParseEntry(entry)
    case None => s
    case Some((job, priority)) =>
      var s1 := Enqueued(e, s, job, priority);
      s1.(redis := s1.redis.(delayed := s1.redis.delayed - {entry}))
  }

  function MarkDeadStep(s: State, worker: string): State {
    if worker !in s.db.workers then s
    else s.(db := PutWorker(s.db, worker, s.db.workers[worker].(status := Dead)))
  }

  function ExpireStep(e: Env, s: State, id: AttemptId): State {
    if !HasRow(s.db, id) then s
    else s.(db := PutRow(s.db, id, TheRow(s.db, id).(expires := Some(Now(e, s)))), pos := s.pos + 1)
  }

  function RequeueStep(e: Env, s: State, job: string): State {
    if job !in s.db.jobs then s else Enqueued(e, s, job, s.db.jobs[job].priority)
  }

  ghost function Step(e: Env, s: State, op: Op): State {
    match op
    case ReadClock => s.(pos := s.pos + 1)
    case Register(w) => RegisterStep(e, s, w)
    case Heartbeat(w) => HeartbeatStep(e, s, w)
    case Create(j, p, ok) => CreateStep(e, s, j, p, ok)
    case Claim(w, token) => ClaimStep(e, s, w, token)
    case Renew(id, token) => RenewStep(e, s, id, token)
    case AppendLog(id, token, text) => AppendStep(s, id, text, HoldsLease(s.db, id, token))
    case AppendTail(id, token, text) => AppendStep(s, id, text, OwnsRow(s.db, id, token))
    case CompleteAttempt(id, token, report) => CompleteStep(e, s, id, token, report)
    case MarkDead(w, _) => MarkDeadStep(s, w)
    case ExpireLease(id, _) => ExpireStep(e, s, id)
    case ReapOne(id, _) => ReapStep(e, s, id)
    case PromoteOne(entry, _) => PromoteStep(e, s, entry)
    case RequeueOrphan(j) => RequeueStep(e, s, j)
    case RedisFault(queue, delayed) => s.(redis := Redis(queue, delayed))
  }

  // ---- what the sweeps select ------------------------------------------------

  /** `last_heartbeat_at < now() - worker_dead_after_seconds`. */
  predicate Stale(e: Env, db: Db, worker: string, t: real) {
    && worker in db.workers && db.workers[worker].status == Online
    && db.workers[worker].lastHeartbeat < t - e.cfg.workerDeadAfterSeconds
  }

  predicate HeldBy(db: Db, id: AttemptId, worker: string) {
    HasRow(db, id) && Active(TheRow(db, id)) && TheRow(db, id).worker == Some(worker)
  }

  /** A NULL expiry satisfies no comparison. */
  predicate LeaseExpired(db: Db, id: AttemptId, t: real) {
    && HasRow(db, id) && Active(TheRow(db, id))
    && TheRow(db, id).expires.Some? && TheRow(db, id).expires.value < t
  }

  predicate Orphaned(db: Db, job: string) {
    && job in db.jobs && db.jobs[job].status == JobQueued
    && forall i :: 0 <= i < |db.jobs[job].attempts| ==> !Active(db.jobs[job].attempts[i])
  }

  function AllRows(db: Db): set<AttemptId> {
    set j, r | j in db.jobs && 0 <= r < |db.jobs[j].attempts| :: AttemptId(j, r)
  }

  function StaleWorkers(e: Env, db: Db, t: real): set<string> {
    set w | w in db.workers && Stale(e, db, w, t)
  }

  function RowsHeldBy(db: Db, worker: string): set<AttemptId> {
    set id | id in AllRows(db) && HeldBy(db, id, worker)
  }

  function ExpiredRows(db: Db, t: real): set<AttemptId> {
    set id | id in AllRows(db) && LeaseExpired(db, id, t)
  }

  function QueuedJobs(db: Db): set<string> {
    set j | j in db.jobs && db.jobs[j].status == JobQueued
  }

  /** Expiring leases changes no row's status, owner or existence. */
  ghost predicate SameOwners(db: Db, db': Db) {
    forall id: AttemptId ::
      && (HasRow(db, id) <==> HasRow(db', id))
      && (HasRow(db, id) ==>
            TheRow(db', id).status == TheRow(db, id).status && TheRow(db', id).worker == TheRow(db, id).worker)
  }

  lemma SameOwnersSameRows(db: Db, db': Db, worker: string)
    requires SameOwners(db, db')
    ensures RowsHeldBy(db, worker) == RowsHeldBy(db', worker)
  {
    forall id: AttemptId
      ensures id in RowsHeldBy(db, worker) <==> id in RowsHeldBy(db', worker)
    {
      assert HasRow(db, id) <==> HasRow(db', id);
    }
  }

  /** When an action may occur: the conditions under which a sweep selects a
      row, relative to some clock reading already taken. Requests always may. */
  predicate Enabled(e: Env, s: State, op: Op) {
    match op
    case MarkDead(w, seen) => seen < s.pos && Stale(e, s.db, w, e.tick(seen))
    case ExpireLease(id, w) => HeldBy(s.db, id, w) && w in s.db.workers && s.db.workers[w].status == Dead
    case ReapOne(id, seen) => seen < s.pos && LeaseExpired(s.db, id, e.tick(seen))
    case PromoteOne(entry, seen) =>
      && seen < s.pos && entry in s.redis.delayed
      && 0.0 <= s.redis.delayed[entry] <= e.tick(seen)
      && WellFormed(entry)
    case RequeueOrphan(j) => Orphaned(s.db, j)
    case _ => true
  }

  // ---- runs -----------------------------------------------------------------

  ghost function Run(e: Env, s: State, ops: seq<Op>): State {
    if ops == [] then s
    else Step(e, Run(e, s, ops[..|ops| - 1]), ops[|ops| - 1])
  }

  ghost predicate EnabledRun(e: Env, s: State, ops: seq<Op>) {
    forall i :: 0 <= i < |ops| ==> Enabled(e, Run(e, s, ops[..i]), ops[i])
  }

  predicate Faultless(ops: seq<Op>) {
    forall i :: 0 <= i < |ops| ==> !ops[i].RedisFault?
  }

  lemma RunFirst(e: Env, s: State, op: Op)
    ensures Run(e, s, [op]) == Step(e, s, op)
  {
    assert [op][..0] == [];
    assert Run(e, s, [op][..0]) == s;
  }

  lemma RunSnoc(e: Env, s: State, ops: seq<Op>, op: Op)
    ensures Run(e, s, ops + [op]) == Step(e, Run(e, s, ops), op)
    ensures EnabledRun(e, s, ops) && Enabled(e, Run(e, s, ops), op) ==> EnabledRun(e, s, ops + [op])
  {
    hide Step, Enabled;
    assert (ops + [op])[..|ops|] == ops;
    forall i | 0 <= i < |ops|
      ensures (ops + [op])[..i] == ops[..i]
    {
    }
  }

  lemma {:induction false} RunConcat(e: Env, s: State, a: seq<Op>, b: seq<Op>)
    ensures Run(e, s, a + b) == Run(e, Run(e, s, a), b)
  {
    if b == [] {
      assert a + b == a;
    } else {
      var n := |b| - 1;
      RunConcat(e, s, a, b[..n]);
      assert (a + b)[..|a + b| - 1] == a + b[..n];
    }
  }

  lemma EnabledConcat(e: Env, s: State, a: seq<Op>, b: seq<Op>)
    requires EnabledRun(e, s, a) && EnabledRun(e, Run(e, s, a), b)
    ensures EnabledRun(e, s, a + b)
  {
    forall i | 0 <= i < |a + b|
      ensures Enabled(e, Run(e, s, (a + b)[..i]), (a + b)[i])
    {
      if i < |a| {
        assert (a + b)[..i] == a[..i];
      } else {
        assert (a + b)[..i] == a + b[..i - |a|];
        RunConcat(e, s, a, b[..i - |a|]);
      }
    }
  }

  lemma EnabledSplit(e: Env, s: State, a: seq<Op>, b: seq<Op>)
    requires EnabledRun(e, s, a + b)
    ensures EnabledRun(e, s, a) && EnabledRun(e, Run(e, s, a), b)
  {
    forall i | 0 <= i < |a|
      ensures Enabled(e, Run(e, s, a[..i]), a[i])
    {
      assert (a + b)[..i] == a[..i];
      assert (a + b)[i] == a[i];
    }
    forall i | 0 <= i < |b|
      ensures Enabled(e, Run(e, Run(e, s, a), b[..i]), b[i])
    {
      assert (a + b)[..|a| + i] == a + b[..i];
      assert (a + b)[|a| + i] == b[i];
      RunConcat(e, s, a, b[..i]);
    }
  }

  /** A run read from its first action. */
  lemma RunHead(e: Env, s: State, ops: seq<Op>)
    requires ops != []
    ensures Run(e, s, ops) == Run(e, Step(e, s, ops[0]), ops[1..])
    ensures EnabledRun(e, s, ops) ==> Enabled(e, s, ops[0]) && EnabledRun(e, Step(e, s, ops[0]), ops[1..])
  {
    assert ops == ops[..1] + ops[1..];
    assert Run(e, s, ops[..1]) == Step(e, Run(e, s, ops[..1][..0]), ops[0]);
    RunConcat(e, s, ops[..1], ops[1..]);
    if EnabledRun(e, s, ops) {
      EnabledSplit(e, s, ops[..1], ops[1..]);
      assert ops[..0] == [];
    }
  }

  /** A run read from its last action. */
  lemma RunLast(e: Env, s: State, ops: seq<Op>)
    requires ops != []
    ensures Run(e, s, ops) == Step(e, Run(e, s, ops[..|ops| - 1]), ops[|ops| - 1])
    ensures EnabledRun(e, s, ops) ==>
              EnabledRun(e, s, ops[..|ops| - 1]) && Enabled(e, Run(e, s, ops[..|ops| - 1]), ops[|ops| - 1])
  {
    var n := |ops| - 1;
    assert ops == ops[..n] + ops[n..];
    if EnabledRun(e, s, ops) {
      EnabledSplit(e, s, ops[..n], ops[n..]);
    }
  }

  /** A run cut at two of its positions. */
  lemma RunBetween(e: Env, s: State, ops: seq<Op>, i: nat, k: nat)
    requires i <= k <= |ops| && EnabledRun(e, s, ops)
    ensures EnabledRun(e, s, ops[..i]) && EnabledRun(e, Run(e, s, ops[..i]), ops[i..k])
    ensures Run(e, s, ops[..k]) == Run(e, Run(e, s, ops[..i]), ops[i..k])
  {
    assert ops == ops[..k] + ops[k..] && ops[..k] == ops[..i] + ops[i..k];
    EnabledSplit(e, s, ops[..k], ops[k..]);
    EnabledSplit(e, s, ops[..i], ops[i..k]);
    RunConcat(e, s, ops[..i], ops[i..k]);
  }

  /** A run at one of its actions. */
  lemma RunAt(e: Env, s: State, ops: seq<Op>, i: nat)
    requires i < |ops| && EnabledRun(e, s, ops)
    ensures Run(e, s, ops[..i + 1]) == Step(e, Run(e, s, ops[..i]), ops[i])
    ensures Enabled(e, Run(e, s, ops[..i]), ops[i])
  {
    assert ops[..i + 1][..i] == ops[..i];
  }

  /** The handler of /complete: an optional log tail, then the report. */
  function CompleteOps(id: AttemptId, token: string, report: Report, tail: Option<string>): seq<Op> {
    (if tail.Some? && tail.value != "" then [AppendTail(id, token, tail.value)] else [])
    + [CompleteAttempt(id, token, report)]
  }

  // ---- the sweeps as runs -----------------------------------------------------

  /** One stale worker with the rows it holds, in the order queried. */
  datatype Casualty = Casualty(worker: string, rows: seq<AttemptId>)

  function ExpireOps(rows: seq<AttemptId>, holder: string): seq<Op> {
    seq(|rows|, i requires 0 <= i < |rows| => ExpireLease(rows[i], holder))
  }

  function BuryOps(plan: seq<Casualty>, seen: nat): seq<Op> {
    if plan == [] then []
    else
      var last := plan[|plan| - 1];
      BuryOps(plan[..|plan| - 1], seen) + [MarkDead(last.worker, seen)] + ExpireOps(last.rows, last.worker)
  }

  function ReapOps(rows: seq<AttemptId>, seen: nat): seq<Op> {
    seq(|rows|, i requires 0 <= i < |rows| => ReapOne(rows[i], seen))
  }

  /** `int(priority)` raises on a malformed entry, which ends the sweep there. */
  function WellFormedPrefix(entries: seq<string>): (n: nat)
    ensures n <= |entries|
    ensures forall i :: 0 <= i < n ==> WellFormed(entries[i])
    ensures n < |entries| ==> !WellFormed(entries[n])
  {
    if entries == [] || !WellFormed(entries[0]) then 0
    else
      var rest := entries[1..];
      assert forall i :: 1 <= i < |entries| ==> entries[i] == rest[i - 1];
      1 + WellFormedPrefix(rest)
  }

  function PromoteOps(entries: seq<string>, seen: nat): seq<Op> {
    seq(|entries|, i requires 0 <= i < |entries| => PromoteOne(entries[i], seen))
  }

  function OrphanOps(db: Db, jobs: seq<string>): seq<Op> {
    if jobs == [] then []
    else
      var n := |jobs| - 1;
      OrphanOps(db, jobs[..n]) + (if Orphaned(db, jobs[n]) then [RequeueOrphan(jobs[n])] else [])
  }

  ghost predicate IsPlan(e: Env, db: Db, t: real, plan: seq<Casualty>) {
    && Enumerates(seq(|plan|, i requires 0 <= i < |plan| => plan[i].worker), StaleWorkers(e, db, t))
    && forall i :: 0 <= i < |plan| ==> Enumerates(plan[i].rows, RowsHeldBy(db, plan[i].worker))
  }

  /** One call of a reaper sweep, with the order its queries returned rows in. */
  datatype Sweep =
    | ReapDeadWorkers(plan: seq<Casualty>)
    | ReapExpiredLeases(rows: seq<AttemptId>)
    | PromoteDelayedJobs(entries: seq<string>)
    | ReconcileOrphanedJobs(jobs: seq<string>)

  ghost predicate Selected(e: Env, s: State, sweep: Sweep) {
    match sweep
    case ReapDeadWorkers(plan) => IsPlan(e, s.db, Now(e, s), plan)
    case ReapExpiredLeases(rows) => Enumerates(rows, ExpiredRows(s.db, Now(e, s)))
    case PromoteDelayedJobs(entries) => IsRange(s.redis.delayed, 0.0, Now(e, s), entries)
    case ReconcileOrphanedJobs(jobs) => Enumerates(jobs, QueuedJobs(s.db))
  }

  function SweepOps(s: State, sweep: Sweep): seq<Op> {
    match sweep
    case ReapDeadWorkers(plan) => [ReadClock] + BuryOps(plan, s.pos)
    case ReapExpiredLeases(rows) => [ReadClock] + ReapOps(rows, s.pos)
    case PromoteDelayedJobs(entries) => [ReadClock] + PromoteOps(entries[..WellFormedPrefix(entries)], s.pos)
    case ReconcileOrphanedJobs(jobs) => OrphanOps(s.db, jobs)
  }

  ghost function SweepStep(e: Env, s: State, sweep: Sweep): State {
    Run(e, s, SweepOps(s, sweep))
  }

  // ---- one reaper tick ---------------------------------------------------------

  datatype Tick = Tick(plan: seq<Casualty>, rows: seq<AttemptId>, entries: seq<string>, jobs: seq<string>)

  ghost function AfterBury(e: Env, s: State, t: Tick): State {
    SweepStep(e, s, ReapDeadWorkers(t.plan))
  }

  ghost function AfterReap(e: Env, s: State, t: Tick): State {
    SweepStep(e, AfterBury(e, s, t), ReapExpiredLeases(t.rows))
  }

  ghost function AfterPromote(e: Env, s: State, t: Tick): State {
    SweepStep(e, AfterReap(e, s, t), PromoteDelayedJobs(t.entries))
  }

  predicate PromoteRaises(t: Tick) {
    WellFormedPrefix(t.entries) < |t.entries|
  }

  ghost function TickStep(e: Env, s: State, t: Tick): State {
    if PromoteRaises(t) then AfterPromote(e, s, t)
    else SweepStep(e, AfterPromote(e, s, t), ReconcileOrphanedJobs(t.jobs))
  }

  ghost predicate TickSelected(e: Env, s: State, t: Tick) {
    && Selected(e, s, ReapDeadWorkers(t.plan))
    && Selected(e, AfterBury(e, s, t), ReapExpiredLeases(t.rows))
    && Selected(e, AfterReap(e, s, t), PromoteDelayedJobs(t.entries))
    && (!PromoteRaises(t) ==> Selected(e, AfterPromote(e, s, t), ReconcileOrphanedJobs(t.jobs)))
  }
}
