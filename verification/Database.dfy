/** Safety of the system of record under arbitrary Redis contents: every
    statement here holds of runs that include `RedisFault`, an action that
    replaces the live queue and the delayed set by anything at all. Losing
    entries in a crash between a commit and a Redis call, duplicates, stale and
    early entries are special cases. */
module Database {
  import opened DelayedEntry
  import opened SortedSet
  import opened QueueScore
  import opened Records
  import opened JobLife
  import opened Protocol

  predicate DbInv(cfg: Settings, db: Db) {
    forall j :: j in db.jobs ==> JobInv(cfg, db.jobs[j])
  }

  /** The move that an action makes on one job. */
  ghost function MoveOf(e: Env, s: State, op: Op, job: string): Move {
    match op
    case Claim(w, token) =>
      if Pops(s, w) && Popped(s) == job && job in s.db.jobs && s.db.jobs[job].status == JobQueued
      then Grant(w, token, e.tick(s.pos), e.tick(s.pos + 1)) else Stay
    case Renew(id, token) =>
      if id.job == job && HoldsLease(s.db, id, token) then Extend(Now(e, s)) else Stay
    case AppendLog(id, token, text) =>
      if id.job == job && HoldsLease(s.db, id, token) then Note(id.row, text) else Stay
    case AppendTail(id, token, text) =>
      if id.job == job && OwnsRow(s.db, id, token) then Note(id.row, text) else Stay
    case CompleteAttempt(id, token, report) =>
      if id.job == job && Accepts(e, s, id, token)
      then Settle(report, e.tick(s.pos + 1), e.tick(s.pos + 2)) else Stay
    case ExpireLease(id, _) => if id.job == job then Cut(Now(e, s)) else Stay
    case ReapOne(id, _) => if id.job == job then Lapse(Now(e, s), e.tick(s.pos + 1)) else Stay
    case _ => Stay
  }

  /** The job took the move, as far as the database tells. */
  ghost predicate Moved(cfg: Settings, db: Db, db': Db, job: string, m: Move)
    requires job in db.jobs
  {
    job in db'.jobs && MoveOk(db.jobs[job], m) && db'.jobs[job] == JobNext(cfg, db.jobs[job], m)
  }

  lemma StayMoves(cfg: Settings, db: Db, db': Db, job: string)
    requires DbInv(cfg, db) && job in db.jobs && job in db'.jobs && db'.jobs[job] == db.jobs[job]
    ensures Moved(cfg, db, db', job, Stay)
  {
    assert JobInv(cfg, db.jobs[job]);
  }

  lemma ClaimMoves(e: Env, s: State, worker: string, token: string, job: string)
    requires DbInv(e.cfg, s.db) && job in s.db.jobs
    ensures Moved(e.cfg, s.db, ClaimStep(e, s, worker, token).db, job, MoveOf(e, s, Claim(worker, token), job))
  {
    assert JobInv(e.cfg, s.db.jobs[job]);
    hide Lease, IsMin;
  }

  lemma RenewMoves(e: Env, s: State, id: AttemptId, token: string, job: string)
    requires DbInv(e.cfg, s.db) && job in s.db.jobs
    ensures Moved(e.cfg, s.db, RenewStep(e, s, id, token).db, job, MoveOf(e, s, Renew(id, token), job))
  {
    assert JobInv(e.cfg, s.db.jobs[job]);
    hide Shape, LastAgrees, DbInv;
    NonEmpty(e.cfg, s.db.jobs[job]);
    if id.job == job && HoldsLease(s.db, id, token) {
      ActiveIsLast(e.cfg, s.db.jobs[job], id.row);
    }
  }

  lemma AppendMoves(cfg: Settings, s: State, id: AttemptId, text: string, admitted: bool, job: string)
    requires DbInv(cfg, s.db) && job in s.db.jobs && (admitted ==> HasRow(s.db, id))
    ensures Moved(cfg, s.db, AppendStep(s, id, text, admitted).db, job,
                  if id.job == job && admitted then Note(id.row, text) else Stay)
  {
    assert JobInv(cfg, s.db.jobs[job]);
  }

  lemma CompletionMoves(e: Env, s: State, id: AttemptId, token: string, report: Report, job: string)
    requires DbInv(e.cfg, s.db) && job in s.db.jobs
    ensures Moved(e.cfg, s.db, CompleteStep(e, s, id, token, report).db, job,
                  MoveOf(e, s, CompleteAttempt(id, token, report), job))
  {
    assert JobInv(e.cfg, s.db.jobs[job]);
    hide BackoffSeconds, FormatEntry, Retry, Reported;
    if id.job == job && Accepts(e, s, id, token) {
      ActiveIsLast(e.cfg, s.db.jobs[job], id.row);
    }
  }

  lemma ExpireMoves(e: Env, s: State, id: AttemptId, holder: string, job: string)
    requires DbInv(e.cfg, s.db) && job in s.db.jobs && HeldBy(s.db, id, holder)
    ensures Moved(e.cfg, s.db, ExpireStep(e, s, id).db, job, MoveOf(e, s, ExpireLease(id, holder), job))
  {
    assert JobInv(e.cfg, s.db.jobs[job]);
    hide Shape, LastAgrees, DbInv;
    NonEmpty(e.cfg, s.db.jobs[job]);
    if id.job == job {
      ActiveIsLast(e.cfg, s.db.jobs[job], id.row);
    }
  }

  lemma ReapMoves(e: Env, s: State, id: AttemptId, seen: nat, job: string)
    requires DbInv(e.cfg, s.db) && job in s.db.jobs && LeaseExpired(s.db, id, e.tick(seen))
    ensures Moved(e.cfg, s.db, ReapStep(e, s, id).db, job, MoveOf(e, s, ReapOne(id, seen), job))
  {
    assert JobInv(e.cfg, s.db.jobs[job]);
    hide BackoffSeconds, FormatEntry, Retry, Lapsed;
    if id.job == job {
      ActiveIsLast(e.cfg, s.db.jobs[job], id.row);
    }
  }

  /** Every action moves every job by at most one move of its life. */
  lemma StepMoves(e: Env, s: State, op: Op, job: string)
    requires DbInv(e.cfg, s.db) && Enabled(e, s, op) && job in s.db.jobs
    ensures Moved(e.cfg, s.db, Step(e, s, op).db, job, MoveOf(e, s, op, job))
  {
    hide ClaimStep, RenewStep, AppendStep, CompleteStep, ExpireStep, ReapStep, Score, ParseEntry, Moved, DbInv, JobNext;
    match op
    case Claim(w, token) => ClaimMoves(e, s, w, token, job);
    case Renew(id, token) => RenewMoves(e, s, id, token, job);
    case AppendLog(id, token, text) => AppendMoves(e.cfg, s, id, text, HoldsLease(s.db, id, token), job);
    case AppendTail(id, token, text) => AppendMoves(e.cfg, s, id, text, OwnsRow(s.db, id, token), job);
    case CompleteAttempt(id, token, report) => CompletionMoves(e, s, id, token, report, job);
    case ExpireLease(id, w) => ExpireMoves(e, s, id, w, job);
    case ReapOne(id, seen) => ReapMoves(e, s, id, seen, job);
    case _ => StayMoves(e.cfg, s.db, Step(e, s, op).db, job);
  }

  /** A job that an action brings into being is a fresh one. */
  lemma StepCreates(e: Env, s: State, op: Op, job: string)
    requires DbInv(e.cfg, s.db) && Enabled(e, s, op)
    requires job !in s.db.jobs && job in Step(e, s, op).db.jobs
    ensures op.Create? && op.job == job && Step(e, s, op).db.jobs[job] == NewJob(op.priority)
  {
  }

  lemma StepKeepsDb(e: Env, s: State, op: Op)
    requires DbInv(e.cfg, s.db) && Enabled(e, s, op)
    ensures DbInv(e.cfg, Step(e, s, op).db)
  {
    var db' := Step(e, s, op).db;
    forall j | j in db'.jobs
      ensures JobInv(e.cfg, db'.jobs[j])
    {
      if j in s.db.jobs {
        StepMoves(e, s, op, j);
        MoveKeepsInv(e.cfg, s.db.jobs[j], MoveOf(e, s, op, j));
      } else {
        StepCreates(e, s, op, j);
      }
    }
  }

  lemma {:induction false} RunKeepsDb(e: Env, s: State, ops: seq<Op>)
    requires DbInv(e.cfg, s.db) && EnabledRun(e, s, ops)
    ensures DbInv(e.cfg, Run(e, s, ops).db)
  {
    if ops != [] {
      RunLast(e, s, ops);
      RunKeepsDb(e, s, ops[..|ops| - 1]);
      StepKeepsDb(e, Run(e, s, ops[..|ops| - 1]), ops[|ops| - 1]);
    }
  }
}
