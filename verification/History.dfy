/** The tables as accounts of what happened: every column of every row, in every
    state that a run from the empty server reaches, is what the actions of that
    run say it is, with the clock readings they took. Runs may lose, forge or
    repeat Redis entries. */
module History {
  import opened Options
  import opened SortedSet
  import opened QueueScore
  import opened Records
  import opened JobLife
  import opened Protocol
  import opened Database

  /** What an action can do to one row of the attempts table. */
  datatype Happening =
    | Inserted(retryAt: Option<real>)
    | HandedOut(worker: string, token: string, until: real, at: real)
    | Prolonged(until: real)
    | CutOff(at: real)
    | Noted(text: string)
    | ReportStored(report: Report, at: real)
    | TimedOut(at: real)

  // ---- when it happens -----------------------------------------------------------------

  /** The attempt is LEASED or RUNNING under this very token. */
  predicate MayWrite(db: Db, id: AttemptId, token: string) {
    && id.job in db.jobs && id.row < |db.jobs[id.job].attempts|
    && var a := db.jobs[id.job].attempts[id.row];
       a.token == Some(token) && (a.status == Leased || a.status == Running)
  }

  /** Besides, its lease has not run out at the reading taken. */
  predicate ReportCounts(e: Env, s: State, id: AttemptId, token: string) {
    && MayWrite(s.db, id, token)
    && var a := s.db.jobs[id.job].attempts[id.row];
       a.expires.Some? && a.expires.value >= e.tick(s.pos)
  }

  /** The worker is ONLINE and pops the job, whose last attempt waits. */
  ghost predicate HandsOut(s: State, worker: string, id: AttemptId) {
    && worker in s.db.workers && s.db.workers[worker].status == Online
    && IsMin(s.redis.queue, id.job)
    && id.job in s.db.jobs && s.db.jobs[id.job].status == JobQueued
    && id.row + 1 == |s.db.jobs[id.job].attempts|
  }

  /** A report that the run may be repeated for. */
  predicate AsksForRetry(report: Report) {
    report.exitCode != 0 && !report.permanent
  }

  /** What the action does to the row, with the readings it takes for it. */
  ghost function Happened(e: Env, s: State, op: Op, id: AttemptId): Option<Happening> {
    match op
    case Create(j, p, ok) =>
      if id == AttemptId(j, 0) && ok && j !in s.db.jobs && -0x8000_0000 <= p < 0x8000_0000
      then Some(Inserted(None)) else None
    case Claim(w, token) =>
      if HandsOut(s, w, id)
      then Some(HandedOut(w, token, e.tick(s.pos) + e.cfg.jobLeaseSeconds, e.tick(s.pos + 1))) else None
    case Renew(i, token) =>
      if i == id && MayWrite(s.db, i, token) then Some(Prolonged(e.tick(s.pos) + e.cfg.jobLeaseSeconds)) else None
    case AppendLog(i, token, text) => if i == id && MayWrite(s.db, i, token) then Some(Noted(text)) else None
    case AppendTail(i, token, text) =>
      if i == id && i.job in s.db.jobs && i.row < |s.db.jobs[i.job].attempts|
         && s.db.jobs[i.job].attempts[i.row].token == Some(token)
      then Some(Noted(text)) else None
    case CompleteAttempt(i, token, report) =>
      if !ReportCounts(e, s, i, token) then None
      else if i == id then Some(ReportStored(report, e.tick(s.pos + 1)))
      else if Follows(e, i, id) && AsksForRetry(report)
      then Some(Inserted(Some(e.tick(s.pos + 2) + BackoffSeconds(e.cfg, id.row)))) else None
    case ExpireLease(i, _) => if i == id then Some(CutOff(e.tick(s.pos))) else None
    case ReapOne(i, _) =>
      if i == id then Some(TimedOut(e.tick(s.pos)))
      else if Follows(e, i, id)
      then Some(Inserted(Some(e.tick(s.pos + 1) + BackoffSeconds(e.cfg, id.row)))) else None
    case _ => None
  }

  /** The next attempt of the same job, within the budget. */
  predicate Follows(e: Env, failed: AttemptId, next: AttemptId) {
    next.job == failed.job && next.row == failed.row + 1 && next.row < e.cfg.maxJobAttempts
  }

  // ---- what it writes --------------------------------------------------------------------

  function Blank(row: nat, retryAt: Option<real>): Attempt {
    Attempt(number := row + 1, status := Leased, worker := None, token := None, expires := None,
            started := None, finished := None, exitCode := None, failedStep := None,
            permanent := false, logs := "", nextRetry := retryAt)
  }

  function OutcomeOf(report: Report): AttemptStatus {
    if report.exitCode == 0 then Succeeded else if report.permanent then Failed else InfraError
  }

  /** The columns that each happening writes; it leaves the others alone. */
  function Written(a: Attempt, x: Happening): Attempt {
    match x
    case Inserted(_) => a
    case HandedOut(w, token, until, at) =>
      a.(worker := Some(w), status := Leased, token := Some(token), expires := Some(until), started := Some(at))
    case Prolonged(until) => a.(expires := Some(until), status := Running)
    case CutOff(at) => a.(expires := Some(at))
    case Noted(text) => a.(logs := a.logs + text)
    case ReportStored(r, at) =>
      a.(status := OutcomeOf(r), finished := Some(at), exitCode := Some(r.exitCode),
         failedStep := r.failedStep, permanent := r.permanent)
    case TimedOut(at) => a.(status := InfraError, finished := Some(at), failedStep := Some("lease_expired"))
  }

  /** The row after a move of its job. */
  ghost predicate Wrote(job: Job, job': Job, row: nat, x: Option<Happening>) {
    match x
    case None =>
      && (row < |job.attempts| <==> row < |job'.attempts|)
      && (row < |job.attempts| ==> job'.attempts[row] == job.attempts[row])
    case Some(Inserted(retryAt)) =>
      |job.attempts| <= row < |job'.attempts| && job'.attempts[row] == Blank(row, retryAt)
    case Some(y) =>
      && row < |job.attempts| && row < |job'.attempts|
      && job'.attempts[row] == Written(job.attempts[row], y)
      && (y.ReportStored? || y.TimedOut? ==>
            var a := job.attempts[row];
            a.exitCode == None && a.failedStep == None && !a.permanent)
  }

  /** What a move of a job does to one of its rows. */
  function MoveHappening(cfg: Settings, job: Job, m: Move, row: nat): Option<Happening>
    requires job.attempts != []
  {
    var last := |job.attempts| - 1;
    match m
    case Stay => None
    case Note(r, text) => if r == row then Some(Noted(text)) else None
    case Grant(w, token, t1, t2) =>
      if row == last then Some(HandedOut(w, token, t1 + cfg.jobLeaseSeconds, t2)) else None
    case Extend(at) => if row == last then Some(Prolonged(at + cfg.jobLeaseSeconds)) else None
    case Cut(at) => if row == last then Some(CutOff(at)) else None
    case Settle(report, t1, t2) =>
      if row == last then Some(ReportStored(report, t1))
      else if row == last + 1 && row < cfg.maxJobAttempts && AsksForRetry(report)
      then Some(Inserted(Some(t2 + BackoffSeconds(cfg, row)))) else None
    case Lapse(t1, t2) =>
      if row == last then Some(TimedOut(t1))
      else if row == last + 1 && row < cfg.maxJobAttempts
      then Some(Inserted(Some(t2 + BackoffSeconds(cfg, row)))) else None
  }

  lemma MoveWrites(cfg: Settings, job: Job, m: Move, row: nat)
    requires JobInv(cfg, job) && MoveOk(job, m)
    ensures Wrote(job, JobNext(cfg, job, m), row, MoveHappening(cfg, job, m, row))
  {
    hide BackoffSeconds;
    assert Last(job).number == |job.attempts| && OutcomeAgrees(Last(job));
    hide Shape, OutcomeAgrees, Latest, LastAgrees, Budget;
    if m.Grant? {
      LatestIsLast(cfg, job);
    } else if m.Settle? {
      EndingWrites(cfg, job, m, row);
    } else if m.Lapse? {
      EndingWrites(cfg, job, m, row);
    }
  }

  lemma EndingWrites(cfg: Settings, job: Job, m: Move, row: nat)
    requires MoveOk(job, m) && (m.Settle? || m.Lapse?)
    requires Last(job).number == |job.attempts| && OutcomeAgrees(Last(job)) && Active(Last(job))
    ensures Wrote(job, JobNext(cfg, job, m), row, MoveHappening(cfg, job, m, row))
  {
    hide BackoffSeconds;
  }

  /** What the action does to a row is what its job's move does to it. */
  lemma MoveHappens(e: Env, s: State, op: Op, id: AttemptId)
    requires DbInv(e.cfg, s.db) && Enabled(e, s, op) && id.job in s.db.jobs
    requires s.db.jobs[id.job].attempts != []
    ensures Happened(e, s, op, id) ==
            MoveHappening(e.cfg, s.db.jobs[id.job], MoveOf(e, s, op, id.job), id.row)
  {
    hide BackoffSeconds, LexLeq, Shape, LastAgrees, DbInv;
    var job := s.db.jobs[id.job];
    assert JobInv(e.cfg, job) by { JobOk(e.cfg, s.db, id.job); }
    match op {
      case Renew(i, _) =>
        if HoldsLease(s.db, i, op.token) && i.job == id.job { ActiveIsLast(e.cfg, job, i.row); }
      case CompleteAttempt(i, _, _) =>
        if HoldsLease(s.db, i, op.token) && i.job == id.job { ActiveIsLast(e.cfg, job, i.row); }
      case ExpireLease(i, _) =>
        if i.job == id.job { ActiveIsLast(e.cfg, job, i.row); }
      case ReapOne(i, _) =>
        if i.job == id.job { ActiveIsLast(e.cfg, job, i.row); }
      case Claim(w, _) =>
        if s.redis.queue != map[] && IsMin(s.redis.queue, id.job) {
          MinUnique(s.redis.queue, id.job, Popped(s));
        }
      case _ =>
    }
  }

  lemma JobOk(cfg: Settings, db: Db, job: string)
    requires DbInv(cfg, db) && job in db.jobs
    ensures JobInv(cfg, db.jobs[job]) && db.jobs[job].attempts != []
  {
  }

  /** Each action writes exactly the columns of its happening to each row. */
  lemma StepWrites(e: Env, s: State, op: Op, id: AttemptId)
    requires DbInv(e.cfg, s.db) && Enabled(e, s, op)
    ensures var s' := Step(e, s, op);
            match Happened(e, s, op, id)
            case None => (HasRow(s'.db, id) <==> HasRow(s.db, id))
                         && (HasRow(s.db, id) ==> TheRow(s'.db, id) == TheRow(s.db, id))
            case Some(Inserted(retryAt)) =>
              !HasRow(s.db, id) && HasRow(s'.db, id) && TheRow(s'.db, id) == Blank(id.row, retryAt)
            case Some(x) =>
              && HasRow(s.db, id) && HasRow(s'.db, id) && TheRow(s'.db, id) == Written(TheRow(s.db, id), x)
              && (x.ReportStored? || x.TimedOut? ==>
                    var a := TheRow(s.db, id);
                    a.exitCode == None && a.failedStep == None && !a.permanent)
  {
    if id.job in s.db.jobs {
      JobOk(e.cfg, s.db, id.job);
      hide Step, JobInv, DbInv, JobNext, Happened, MoveHappening, Enabled, MoveOf, Written, Blank;
      StepMoves(e, s, op, id.job);
      MoveHappens(e, s, op, id);
      MoveWrites(e.cfg, s.db.jobs[id.job], MoveOf(e, s, op, id.job), id.row);
    } else {
      NewRow(e, s, op, id);
    }
  }

  lemma NewRow(e: Env, s: State, op: Op, id: AttemptId)
    requires DbInv(e.cfg, s.db) && Enabled(e, s, op) && id.job !in s.db.jobs
    ensures var s' := Step(e, s, op);
            match Happened(e, s, op, id)
            case None => !HasRow(s'.db, id)
            case Some(x) => x == Inserted(None) && HasRow(s'.db, id) && TheRow(s'.db, id) == Blank(id.row, None)
  {
    hide BackoffSeconds, LexLeq, IsMin, Score;
    if id.job in Step(e, s, op).db.jobs {
      StepCreates(e, s, op, id.job);
    }
  }

  // ---- the account of a row --------------------------------------------------------------

  /** Everything that happened to the row over the run, in order. */
  ghost function HistoryOf(e: Env, s: State, ops: seq<Op>, id: AttemptId): seq<Happening> {
    if ops == [] then []
    else
      var front := ops[..|ops| - 1];
      HistoryOf(e, s, front, id)
      + match Happened(e, Run(e, s, front), ops[|ops| - 1], id)
        case None => []
        case Some(x) => [x]
  }

  datatype Column = Birth | Owner | Expiry | Status | Outcome

  predicate Writes(x: Happening, c: Column) {
    match c
    case Birth => x.Inserted?
    case Owner => x.HandedOut?
    case Expiry => x.HandedOut? || x.Prolonged? || x.CutOff?
    case Status => x.HandedOut? || x.Prolonged? || x.ReportStored? || x.TimedOut?
    case Outcome => x.ReportStored? || x.TimedOut?
  }

  /** The last happening that wrote the column. */
  function LastWrite(h: seq<Happening>, c: Column): (x: Option<Happening>)
    ensures x.Some? ==> x.value in h && Writes(x.value, c)
  {
    if h == [] then None
    else if Writes(h[|h| - 1], c) then Some(h[|h| - 1])
    else LastWrite(h[..|h| - 1], c)
  }

  function NotesOf(h: seq<Happening>): string {
    if h == [] then ""
    else NotesOf(h[..|h| - 1]) + (if h[|h| - 1].Noted? then h[|h| - 1].text else "")
  }

  function StatusBy(x: Option<Happening>): AttemptStatus {
    match x
    case Some(Prolonged(_)) => Running
    case Some(ReportStored(r, _)) => OutcomeOf(r)
    case Some(TimedOut(_)) => InfraError
    case _ => Leased
  }

  function ExpiryBy(x: Option<Happening>): Option<real> {
    match x
    case Some(HandedOut(_, _, until, _)) => Some(until)
    case Some(Prolonged(until)) => Some(until)
    case Some(CutOff(at)) => Some(at)
    case _ => None
  }

  /** The row as its history tells it, column by column. */
  function Told(row: nat, h: seq<Happening>): Attempt {
    var birth, owner, end := LastWrite(h, Birth), LastWrite(h, Owner), LastWrite(h, Outcome);
    var stored := if end.Some? && end.value.ReportStored? then Some(end.value.report) else None;
    Attempt(
      number := row + 1,
      status := StatusBy(LastWrite(h, Status)),
      worker := if owner.Some? then Some(owner.value.worker) else None,
      token := if owner.Some? then Some(owner.value.token) else None,
      expires := ExpiryBy(LastWrite(h, Expiry)),
      started := if owner.Some? then Some(owner.value.at) else None,
      finished := if end.Some? then Some(end.value.at) else None,
      exitCode := if stored.Some? then Some(stored.value.exitCode) else None,
      failedStep :=
        if stored.Some? then stored.value.failedStep else if end.Some? then Some("lease_expired") else None,
      permanent := stored.Some? && stored.value.permanent,
      logs := NotesOf(h),
      nextRetry := if birth.Some? then birth.value.retryAt else None)
  }

  lemma ToldMore(row: nat, h: seq<Happening>, x: Happening)
    requires !x.Inserted?
    requires x.ReportStored? || x.TimedOut? ==>
               var a := Told(row, h);
               a.exitCode == None && a.failedStep == None && !a.permanent
    ensures Told(row, h + [x]) == Written(Told(row, h), x)
  {
    assert (h + [x])[..|h|] == h;
  }

  lemma ToldFirst(row: nat, x: Happening)
    requires x.Inserted?
    ensures Told(row, [x]) == Blank(row, x.retryAt)
  {
    assert [x][..0] == [];
    assert LastWrite([x], Birth) == Some(x) && NotesOf([x]) == "" + "";
    forall c: Column | c != Birth
      ensures LastWrite([x], c) == None
    {
      assert LastWrite([x][..0], c) == None;
    }
  }

  /** The attempts table is the account of the run: a row exists exactly if it has
      a history, and each of its columns is what the last happening to write that
      column wrote, with the readings it took; the log is all texts in order. */
  lemma {:induction false} RowsTellHistory(e: Env, ops: seq<Op>, id: AttemptId)
    requires EnabledRun(e, InitialState(), ops)
    ensures var s, h := Run(e, InitialState(), ops), HistoryOf(e, InitialState(), ops, id);
            && (HasRow(s.db, id) <==> h != [])
            && (HasRow(s.db, id) ==> TheRow(s.db, id) == Told(id.row, h))
  {
    hide Step, Enabled, Happened, Told, Written, Blank;
    if ops != [] {
      var front, op := ops[..|ops| - 1], ops[|ops| - 1];
      RunLast(e, InitialState(), ops);
      RowsTellHistory(e, front, id);
      RunKeepsDb(e, InitialState(), front);
      var mid, h := Run(e, InitialState(), front), HistoryOf(e, InitialState(), front, id);
      StepWrites(e, mid, op, id);
      match Happened(e, mid, op, id)
      case None => assert h + [] == h;
      case Some(x) =>
        if x.Inserted? {
          assert h + [x] == [x];
          ToldFirst(id.row, x);
        } else {
          ToldMore(id.row, h, x);
        }
    }
  }

  /** Whatever is in a history happened at some action of the run. */
  lemma {:induction false} HistoryMember(e: Env, s: State, ops: seq<Op>, id: AttemptId, x: Happening)
      returns (i: nat)
    requires x in HistoryOf(e, s, ops, id)
    ensures i < |ops| && Happened(e, Run(e, s, ops[..i]), ops[i], id) == Some(x)
  {
    hide Happened;
    var n := |ops| - 1;
    if Happened(e, Run(e, s, ops[..n]), ops[n], id) == Some(x) {
      i := n;
    } else {
      i := HistoryMember(e, s, ops[..n], id, x);
      assert ops[..n][..i] == ops[..i];
    }
  }

  // ---- reading an account ------------------------------------------------------------------

  lemma HandedOutBy(e: Env, s: State, op: Op, id: AttemptId, x: Happening)
    requires Happened(e, s, op, id) == Some(x) && x.HandedOut?
    ensures op.Claim? && HandsOut(s, op.worker, id)
    ensures x.worker == op.worker && x.token == op.token && x.at == e.tick(s.pos + 1)
  {
  }

  lemma ReportStoredBy(e: Env, s: State, op: Op, id: AttemptId, x: Happening)
    requires Happened(e, s, op, id) == Some(x) && x.ReportStored?
    ensures op.CompleteAttempt? && op.id == id && ReportCounts(e, s, id, op.token)
    ensures x.report == op.report && x.at == e.tick(s.pos + 1)
  {
  }

  lemma ToldOwner(row: nat, h: seq<Happening>)
    requires var a := Told(row, h); a.worker.Some? || a.token.Some? || a.started.Some?
    ensures var x := LastWrite(h, Owner);
            && x.Some? && x.value.HandedOut? && x.value in h
            && Told(row, h).worker == Some(x.value.worker) && Told(row, h).token == Some(x.value.token)
            && Told(row, h).started == Some(x.value.at)
  {
  }

  lemma ToldEnd(row: nat, h: seq<Happening>)
    requires Told(row, h).finished.Some?
    ensures var x := LastWrite(h, Outcome);
            && x.Some? && x.value in h && (x.value.ReportStored? || x.value.TimedOut?)
            && Told(row, h).finished == Some(x.value.at)
  {
  }

  lemma ToldReport(row: nat, h: seq<Happening>)
    requires Told(row, h).exitCode.Some?
    ensures var x := LastWrite(h, Outcome);
            && x.Some? && x.value in h && x.value.ReportStored?
            && Told(row, h).exitCode == Some(x.value.report.exitCode)
            && Told(row, h).failedStep == x.value.report.failedStep
            && Told(row, h).permanent == x.value.report.permanent
            && Told(row, h).finished == Some(x.value.at)
  {
  }
}
