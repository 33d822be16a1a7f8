/** Who did what and when, over runs from the empty server: which action granted
    an attempt, which report ended it, what became of a worker, and where a job
    comes from. */
module Accounts {
  import opened Options
  import opened DelayedEntry
  import opened SortedSet
  import opened QueueScore
  import opened Records
  import opened JobLife
  import opened Protocol
  import opened Database
  import opened Guarantees
  import opened Tidy
  import opened History

  // ---- one claim, one report ------------------------------------------------------------

  /** A claim that pops a waiting job hands out its last attempt: five columns are
      written, every other row of every job stays as it was. */
  lemma ClaimWrites(e: Env, s: State, w: string, token: string, id: AttemptId)
    requires DbInv(e.cfg, s.db) && HandsOut(s, w, id)
    ensures var s' := Step(e, s, Claim(w, token));
            && HasRow(s'.db, id) && s'.db.jobs[id.job].status == JobRunning
            && TheRow(s'.db, id) ==
               TheRow(s.db, id).(
                 worker := Some(w), status := Leased, token := Some(token),
                 expires := Some(e.tick(s.pos) + e.cfg.jobLeaseSeconds), started := Some(e.tick(s.pos + 1)))
            && s'.redis == s.redis.(queue := s.redis.queue - {id.job}) && s'.db.workers == s.db.workers
            && forall other :: other != id ==>
                 (HasRow(s'.db, other) <==> HasRow(s.db, other))
                 && (HasRow(s.db, other) ==> TheRow(s'.db, other) == TheRow(s.db, other))
  {
    var op := Claim(w, token);
    StepWrites(e, s, op, id);
    MinUnique(s.redis.queue, id.job, Popped(s));
    forall other | other != id
      ensures HasRow(Step(e, s, op).db, other) <==> HasRow(s.db, other)
      ensures HasRow(s.db, other) ==> TheRow(Step(e, s, op).db, other) == TheRow(s.db, other)
    {
      OneHandOut(s, w, id, other);
      StepWrites(e, s, op, other);
    }
    ClaimedStatus(e, s, w, token, id.job);
    hide IsMin, Latest;
  }

  /** A job without any attempt, which no run produces, is given its first. */
  lemma ClaimOfBareJob(e: Env, s: State, w: string, token: string, job: string)
    requires w in s.db.workers && s.db.workers[w].status == Online && IsMin(s.redis.queue, job)
    requires job in s.db.jobs && s.db.jobs[job].status == JobQueued && s.db.jobs[job].attempts == []
    ensures var s' := Step(e, s, Claim(w, token));
            && s'.db.workers == s.db.workers && s'.redis == s.redis.(queue := s.redis.queue - {job})
            && s'.db.jobs == s.db.jobs[job :=
                 Job(JobRunning, s.db.jobs[job].priority, [
                   Blank(0, None).(
                     worker := Some(w), token := Some(token), expires := Some(e.tick(s.pos) + e.cfg.jobLeaseSeconds),
                     started := Some(e.tick(s.pos + 1)))])]
  {
    MinUnique(s.redis.queue, job, Popped(s));
    hide IsMin;
    var first := NewAttempt(1, None);
    assert forall a: Attempt {:trigger [first][0 := a]} :: [first][0 := a] == [a];
    assert first == Blank(0, None);
  }

  lemma OneHandOut(s: State, w: string, id: AttemptId, other: AttemptId)
    requires HandsOut(s, w, id) && other != id
    ensures !HandsOut(s, w, other)
  {
    if HandsOut(s, w, other) {
      MinUnique(s.redis.queue, id.job, other.job);
    }
  }

  lemma ClaimedStatus(e: Env, s: State, w: string, token: string, job: string)
    requires DbInv(e.cfg, s.db) && job in s.db.jobs && s.db.jobs[job].status == JobQueued
    requires Pops(s, w) && Popped(s) == job
    ensures var s' := Step(e, s, Claim(w, token));
            job in s'.db.jobs && s'.db.jobs[job].status == JobRunning
  {
  }

  /** The guards of a completion report, in terms of the row and the clock. */
  lemma AcceptsIff(e: Env, s: State, id: AttemptId, token: string)
    ensures Accepts(e, s, id, token) <==> ReportCounts(e, s, id, token)
  {
  }

  /** An accepted report writes five columns of its row and no other column of any
      row that exists. A rejected one changes nothing but the clock. */
  lemma ReportWrites(e: Env, s: State, id: AttemptId, token: string, report: Report)
    requires DbInv(e.cfg, s.db)
    ensures var s' := Step(e, s, CompleteAttempt(id, token, report));
            if ReportCounts(e, s, id, token) then
              && HasRow(s'.db, id)
              && TheRow(s'.db, id) ==
                 TheRow(s.db, id).(
                   status := OutcomeOf(report), finished := Some(e.tick(s.pos + 1)),
                   exitCode := Some(report.exitCode), failedStep := report.failedStep, permanent := report.permanent)
              && forall other :: other != id && HasRow(s.db, other) ==>
                   HasRow(s'.db, other) && TheRow(s'.db, other) == TheRow(s.db, other)
            else s'.db == s.db && s'.redis == s.redis
  {
    var op := CompleteAttempt(id, token, report);
    AcceptsIff(e, s, id, token);
    hide Step, DbInv, ReportCounts, Accepts, Happened;
    if ReportCounts(e, s, id, token) {
      CountedHappens(e, s, id, token, report);
      StepWrites(e, s, op, id);
      forall other | other != id && HasRow(s.db, other)
        ensures HasRow(Step(e, s, op).db, other) && TheRow(Step(e, s, op).db, other) == TheRow(s.db, other)
      {
        StepWrites(e, s, op, other);
        OthersReported(e, s, op, other);
      }
    } else {
      RejectedSame(e, s, id, token, report);
    }
  }

  lemma CountedHappens(e: Env, s: State, id: AttemptId, token: string, report: Report)
    requires ReportCounts(e, s, id, token)
    ensures Happened(e, s, CompleteAttempt(id, token, report), id) == Some(ReportStored(report, e.tick(s.pos + 1)))
  {
  }

  lemma OthersReported(e: Env, s: State, op: Op, other: AttemptId)
    requires op.CompleteAttempt? && op.id != other
    ensures var x := Happened(e, s, op, other); x.Some? ==> x.value.Inserted?
  {
    hide BackoffSeconds;
  }

  lemma RejectedSame(e: Env, s: State, id: AttemptId, token: string, report: Report)
    requires !Accepts(e, s, id, token)
    ensures var s' := Step(e, s, CompleteAttempt(id, token, report)); s'.db == s.db && s'.redis == s.redis
  {
  }

  // ---- the action behind a column ------------------------------------------------------

  /** An attempt that has an owner was handed out by one claim of the run, whose
      worker, token and second clock reading it still bears. */
  lemma GrantIsKept(e: Env, ops: seq<Op>, id: AttemptId) returns (i: nat)
    requires EnabledRun(e, InitialState(), ops) && HasRow(Run(e, InitialState(), ops).db, id)
    requires var a := TheRow(Run(e, InitialState(), ops).db, id);
             a.worker.Some? || a.token.Some? || a.started.Some?
    ensures i < |ops| && ops[i].Claim? && HandsOut(Run(e, InitialState(), ops[..i]), ops[i].worker, id)
    ensures var a := TheRow(Run(e, InitialState(), ops).db, id);
            && a.worker == Some(ops[i].worker) && a.token == Some(ops[i].token)
            && a.started == Some(e.tick(Run(e, InitialState(), ops[..i]).pos + 1))
  {
    hide Run, EnabledRun, HistoryOf, Happened, Told, LastWrite, HandsOut;
    RowsTellHistory(e, ops, id);
    var h := HistoryOf(e, InitialState(), ops, id);
    ToldOwner(id.row, h);
    var x := LastWrite(h, Owner).value;
    i := HistoryMember(e, InitialState(), ops, id, x);
    HandedOutBy(e, Run(e, InitialState(), ops[..i]), ops[i], id, x);
  }

  /** An attempt with an exit code carries the five columns of the one report that
      the run accepted on it. */
  lemma ReportIsKept(e: Env, ops: seq<Op>, id: AttemptId) returns (i: nat)
    requires EnabledRun(e, InitialState(), ops) && HasRow(Run(e, InitialState(), ops).db, id)
    requires TheRow(Run(e, InitialState(), ops).db, id).exitCode.Some?
    ensures i < |ops| && ReportOn(e, ops, i, id)
    ensures forall k :: 0 <= k < |ops| && ReportOn(e, ops, k, id) ==> k == i
    ensures var a, r := TheRow(Run(e, InitialState(), ops).db, id), ops[i].report;
            && a.status == OutcomeOf(r) && a.exitCode == Some(r.exitCode) && a.failedStep == r.failedStep
            && a.permanent == r.permanent
            && a.finished == Some(e.tick(Run(e, InitialState(), ops[..i]).pos + 1))
  {
    hide Run, EnabledRun, HistoryOf, Happened, Told, LastWrite, ReportCounts;
    RowsTellHistory(e, ops, id);
    var h := HistoryOf(e, InitialState(), ops, id);
    RunKeepsDb(e, InitialState(), ops);
    RowAgrees(e.cfg, Run(e, InitialState(), ops).db, id);
    hide DbInv;
    ToldReport(id.row, h);
    var x := LastWrite(h, Outcome).value;
    i := HistoryMember(e, InitialState(), ops, id, x);
    ReportStoredBy(e, Run(e, InitialState(), ops[..i]), ops[i], id, x);
    forall k | 0 <= k < |ops| && ReportOn(e, ops, k, id)
      ensures k == i
    {
      if k < i {
        ReportedOnce(e, ops, k, i, id);
      } else if i < k {
        ReportedOnce(e, ops, i, k, id);
      }
    }
  }

  /** The run's action at this position is a report accepted on the attempt. */
  ghost predicate ReportOn(e: Env, ops: seq<Op>, i: nat, id: AttemptId)
    requires i < |ops|
  {
    && ops[i].CompleteAttempt? && ops[i].id == id
    && ReportCounts(e, Run(e, InitialState(), ops[..i]), id, ops[i].token)
  }

  lemma RowAgrees(cfg: Settings, db: Db, id: AttemptId)
    requires DbInv(cfg, db) && HasRow(db, id)
    ensures OutcomeAgrees(TheRow(db, id))
  {
    assert JobInv(cfg, db.jobs[id.job]);
  }

  lemma ReportedOnce(e: Env, ops: seq<Op>, i: nat, k: nat, id: AttemptId)
    requires EnabledRun(e, InitialState(), ops) && i < k < |ops|
    requires ReportOn(e, ops, i, id)
    ensures !ReportOn(e, ops, k, id)
  {
    var start := InitialState();
    RunBetween(e, start, ops, i, i);
    RunAt(e, start, ops, i);
    RunBetween(e, start, ops, i + 1, k);
    hide Run, Step, EnabledRun;
    var mid := Run(e, start, ops[..i]);
    RunKeepsDb(e, start, ops[..i]);
    RunKeepsDb(e, start, ops[..i + 1]);
    ReportEnds(e, mid, ops[i], id);
    OneOutcome(e, Run(e, start, ops[..i + 1]), ops[i + 1..k], id);
  }

  lemma ReportEnds(e: Env, s: State, op: Op, id: AttemptId)
    requires DbInv(e.cfg, s.db) && op.CompleteAttempt? && op.id == id && ReportCounts(e, s, id, op.token)
    ensures Terminal(Step(e, s, op).db, id)
  {
    hide Step, DbInv;
    ReportWrites(e, s, id, op.token, op.report);
  }

  /** Backoff between actions: in a fault-free run, the claim that started an
      attempt other than the first took its reading no earlier than the reading
      with which a report or the reaper had ended the attempt before, plus its
      backoff. */
  lemma BackoffBetweenActions(e: Env, ops: seq<Op>, id: AttemptId) returns (end: nat, start: nat)
    requires ClockOk(e) && EnabledRun(e, InitialState(), ops) && Faultless(ops)
    requires HasRow(Run(e, InitialState(), ops).db, id) && id.row > 0
    requires TheRow(Run(e, InitialState(), ops).db, id).started.Some?
    ensures end < |ops| && start < |ops| && ops[start].Claim?
    ensures HandsOut(Run(e, InitialState(), ops[..start]), ops[start].worker, id)
    ensures var ended := Happened(e, Run(e, InitialState(), ops[..end]), ops[end], AttemptId(id.job, id.row - 1));
            && ended.Some? && (ended.value.ReportStored? || ended.value.TimedOut?)
            && e.tick(Run(e, InitialState(), ops[..start]).pos + 1) >= ended.value.at + BackoffSeconds(e.cfg, id.row)
  {
    hide Run, EnabledRun, HistoryOf, BackoffSeconds, Happened, Told, LastWrite, HandsOut;
    var before := AttemptId(id.job, id.row - 1);
    BackoffIsHonoured(e, ops, id.job, id.row);
    start := GrantIsKept(e, ops, id);
    RowsTellHistory(e, ops, before);
    var h := HistoryOf(e, InitialState(), ops, before);
    ToldEnd(before.row, h);
    end := HistoryMember(e, InitialState(), ops, before, LastWrite(h, Outcome).value);
  }

  // ---- workers ---------------------------------------------------------------------------

  predicate Registered(ops: seq<Op>, w: string) {
    exists i :: 0 <= i < |ops| && ops[i] == Register(w)
  }

  /** The last of the worker's registration (the first one: an id is given once),
      its heartbeats since, and its declarations of death. */
  function LastWord(ops: seq<Op>, w: string): (i: Option<nat>)
    ensures i.Some? ==> i.value < |ops|
  {
    if ops == [] then None
    else
      var n := |ops| - 1;
      var front, op := ops[..n], ops[n];
      if if Registered(front, w) then op == Heartbeat(w) || (op.MarkDead? && op.worker == w) else op == Register(w)
      then Some(n) else LastWord(front, w)
  }

  /** The same without the declarations of death. */
  function LastSign(ops: seq<Op>, w: string): (i: Option<nat>)
    ensures i.Some? ==> i.value < |ops|
  {
    if ops == [] then None
    else
      var n := |ops| - 1;
      var front, op := ops[..n], ops[n];
      if if Registered(front, w) then op == Heartbeat(w) else op == Register(w)
      then Some(n) else LastSign(front, w)
  }

  /** The last word on the worker is a declaration of death. */
  predicate DeclaredDead(ops: seq<Op>, w: string) {
    var i := LastWord(ops, w);
    i.Some? && ops[i.value].MarkDead?
  }

  /** The clock reading that its last sign of life took. */
  ghost function LastBeat(e: Env, ops: seq<Op>, w: string): Option<real> {
    match LastSign(ops, w)
    case None => None
    case Some(i) => Some(e.tick(Run(e, InitialState(), ops[..i]).pos))
  }

  /** What an action does to the workers table. */
  lemma StepWorkers(e: Env, s: State, op: Op)
    ensures var workers, workers' := s.db.workers, Step(e, s, op).db.workers;
            match op
            case Register(w) =>
              workers' == if w in workers then workers else workers[w := Worker(Online, e.tick(s.pos))]
            case Heartbeat(w) =>
              if w in workers then
                workers' == workers[w := workers'[w]] && workers'[w].lastHeartbeat == e.tick(s.pos)
                && workers'[w].status == (if workers[w].status == Offline then Offline else Online)
              else workers' == workers
            case MarkDead(w, _) =>
              workers' == if w in workers then workers[w := Worker(Dead, workers[w].lastHeartbeat)] else workers
            case _ => workers' == workers
  {
    hide Lease, Reported, Retry, Lapsed, Score, IsMin, ParseEntry, FormatEntry, BackoffSeconds;
  }

  /** The same for one worker. */
  lemma StepWorker(e: Env, s: State, op: Op, w: string)
    ensures var workers, workers' := s.db.workers, Step(e, s, op).db.workers;
            && (w in workers' <==> w in workers || op == Register(w))
            && (w in workers' ==>
                  workers'[w] ==
                  if w !in workers then Worker(Online, e.tick(s.pos))
                  else if op == Heartbeat(w) then
                    Worker(if workers[w].status == Offline then Offline else Online, e.tick(s.pos))
                  else if op.MarkDead? && op.worker == w then Worker(Dead, workers[w].lastHeartbeat)
                  else workers[w])
  {
    StepWorkers(e, s, op);
    hide Step;
  }

  lemma MarkedWasOnline(e: Env, s: State, op: Op)
    requires op.MarkDead? && Enabled(e, s, op)
    ensures op.worker in s.db.workers
  {
  }

  /** A worker exists exactly if it was registered. It is DEAD if the last word on
      it is a declaration of death and ONLINE otherwise, a heartbeat reviving it;
      its heartbeat column is the reading of its last sign of life. */
  lemma {:induction false} WorkersTellHistory(e: Env, ops: seq<Op>, w: string)
    requires EnabledRun(e, InitialState(), ops)
    ensures var workers := Run(e, InitialState(), ops).db.workers;
            && (w in workers <==> Registered(ops, w))
            && (w in workers ==>
                  && workers[w].status == (if DeclaredDead(ops, w) then Dead else Online)
                  && LastBeat(e, ops, w) == Some(workers[w].lastHeartbeat))
  {
    if ops != [] {
      var front, op := ops[..|ops| - 1], ops[|ops| - 1];
      RunLast(e, InitialState(), ops);
      assert ops == front + [op];
      hide Step, Enabled, EnabledRun, Run, DeclaredDead, LastBeat, Registered;
      WorkersTellHistory(e, front, w);
      var mid := Run(e, InitialState(), front);
      StepWorker(e, mid, op, w);
      if op.MarkDead? {
        MarkedWasOnline(e, mid, op);
      }
      RegisteredMore(front, op, w);
      WordMore(front, op, w);
      BeatMore(e, front, op, w);
    }
  }

  /** The action is heard as the worker's: it registers the worker, or comes later. */
  predicate Heeds(front: seq<Op>, op: Op, w: string) {
    if Registered(front, w) then op == Heartbeat(w) else op == Register(w)
  }

  lemma WordMore(front: seq<Op>, op: Op, w: string)
    ensures DeclaredDead(front + [op], w) <==>
            if Heeds(front, op, w) then false
            else if Registered(front, w) && op.MarkDead? && op.worker == w then true
            else DeclaredDead(front, w)
  {
    hide Registered;
    assert (front + [op])[..|front|] == front;
  }

  lemma BeatMore(e: Env, front: seq<Op>, op: Op, w: string)
    ensures LastBeat(e, front + [op], w) ==
            if Heeds(front, op, w) then Some(e.tick(Run(e, InitialState(), front).pos)) else LastBeat(e, front, w)
  {
    hide Registered, Run;
    var ops := front + [op];
    assert ops[..|front|] == front;
    if LastSign(front, w).Some? {
      var i := LastSign(front, w).value;
      assert front[..i] == ops[..i];
    }
  }

  lemma RegisteredMore(front: seq<Op>, op: Op, w: string)
    ensures Registered(front + [op], w) <==> Registered(front, w) || op == Register(w)
  {
    var ops := front + [op];
    if i :| 0 <= i < |front| && front[i] == Register(w) {
      assert ops[i] == Register(w);
    }
    if op == Register(w) {
      assert ops[|front|] == Register(w);
    }
  }

  /** A claim takes the least entry off the live queue exactly if there is one, the
      worker is registered and the last word on it is not a declaration of death:
      after a heartbeat a worker that was DEAD is given work again. */
  lemma ClaimPopsIff(e: Env, ops: seq<Op>, w: string, token: string)
    requires EnabledRun(e, InitialState(), ops)
    ensures var s := Run(e, InitialState(), ops);
            var s' := Run(e, InitialState(), ops + [Claim(w, token)]);
            if s.redis.queue != map[] && Registered(ops, w) && !DeclaredDead(ops, w)
            then exists job :: IsMin(s.redis.queue, job) && s'.redis == s.redis.(queue := s.redis.queue - {job})
            else s' == s
  {
    WorkersTellHistory(e, ops, w);
    RunSnoc(e, InitialState(), ops, Claim(w, token));
    hide Run, EnabledRun, Lease, IsMin, LastBeat, DeclaredDead;
    var s := Run(e, InitialState(), ops);
    if s.redis.queue != map[] {
      PopIsMin(s);
    }
  }

  lemma PopIsMin(s: State)
    requires s.redis.queue != map[]
    ensures IsMin(s.redis.queue, Popped(s))
  {
  }

  // ---- jobs --------------------------------------------------------------------------------

  /** A submission with a valid pipeline and a priority that fits its column. */
  predicate Submits(op: Op, job: string) {
    op.Create? && op.job == job && op.pipelineValid && -0x8000_0000 <= op.priority < 0x8000_0000
  }

  /** A submission that is refused leaves the server as it was: an invalid
      pipeline, a priority out of range, or an id given before. */
  lemma RefusedCreate(e: Env, s: State, op: Op)
    requires op.Create? && (!Submits(op, op.job) || op.job in s.db.jobs)
    ensures Step(e, s, op) == s
  {
  }

  /** Any other stores a QUEUED job with one blank attempt, and scores it. */
  lemma AcceptedCreate(e: Env, s: State, op: Op)
    requires op.Create? && Submits(op, op.job) && op.job !in s.db.jobs
    ensures var s' := Step(e, s, op);
            && s'.db.workers == s.db.workers && s'.redis.delayed == s.redis.delayed && s'.pos == s.pos + 1
            && s'.db.jobs == s.db.jobs[op.job := Job(JobQueued, op.priority, [Blank(0, None)])]
            && s'.redis.queue.Keys == s.redis.queue.Keys + {op.job}
            && (forall j :: j in s.redis.queue && j != op.job ==> s'.redis.queue[j] == s.redis.queue[j])
            && (Exact(e.rnd) ==>
                  s'.redis.queue[op.job] == e.tick(s.pos) - op.priority as real * 10_000_000_000_000.0)
  {
  }

  lemma StepJobs(e: Env, s: State, op: Op, job: string)
    requires DbInv(e.cfg, s.db) && Enabled(e, s, op)
    ensures var jobs' := Step(e, s, op).db.jobs;
            && (job in jobs' <==> job in s.db.jobs || Submits(op, job))
            && (job in s.db.jobs ==> jobs'[job].priority == s.db.jobs[job].priority)
            && (job !in s.db.jobs && Submits(op, job) ==> jobs'[job].priority == op.priority)
  {
    if op.Create? && Submits(op, job) && job !in s.db.jobs {
      AcceptedCreate(e, s, op);
    } else {
      hide Step, Enabled;
      StepKeepsPriorities(e, s, op);
      if job in Step(e, s, op).db.jobs && job !in s.db.jobs {
        StepCreates(e, s, op, job);
        CreatedWasValid(e, s, op, job);
      }
    }
  }

  lemma CreatedWasValid(e: Env, s: State, op: Op, job: string)
    requires op.Create? && op.job == job && job !in s.db.jobs && job in Step(e, s, op).db.jobs
    ensures Submits(op, job)
  {
    if !Submits(op, op.job) {
      RefusedCreate(e, s, op);
    }
  }

  ghost predicate Submitted(ops: seq<Op>, job: string) {
    exists i :: 0 <= i < |ops| && Submits(ops[i], job)
  }

  /** The first submission of the job. */
  ghost predicate SubmittedFirst(ops: seq<Op>, job: string, i: nat) {
    i < |ops| && Submits(ops[i], job) && forall k :: 0 <= k < i ==> !Submits(ops[k], job)
  }

  lemma SubmittedMore(front: seq<Op>, op: Op, job: string)
    ensures Submitted(front + [op], job) <==> Submitted(front, job) || Submits(op, job)
    ensures forall i: nat :: SubmittedFirst(front + [op], job, i) <==>
              SubmittedFirst(front, job, i) || (i == |front| && Submits(op, job) && !Submitted(front, job))
  {
    hide Submits;
    var ops := front + [op];
    assert ops[|front|] == op && forall i :: 0 <= i < |front| ==> ops[i] == front[i];
    if Submitted(front, job) {
      var i :| 0 <= i < |front| && Submits(front[i], job);
      assert Submits(ops[i], job);
    }
    if Submits(op, job) {
      assert Submits(ops[|front|], job);
    }
  }

  /** A job exists exactly if the run submitted it with a valid pipeline and a
      priority that fits, and it keeps the priority of the first such submission. */
  lemma {:induction false} JobsTellHistory(e: Env, ops: seq<Op>, job: string)
    requires EnabledRun(e, InitialState(), ops)
    ensures var jobs := Run(e, InitialState(), ops).db.jobs;
            && (job in jobs <==> Submitted(ops, job))
            && forall i: nat :: SubmittedFirst(ops, job, i) ==>
                 job in jobs && jobs[job].priority == ops[i].priority
  {
    if ops != [] {
      var n := |ops| - 1;
      var front, op := ops[..n], ops[n];
      RunLast(e, InitialState(), ops);
      assert ops == front + [op];
      hide Step, Enabled, Submits, Run, EnabledRun, Submitted, SubmittedFirst;
      JobsTellHistory(e, front, job);
      RunKeepsDb(e, InitialState(), front);
      StepJobs(e, Run(e, InitialState(), front), op, job);
      SubmittedMore(front, op, job);
      forall i: nat | SubmittedFirst(ops, job, i)
        ensures job in Run(e, InitialState(), ops).db.jobs
        ensures i < |ops| && Run(e, InitialState(), ops).db.jobs[job].priority == ops[i].priority
      {
        FirstIsSubmission(ops, job, i);
        if SubmittedFirst(front, job, i) {
          FirstIsSubmission(front, job, i);
          assert front[i] == ops[i];
        }
      }
    }
  }

  lemma FirstIsSubmission(ops: seq<Op>, job: string, i: nat)
    requires SubmittedFirst(ops, job, i)
    ensures i < |ops| && Submits(ops[i], job) && Submitted(ops, job)
  {
  }

  // ---- the clock ---------------------------------------------------------------------------

  /** How often an action looks at the clock. */
  ghost function Readings(e: Env, s: State, op: Op): nat {
    match op
    case ReadClock => 1
    case Register(w) => if w in s.db.workers then 0 else 1
    case Heartbeat(w) => if w in s.db.workers then 1 else 0
    case Create(j, _, _) => if Submits(op, j) && j !in s.db.jobs then 1 else 0
    case Claim(w, _) => if exists id :: HandsOut(s, w, id) then 2 else 0
    case Renew(id, token) => if MayWrite(s.db, id, token) then 1 else 0
    case CompleteAttempt(id, token, report) =>
      if !MayWrite(s.db, id, token) || s.db.jobs[id.job].attempts[id.row].expires == None then 0
      else if !ReportCounts(e, s, id, token) then 1
      else if AsksForRetry(report) && s.db.jobs[id.job].attempts[id.row].number < e.cfg.maxJobAttempts then 3
      else 2
    case ExpireLease(id, _) => if HasRow(s.db, id) then 1 else 0
    case ReapOne(id, _) =>
      if !HasRow(s.db, id) then 0
      else if s.db.jobs[id.job].attempts[id.row].number < e.cfg.maxJobAttempts then 2 else 1
    case PromoteOne(entry, _) => if WellFormed(entry) then 1 else 0
    case RequeueOrphan(j) => if j in s.db.jobs then 1 else 0
    case _ => 0
  }

  lemma StepReadings(e: Env, s: State, op: Op)
    requires DbInv(e.cfg, s.db)
    ensures Step(e, s, op).pos == s.pos + Readings(e, s, op)
  {
    hide Score, IsMin, FormatEntry, ParseEntry, BackoffSeconds, Latest, LexLeq;
    if op.Claim? {
      ClaimReadings(e, s, op.worker, op.token);
    } else if op.PromoteOne? {
      PromoteReadings(e, s, op.entry, op.seen);
    }
  }

  lemma PromoteReadings(e: Env, s: State, entry: string, seen: nat)
    ensures Step(e, s, PromoteOne(entry, seen)).pos == s.pos + Readings(e, s, PromoteOne(entry, seen))
  {
    hide ParseEntry;
  }

  lemma ClaimReadings(e: Env, s: State, w: string, token: string)
    requires DbInv(e.cfg, s.db)
    ensures Step(e, s, Claim(w, token)).pos == s.pos + Readings(e, s, Claim(w, token))
  {
    hide Lease, LexLeq;
    if Pops(s, w) {
      PopIsMin(s);
      var job := Popped(s);
      if job in s.db.jobs && s.db.jobs[job].status == JobQueued {
        JobOk(e.cfg, s.db, job);
        assert HandsOut(s, w, AttemptId(job, |s.db.jobs[job].attempts| - 1));
      } else if id :| HandsOut(s, w, id) {
        MinUnique(s.redis.queue, id.job, job);
      }
    }
  }
}
