/** How long a job waits in the live queue, and exactly when one job can be
    claimed before another that was enqueued earlier. */
module Fairness {
  import opened Options
  import opened SortedSet
  import opened QueueScore
  import opened Records
  import opened JobLife
  import opened Protocol
  import opened Guarantees
  import opened Tidy
  import opened Ordering

  // ---- progress -------------------------------------------------------------------

  /** The entries that claims take before the job's. */
  ghost function Ahead(s: State, job: string): set<string>
    requires job in s.redis.queue
  {
    set x | x in s.redis.queue && Precedes(s, x, job)
  }

  /** How many claims of the run found an ONLINE worker and a queue entry. */
  ghost function PopCount(e: Env, s: State, ops: seq<Op>): nat {
    if ops == [] then 0
    else
      var front, last := ops[..|ops| - 1], ops[|ops| - 1];
      PopCount(e, s, front) + if last.Claim? && Pops(Run(e, s, front), last.worker) then 1 else 0
  }

  /** Whatever the run enqueues takes its place behind the job. */
  ghost predicate NothingCutsIn(e: Env, s: State, ops: seq<Op>, job: string) {
    forall i, x :: 0 <= i < |ops| && Enqueues(Run(e, s, ops[..i]), ops[i], x) ==>
      !Precedes(Run(e, s, ops[..i + 1]), x, job)
  }

  lemma StepDrains(e: Env, s: State, op: Op, job: string)
    requires ClockOk(e) && TidyState(e, s) && Enabled(e, s, op) && !op.RedisFault?
    requires job in s.redis.queue && !PopsJob(s, op, job)
    requires forall x :: Enqueues(s, op, x) ==> !Precedes(Step(e, s, op), x, job)
    ensures job in Step(e, s, op).redis.queue
    ensures |Ahead(Step(e, s, op), job)| + (if op.Claim? && Pops(s, op.worker) then 1 else 0) <= |Ahead(s, job)|
  {
    hide Step, TidyState, Enabled, Enqueues, LexLeq, IsMin;
    StepKeepsQueued(e, s, op, job);
    var s' := Step(e, s, op);
    forall x | x in Ahead(s', job)
      ensures x in Ahead(s, job)
    {
      QueueOrigin(e, s, op, x);
    }
    if op.Claim? && Pops(s, op.worker) {
      var popped := Popped(s);
      PoppedScoresLeast(s, job);
      StepRedis(e, s, op);
      assert popped in Ahead(s, job) && popped !in Ahead(s', job);
      Fewer(Ahead(s', job), Ahead(s, job), popped);
    } else {
      Subset(Ahead(s', job), Ahead(s, job));
    }
  }

  lemma {:induction false} Subset<T>(a: set<T>, b: set<T>)
    requires a <= b
    ensures |a| <= |b|
  {
    assert b == a + (b - a);
  }

  lemma Fewer<T>(a: set<T>, b: set<T>, x: T)
    requires a <= b && x in b && x !in a
    ensures |a| + 1 <= |b|
  {
    Subset(a, b - {x});
  }

  lemma {:induction false} QueueDrains(e: Env, s: State, ops: seq<Op>, job: string)
    requires ClockOk(e) && TidyState(e, s) && EnabledRun(e, s, ops) && Faultless(ops)
    requires job in s.redis.queue && NeverPops(e, s, ops, job) && NothingCutsIn(e, s, ops, job)
    ensures job in Run(e, s, ops).redis.queue
    ensures PopCount(e, s, ops) + |Ahead(Run(e, s, ops), job)| <= |Ahead(s, job)|
  {
    hide Step, Enabled, TidyState, PopsJob, Enqueues, Precedes, Pops;
    if ops != [] {
      var n := |ops| - 1;
      var front, last := ops[..n], ops[n];
      RunLast(e, s, ops);
      forall i | 0 <= i <= n
        ensures front[..i] == ops[..i]
      {
      }
      assert ops[..n + 1] == ops;
      QueueDrains(e, s, front, job);
      RunKeepsTidy(e, s, front);
      StepDrains(e, Run(e, s, front), last, job);
    }
  }

  /** A claim of the run leases the job to the worker that asked. */
  ghost predicate LeasedBy(e: Env, s: State, ops: seq<Op>, i: nat, job: string)
    requires i < |ops|
  {
    && ops[i].Claim? && PopsJob(Run(e, s, ops[..i]), ops[i], job)
    && var after := Run(e, s, ops[..i + 1]).db;
       job in after.jobs && after.jobs[job].status == JobRunning
       && exists row :: HeldBy(after, AttemptId(job, row), ops[i].worker)
                        && HoldsLease(after, AttemptId(job, row), ops[i].token)
  }

  lemma PopLeases(e: Env, s: State, op: Op, job: string)
    requires TidyState(e, s) && PopsJob(s, op, job)
    ensures var db' := Step(e, s, op).db;
            && job in db'.jobs && db'.jobs[job].status == JobRunning
            && exists row :: HeldBy(db', AttemptId(job, row), op.worker)
                             && HoldsLease(db', AttemptId(job, row), op.token)
  {
    ClaimNeverStale(e, s);
    TidyIsDbInv(e, s);
    hide TidyState, IsMin;
    assert JobInv(e.cfg, s.db.jobs[job]);
    var row := Latest(s.db.jobs[job].attempts);
    var db' := Step(e, s, op).db;
    assert HeldBy(db', AttemptId(job, row), op.worker) && HoldsLease(db', AttemptId(job, row), op.token);
  }

  /** Progress: a job in the live queue is leased within as many claims as the
      queue has entries, provided ONLINE workers make them and nothing is put
      ahead of it meanwhile. */
  lemma LeasedWithinQueue(e: Env, s: State, ops: seq<Op>, job: string) returns (i: nat)
    requires ClockOk(e) && TidyState(e, s) && EnabledRun(e, s, ops) && Faultless(ops)
    requires job in s.redis.queue && NothingCutsIn(e, s, ops, job)
    requires PopCount(e, s, ops) >= |s.redis.queue|
    ensures i < |ops| && NeverPops(e, s, ops[..i], job) && LeasedBy(e, s, ops, i, job)
  {
    hide Step, Enabled, EnabledRun, Run, TidyState, NeverPops, NothingCutsIn, Ahead, LeasedBy;
    AheadIsLess(s, job);
    if NeverPops(e, s, ops, job) {
      QueueDrains(e, s, ops, job);
      assert false;
    }
    i := FirstPop(e, s, ops, job);
    FirstPopLeases(e, s, ops, i, job);
  }

  lemma FirstPopLeases(e: Env, s: State, ops: seq<Op>, i: nat, job: string)
    requires ClockOk(e) && TidyState(e, s) && EnabledRun(e, s, ops) && Faultless(ops)
    requires i < |ops| && PopsJob(Run(e, s, ops[..i]), ops[i], job)
    ensures LeasedBy(e, s, ops, i, job)
  {
    hide Step, Enabled, EnabledRun, TidyState, PopsJob, HeldBy, HoldsLease;
    var front := ops[..i];
    assert ops[..i + 1] == front + [ops[i]];
    RunSnoc(e, s, front, ops[i]);
    assert ops == front + ops[i..];
    EnabledSplit(e, s, front, ops[i..]);
    hide Run;
    RunKeepsTidy(e, s, front);
    PopLeases(e, Run(e, s, front), ops[i], job);
    PopsIsClaim(Run(e, s, front), ops[i], job);
  }

  lemma AheadIsLess(s: State, job: string)
    requires job in s.redis.queue
    ensures |Ahead(s, job)| < |s.redis.queue|
  {
    assert job !in Ahead(s, job);
    Fewer(Ahead(s, job), s.redis.queue.Keys, job);
  }

  lemma PopsIsClaim(s: State, op: Op, job: string)
    ensures PopsJob(s, op, job) ==> op.Claim?
  {
  }

  lemma {:induction false} FirstPop(e: Env, s: State, ops: seq<Op>, job: string) returns (i: nat)
    requires !NeverPops(e, s, ops, job)
    ensures i < |ops| && NeverPops(e, s, ops[..i], job) && PopsJob(Run(e, s, ops[..i]), ops[i], job)
  {
    hide PopsJob, Run;
    var n := |ops| - 1;
    NeverPopsLast(e, s, ops, job);
    if NeverPops(e, s, ops[..n], job) {
      i := n;
    } else {
      i := FirstPop(e, s, ops[..n], job);
      assert ops[..n][..i] == ops[..i];
    }
  }

  // ---- exactly when one job can overtake another ----------------------------------------

  /** No fault-free continuation claims `second` before `first`. */
  ghost predicate NeverOvertaken(e: Env, s: State, first: string, second: string) {
    forall ops :: EnabledRun(e, s, ops) && Faultless(ops) && NeverPops(e, s, ops, first) ==>
                    NeverPops(e, s, ops, second)
  }

  /** A claimant that did not exist before, claiming n times. */
  function Claims(w: string, n: nat): seq<Op> {
    [Register(w)] + seq(n, _ => Claim(w, "token"))
  }

  lemma {:induction false} FreshName(names: set<string>) returns (w: string)
    ensures w !in names
    ensures forall x :: x in names ==> |x| < |w|
    decreases |names|
  {
    if names == {} {
      w := "w";
    } else {
      var x :| x in names;
      var w' := FreshName(names - {x});
      w := w' + x + "w";
    }
  }

  lemma ClaimKeepsWorkers(e: Env, s: State, w: string, token: string)
    ensures Step(e, s, Claim(w, token)).db.workers == s.db.workers
  {
    hide IsMin, Lease;
  }

  lemma {:induction false} ClaimsPop(e: Env, s: State, w: string, n: nat, job: string)
    requires ClockOk(e) && TidyState(e, s) && w !in s.db.workers && job in s.redis.queue
    requires NeverPops(e, s, Claims(w, n), job)
    ensures var ops := Claims(w, n);
            && EnabledRun(e, s, ops) && Faultless(ops)
            && PopCount(e, s, ops) == n && job in Run(e, s, ops).redis.queue
            && w in Run(e, s, ops).db.workers && Run(e, s, ops).db.workers[w].status == Online
  {
    var ops := Claims(w, n);
    ClaimsAreEnabled(e, s, w, n);
    if n == 0 {
      assert ops == [Register(w)];
      RunFirst(e, s, Register(w));
      assert ops[..0] == [] && PopCount(e, s, ops[..0]) == 0;
    } else {
      var front := Claims(w, n - 1);
      var claim := Claim(w, "token");
      assert ops == front + [claim];
      assert ops[..n] == front && ops[n] == claim;
      NeverPopsLast(e, s, ops, job);
      hide TidyState, PopsJob, Step, EnabledRun, NeverPops;
      ClaimsPop(e, s, w, n - 1, job);
      RunSnoc(e, s, front, claim);
      RunKeepsTidy(e, s, front);
      hide Run, Claims;
      ClaimPops(e, Run(e, s, front), w, job);
    }
  }

  lemma ClaimPops(e: Env, s: State, w: string, job: string)
    requires TidyState(e, s) && job in s.redis.queue && w in s.db.workers && s.db.workers[w].status == Online
    requires !PopsJob(s, Claim(w, "token"), job)
    ensures var s' := Step(e, s, Claim(w, "token"));
            job in s'.redis.queue && w in s'.db.workers && s'.db.workers[w].status == Online
    ensures Pops(s, w)
  {
    hide Step, TidyState, PopsJob;
    StepKeepsQueued(e, s, Claim(w, "token"), job);
    ClaimKeepsWorkers(e, s, w, "token");
  }

  lemma ClaimsAreEnabled(e: Env, s: State, w: string, n: nat)
    ensures EnabledRun(e, s, Claims(w, n)) && Faultless(Claims(w, n))
  {
    RequestsAreEnabled(e, s, Claims(w, n));
  }

  lemma ClaimsCutNothing(e: Env, s: State, w: string, n: nat, job: string)
    ensures NothingCutsIn(e, s, Claims(w, n), job)
  {
    hide Run, Precedes;
  }

  /** A job in the live queue can always be reached by claims alone. */
  lemma ClaimsReach(e: Env, s: State, job: string) returns (ops: seq<Op>, i: nat)
    requires ClockOk(e) && TidyState(e, s) && job in s.redis.queue
    ensures EnabledRun(e, s, ops) && Faultless(ops) && i < |ops|
    ensures NeverPops(e, s, ops[..i], job) && PopsJob(Run(e, s, ops[..i]), ops[i], job)
  {
    hide TidyState, PopsJob, Run, Enabled, EnabledRun, NeverPops, NothingCutsIn, Claims;
    var w := FreshName(s.db.workers.Keys);
    ops := Claims(w, |s.redis.queue|);
    ClaimsAreEnabled(e, s, w, |s.redis.queue|);
    ClaimsCutNothing(e, s, w, |s.redis.queue|, job);
    if NeverPops(e, s, ops, job) {
      ClaimsPop(e, s, w, |s.redis.queue|, job);
      i := LeasedWithinQueue(e, s, ops, job);
    } else {
      i := FirstPop(e, s, ops, job);
    }
  }

  /** Of two jobs in the live queue the first is never overtaken if and only if
      it is the one ahead. */
  lemma OvertakenIff(e: Env, s: State, first: string, second: string)
    requires ClockOk(e) && TidyState(e, s) && first != second
    requires first in s.redis.queue && second in s.redis.queue
    ensures NeverOvertaken(e, s, first, second) <==> Before(s.redis.queue, first, second)
  {
    hide Run, TidyState, PopsJob, Step, Enabled, LexLeq, NeverPops;
    if Before(s.redis.queue, first, second) {
      forall ops | EnabledRun(e, s, ops) && Faultless(ops) && NeverPops(e, s, ops, first)
        ensures NeverPops(e, s, ops, second)
      {
        NoOvertaking(e, s, ops, first, second);
      }
    } else {
      LexTotal(first, second);
      var ops, i := ClaimsReach(e, s, second);
      var front := ops[..i];
      assert ops == front + ops[i..];
      EnabledSplit(e, s, front, ops[i..]);
      NoOvertaking(e, s, front, second, first);
      var longer := ops[..i + 1];
      assert ops == longer + ops[i + 1..];
      EnabledSplit(e, s, longer, ops[i + 1..]);
      assert longer[..i] == front && longer[i] == ops[i];
      PopsOnlyOne(e, s, longer, i, first, second);
      assert Faultless(longer);
    }
  }

  lemma PopsOnlyOne(e: Env, s: State, ops: seq<Op>, i: nat, first: string, second: string)
    requires |ops| == i + 1 && first != second && NeverPops(e, s, ops[..i], first)
    requires PopsJob(Run(e, s, ops[..i]), ops[i], second)
    ensures NeverPops(e, s, ops, first) && !NeverPops(e, s, ops, second)
  {
    NeverPopsLast(e, s, ops, first);
    hide Run;
    assert PopsJob(Run(e, s, ops[..i]), ops[i], second) && !PopsJob(Run(e, s, ops[..i]), ops[i], first);
  }

  /** Exactly when the order of enqueueing is kept within one priority: of two
      queued jobs the one enqueued earlier is never overtaken if and only if their
      scores, rounded at the two readings, differ, or its id sorts first. */
  lemma FifoIff(e: Env, before: seq<Op>, early: string, late: string)
    requires ClockOk(e) && Monotone(e.rnd)
    requires EnabledRun(e, InitialState(), before) && Faultless(before)
    requires early in Run(e, InitialState(), before).redis.queue
    requires late in Run(e, InitialState(), before).redis.queue
    requires SamePriority(Run(e, InitialState(), before), early, late)
    requires EnqueuedBefore(e, before, early, late)
    ensures var s := Run(e, InitialState(), before);
            var p := s.db.jobs[early].priority;
            var at, at' := EnqueuedAt(e, InitialState(), before, early), EnqueuedAt(e, InitialState(), before, late);
            NeverOvertaken(e, s, early, late) <==> Score(e.rnd, p, at) < Score(e.rnd, p, at') || LexLeq(early, late)
  {
    InitialIsTidy(e);
    RunKeepsTidy(e, InitialState(), before);
    ScoredWhenEnqueued(e, before, early);
    ScoredWhenEnqueued(e, before, late);
    var s := Run(e, InitialState(), before);
    var at, at' := EnqueuedAt(e, InitialState(), before, early), EnqueuedAt(e, InitialState(), before, late);
    hide Run, Score, TidyState, LastEnqueue, EnqueuedAt, LexLeq, NeverOvertaken;
    EqualPriorityWeaklyFifo(e.rnd, s.db.jobs[early].priority, at, at');
    OvertakenIff(e, s, early, late);
  }

  // ---- a run in which the later job is claimed first ---------------------------------------

  lemma {:induction false} CommonPrefix(prefix: string, a: string, b: string)
    requires LexLeq(a, b)
    ensures LexLeq(prefix + a, prefix + b)
  {
    if prefix == [] {
      assert prefix + a == a && prefix + b == b;
    } else {
      CommonPrefix(prefix[1..], a, b);
      assert (prefix + a)[1..] == prefix[1..] + a && (prefix + b)[1..] == prefix[1..] + b;
    }
  }

  lemma JobASortsFirst()
    ensures LexLeq("job-a", "job-b") && "job-a" != "job-b"
  {
    assert LexLeq("a", "b") && "job-a" == "job-" + "a" && "job-b" == "job-" + "b";
    CommonPrefix("job-", "a", "b");
    assert "job-a"[4] != "job-b"[4];
  }

  /** A clock that ticks once a second from 1.7 * 10^9 on, and scores rounded to
      even integers from 2^53 on. */
  function SecondsEnv(cfg: Settings): Env {
    Env(cfg, (i: nat) => 1_700_000_000.0 + i as real, NearestEven)
  }

  lemma SecondsTie(cfg: Settings)
    ensures ClockOk(SecondsEnv(cfg)) && DoubleRounding(SecondsEnv(cfg).rnd) && EvenFrom53(SecondsEnv(cfg).rnd)
    ensures Score(NearestEven, 1000, 1_700_000_000.0) == Score(NearestEven, 1000, 1_700_000_001.0)
  {
    NearestEvenIsRounding();
    assert ((1.0 + 10_000_000_000_000_000.0) / 2.0).Floor == 5_000_000_000_000_000;
    assert NearestEven(-10_000_000_000_000_000.0) == -10_000_000_000_000_000.0;
    assert ((1.0 + 9_999_998_300_000_000.0) / 2.0).Floor == 4_999_999_150_000_000;
    assert ((1.0 + 9_999_998_299_999_999.0) / 2.0).Floor == 4_999_999_150_000_000;
  }

  /** Two jobs of one priority are created a second apart, "job-b" first. */
  function Rivals(w: string): seq<Op> {
    [Create("job-b", 1000, true)] + [Create("job-a", 1000, true)] + [Register(w)]
  }

  lemma RivalsQueue(e: Env, w: string)
    ensures var ops := Rivals(w);
            var s := Run(e, InitialState(), ops);
            && EnabledRun(e, InitialState(), ops) && Faultless(ops)
            && s.db.jobs == map["job-b" := NewJob(1000), "job-a" := NewJob(1000)]
            && s.redis.queue == map["job-b" := Score(e.rnd, 1000, e.tick(0)), "job-a" := Score(e.rnd, 1000, e.tick(1))]
            && w in s.db.workers && s.db.workers[w].status == Online
            && LastEnqueue(e, InitialState(), ops, "job-b") == Some(0)
            && LastEnqueue(e, InitialState(), ops, "job-a") == Some(1)
            && EnqueuedAt(e, InitialState(), ops, "job-b") == e.tick(0)
            && EnqueuedAt(e, InitialState(), ops, "job-a") == e.tick(1)
  {
    hide Score, LexLeq, EnabledRun;
    JobASortsFirst();
    var b, a := [Create("job-b", 1000, true)], [Create("job-a", 1000, true)];
    var s0 := InitialState();
    var ops := Rivals(w);
    RequestsAreEnabled(e, s0, ops);
    RunFirst(e, s0, b[0]);
    RunSnoc(e, s0, b, a[0]);
    RunSnoc(e, s0, b + a, Register(w));
    assert ops[..0] == [] && ops[..1] == b && ops[..2] == b + a;
    assert Run(e, s0, ops[..0]) == s0;
    assert (b + a)[..1] == b && b[..0] == [];
  }

  /** The documentation promises FIFO order within one priority. In this run from
      the empty server the job created a second later is leased first. */
  lemma RoundingLosesFifo(cfg: Settings, w: string, token: string)
    ensures var e, before := SecondsEnv(cfg), Rivals(w);
            var s := Run(e, InitialState(), before);
            var s' := Run(e, InitialState(), before + [Claim(w, token)]);
            && ClockOk(e) && DoubleRounding(e.rnd) && EnabledRun(e, InitialState(), before + [Claim(w, token)])
            && SamePriority(s, "job-b", "job-a") && EnqueuedBefore(e, before, "job-b", "job-a")
            && "job-b" in s.redis.queue && "job-a" in s.redis.queue
            && "job-a" in s'.db.jobs && s'.db.jobs["job-a"].status == JobRunning
            && "job-b" in s'.db.jobs && s'.db.jobs["job-b"].status == JobQueued && "job-b" in s'.redis.queue
  {
    var e, before, claim := SecondsEnv(cfg), Rivals(w), Claim(w, token);
    SecondsTie(cfg);
    RivalsQueue(e, w);
    JobASortsFirst();
    hide NearestEven, Score, LexLeq, LastEnqueue, EnqueuedAt, Rivals, Step, Run;
    var s := Run(e, InitialState(), before);
    RunSnoc(e, InitialState(), before, claim);
    assert e.tick(0) == 1_700_000_000.0 && e.tick(1) == 1_700_000_001.0;
    TieGoesToTheFirstName(e, s, Score(e.rnd, 1000, e.tick(0)), w, token);
    ClaimEnabled(e, s, w, token);
  }

  lemma ClaimEnabled(e: Env, s: State, w: string, token: string)
    ensures Enabled(e, s, Claim(w, token))
  {
  }

  lemma TieGoesToTheFirstName(e: Env, s: State, score: real, w: string, token: string)
    requires s.redis.queue == map["job-b" := score, "job-a" := score]
    requires s.db.jobs == map["job-b" := NewJob(1000), "job-a" := NewJob(1000)]
    requires w in s.db.workers && s.db.workers[w].status == Online
    ensures var s' := Step(e, s, Claim(w, token));
            && "job-a" in s'.db.jobs && s'.db.jobs["job-a"].status == JobRunning
            && "job-b" in s'.db.jobs && s'.db.jobs["job-b"].status == JobQueued && "job-b" in s'.redis.queue
  {
    JobASortsFirst();
    LexTotal("job-a", "job-a");
    hide LexLeq, Latest;
    assert IsMin(s.redis.queue, "job-a");
    MinUnique(s.redis.queue, "job-a", Popped(s));
  }
}
