/** The worker's execution of a pipeline: one container, a checkout, then the
    steps one at a time under a deadline. Docker is an oracle of outcomes, the
    monotonic clock a sequence of readings. */
module Executor {
  import opened Options

  datatype PipelineStep = PipelineStep(name: string, allowFailure: bool)

  datatype Pipeline = Pipeline(timeoutSeconds: real, steps: seq<PipelineStep>)

  datatype StepResult = StepResult(name: string, exitCode: int, duration: real)

  datatype ExecutionResult = ExecutionResult(
    exitCode: int,
    failedStep: Option<string>,
    permanent: bool,
    results: seq<StepResult>,
    infraError: Option<string>)

  /** One `chunks.get(timeout=...)`: it times out, or delivers, or ends. */
  datatype Got = Empty | Chunk(data: string) | End

  /** `exec_inspect`: the code it reports, if any, or a DockerException. */
  datatype Inspection = ExitCode(code: Option<int>) | InspectRaises

  /** One exec: creation or start raises, or a stream of chunks is read. */
  datatype Exec = CreateRaises | Stream(gets: nat -> Got, inspect: Inspection)

  /** `execs(0)` is the checkout, `execs(i + 1)` step i. */
  datatype Docker = Docker(pulls: bool, starts: bool, execs: nat -> Exec)

  /** Readings of `time.monotonic()`; `reach(d)` is a reading at or after d. */
  datatype Clock = Clock(at: nat -> real, reach: real -> nat)

  ghost predicate Ticking(c: Clock) {
    && (forall i: nat, k: nat :: i <= k ==> c.at(i) <= c.at(k))
    && (forall d: real :: c.at(c.reach(d)) >= d)
  }

  // ---- one exec --------------------------------------------------------------------

  /** The pair that `_exec` returns, and the number of readings taken so far. */
  datatype Ran = Ran(ok: bool, code: int, pos: nat)

  function Inspected(inspect: Inspection, pos: nat): Ran {
    match inspect
    case InspectRaises => Ran(false, 1, pos)
    case ExitCode(None) => Ran(false, 1, pos)
    case ExitCode(Some(code)) => Ran(code == 0, code, pos)
  }

  lemma BeforeDeadline(c: Clock, deadline: real, pos: nat)
    requires Ticking(c) && c.at(pos) < deadline
    ensures pos < c.reach(deadline)
  {
    assert c.at(c.reach(deadline)) >= deadline;
  }

  /** The `while True` loop: the deadline is looked at before every get. */
  ghost function Drain(c: Clock, gets: nat -> Got, inspect: Inspection, deadline: real, k: nat, pos: nat): Ran
    requires Ticking(c)
    decreases c.reach(deadline) - pos
  {
    if c.at(pos) >= deadline then Ran(false, 124, pos + 1)
    else if gets(k) == End then Inspected(inspect, pos + 1)
    else
      BeforeDeadline(c, deadline, pos);
      Drain(c, gets, inspect, deadline, k + 1, pos + 1)
  }

  ghost function RunExec(c: Clock, exec: Exec, deadline: real, pos: nat): Ran
    requires Ticking(c)
  {
    match exec
    case CreateRaises => Ran(false, 1, pos)
    case Stream(gets, inspect) => Drain(c, gets, inspect, deadline, 0, pos)
  }

  /** The stream ends with its k-th get, which the clock still allows. */
  ghost predicate EndsInTime(c: Clock, gets: nat -> Got, deadline: real, from: nat, k: nat, pos: nat) {
    && from <= k && gets(k) == End && (forall m: nat :: from <= m < k ==> gets(m) != End)
    && c.at(pos + (k - from)) < deadline
  }

  /** The pair that the loop returns: what the inspection says if the stream ended
      in time, and exit code 124 otherwise. */
  lemma {:induction false} DrainOutcome(
      c: Clock, gets: nat -> Got, inspect: Inspection, deadline: real, k: nat, pos: nat)
    requires Ticking(c)
    ensures var r := Drain(c, gets, inspect, deadline, k, pos);
            && r.pos > pos
            && if exists n: nat :: EndsInTime(c, gets, deadline, k, n, pos)
               then r.ok == Inspected(inspect, 0).ok && r.code == Inspected(inspect, 0).code
               else !r.ok && r.code == 124
    decreases c.reach(deadline) - pos
  {
    if c.at(pos) >= deadline {
      forall n: nat
        ensures !EndsInTime(c, gets, deadline, k, n, pos)
      {
        if k <= n { assert c.at(pos) <= c.at(pos + (n - k)); }
      }
    } else if gets(k) == End {
      assert EndsInTime(c, gets, deadline, k, k, pos);
    } else {
      BeforeDeadline(c, deadline, pos);
      DrainOutcome(c, gets, inspect, deadline, k + 1, pos + 1);
      EndsLater(c, gets, deadline, k, pos, k + 1, pos + 1);
      hide EndsInTime, Inspected;
    }
  }

  lemma EndsLater(c: Clock, gets: nat -> Got, deadline: real, k: nat, pos: nat, k': nat, pos': nat)
    requires gets(k) != End && k' == k + 1 && pos' == pos + 1
    ensures (exists n: nat :: EndsInTime(c, gets, deadline, k, n, pos)) <==>
            (exists n: nat :: EndsInTime(c, gets, deadline, k', n, pos'))
  {
    if n: nat :| EndsInTime(c, gets, deadline, k, n, pos) {
      assert pos' + (n - k') == pos + (n - k);
      assert EndsInTime(c, gets, deadline, k', n, pos');
    }
    if n: nat :| EndsInTime(c, gets, deadline, k', n, pos') {
      assert pos' + (n - k') == pos + (n - k);
      assert EndsInTime(c, gets, deadline, k, n, pos);
    }
  }

  /** One reading per get, up to the end of the stream or the deadline. */
  lemma {:induction false} DrainReadings(
      c: Clock, gets: nat -> Got, inspect: Inspection, deadline: real, k: nat, pos: nat)
    requires Ticking(c)
    ensures var r := Drain(c, gets, inspect, deadline, k, pos);
            && r.pos > pos && (forall i: nat :: pos <= i < r.pos - 1 ==> c.at(i) < deadline)
            && (c.at(r.pos - 1) >= deadline || EndsInTime(c, gets, deadline, k, k + (r.pos - 1 - pos), pos))
    decreases c.reach(deadline) - pos
  {
    if c.at(pos) < deadline && gets(k) != End {
      BeforeDeadline(c, deadline, pos);
      DrainReadings(c, gets, inspect, deadline, k + 1, pos + 1);
      var r := Drain(c, gets, inspect, deadline, k, pos);
      hide Ticking, Drain;
      if c.at(r.pos - 1) < deadline {
        EndsAtSame(c, gets, deadline, k, pos, k + (r.pos - 1 - pos));
      }
    }
  }

  lemma EndsAtSame(c: Clock, gets: nat -> Got, deadline: real, k: nat, pos: nat, n: nat)
    requires gets(k) != End && EndsInTime(c, gets, deadline, k + 1, n, pos + 1)
    ensures EndsInTime(c, gets, deadline, k, n, pos)
  {
    assert pos + 1 + (n - (k + 1)) == pos + (n - k);
  }

  /** Why an exec failed: the deadline, the Docker daemon, or the command. */
  datatype Cause = DeadlineStruck | CreationRaised | InspectionRaised | NoCodeReported | CommandExited(code: int)

  function CodeOf(cause: Cause): int {
    match cause
    case DeadlineStruck => 124
    case CommandExited(code) => code
    case _ => 1
  }

  /** None for an exec that succeeds. */
  ghost function FailureCause(c: Clock, exec: Exec, deadline: real, pos: nat): Option<Cause> {
    match exec
    case CreateRaises => Some(CreationRaised)
    case Stream(gets, inspect) =>
      if !exists n: nat :: EndsInTime(c, gets, deadline, 0, n, pos) then Some(DeadlineStruck)
      else
        match inspect
        case InspectRaises => Some(InspectionRaised)
        case ExitCode(None) => Some(NoCodeReported)
        case ExitCode(Some(code)) => if code == 0 then None else Some(CommandExited(code))
  }

  /** An exec succeeds exactly when its stream ended before the deadline and the
      daemon reported exit code 0; a failure never carries code 0, and its code
      tells the cause. It reads the clock once per get, up to the end of the stream
      or the first reading at or after the deadline. */
  lemma ExecOkIff(c: Clock, exec: Exec, deadline: real, pos: nat)
    requires Ticking(c)
    ensures var r, cause := RunExec(c, exec, deadline, pos), FailureCause(c, exec, deadline, pos);
            && r.pos >= pos && (r.ok <==> r.code == 0)
            && (r.ok <==> exec.Stream? && exec.inspect == ExitCode(Some(0))
                          && exists n: nat :: EndsInTime(c, exec.gets, deadline, 0, n, pos))
            && (r.ok <==> cause == None) && (cause.Some? ==> r.code == CodeOf(cause.value))
    ensures var r := RunExec(c, exec, deadline, pos);
            if exec.CreateRaises? then r.pos == pos
            else
              && r.pos > pos && (forall i: nat :: pos <= i < r.pos - 1 ==> c.at(i) < deadline)
              && (c.at(r.pos - 1) >= deadline || EndsInTime(c, exec.gets, deadline, 0, r.pos - 1 - pos, pos))
  {
    if exec.Stream? {
      DrainOutcome(c, exec.gets, exec.inspect, deadline, 0, pos);
      DrainReadings(c, exec.gets, exec.inspect, deadline, 0, pos);
    }
  }

  // ---- the steps ---------------------------------------------------------------------

  /** A result with the reading at which each recorded step began. */
  datatype Evaluation = Evaluation(result: ExecutionResult, starts: seq<nat>, pos: nat)

  ghost function RunFrom(
      c: Clock, d: Docker, steps: seq<PipelineStep>, deadline: real,
      results: seq<StepResult>, starts: seq<nat>, pos: nat): Evaluation
    requires Ticking(c) && |results| <= |steps|
    decreases |steps| - |results|
  {
    var i := |results|;
    if i == |steps| then Evaluation(ExecutionResult(0, None, false, results, None), starts, pos)
    else if c.at(pos + 1) > deadline then
      Evaluation(ExecutionResult(124, Some(steps[i].name), false, results, Some("timeout")), starts, pos + 2)
    else
      var ran := RunExec(c, d.execs(i + 1), deadline, pos + 2);
      var results' := results + [StepResult(steps[i].name, ran.code, c.at(ran.pos) - c.at(pos))];
      if ran.ok || steps[i].allowFailure then
        RunFrom(c, d, steps, deadline, results', starts + [pos], ran.pos + 1)
      else
        Evaluation(ExecutionResult(ran.code, Some(steps[i].name), true, results', None), starts + [pos], ran.pos + 1)
  }

  ghost function Evaluate(c: Clock, d: Docker, p: Pipeline, pos: nat): Evaluation
    requires Ticking(c)
  {
    if !d.pulls then Evaluation(ExecutionResult(1, None, false, [], Some("image_pull_failed")), [], pos)
    else if !d.starts then Evaluation(ExecutionResult(1, None, false, [], Some("container_start_failed")), [], pos)
    else
      var deadline := c.at(pos) + p.timeoutSeconds;
      var checkout := RunExec(c, d.execs(0), deadline, pos + 1);
      if !checkout.ok then
        Evaluation(
          ExecutionResult(checkout.code, Some("checkout"), false, [], Some("checkout_failed")), [], checkout.pos)
      else RunFrom(c, d, p.steps, deadline, [], [], checkout.pos)
  }

  // ---- what an evaluation means ---------------------------------------------------------

  predicate Passed(r: StepResult, step: PipelineStep) {
    r.exitCode == 0 || step.allowFailure
  }

  predicate AllPassed(results: seq<StepResult>, steps: seq<PipelineStep>)
    requires |results| <= |steps|
  {
    forall i :: 0 <= i < |results| ==> Passed(results[i], steps[i])
  }

  /** Each recorded step is a pipeline step, in order, begun no later than the
      deadline, timed, and with the code that its own exec returned. */
  ghost predicate Recorded(c: Clock, d: Docker, steps: seq<PipelineStep>, deadline: real,
                           results: seq<StepResult>, starts: seq<nat>) {
    && Ticking(c) && |results| == |starts| && |results| <= |steps|
    && forall i :: 0 <= i < |results| ==>
         var ran := RunExec(c, d.execs(i + 1), deadline, starts[i] + 2);
         && results[i].name == steps[i].name
         && c.at(starts[i]) <= deadline
         && results[i].exitCode == ran.code
         && results[i].duration == c.at(ran.pos) - c.at(starts[i])
         && results[i].duration >= 0.0
  }

  ghost predicate Ended(c: Clock, d: Docker, steps: seq<PipelineStep>, deadline: real, ev: Evaluation) {
    var r := ev.result;
    var n := |r.results|;
    && Recorded(c, d, steps, deadline, r.results, ev.starts)
    && (if r.exitCode == 0 then
          n == |steps| && AllPassed(r.results, steps) && !r.permanent && r.failedStep == None && r.infraError == None
        else if r.permanent then
          n > 0 && AllPassed(r.results[..n - 1], steps) && !Passed(r.results[n - 1], steps[n - 1])
          && r.exitCode == r.results[n - 1].exitCode && r.failedStep == Some(steps[n - 1].name) && r.infraError == None
        else
          n < |steps| && AllPassed(r.results, steps) && r.exitCode == 124
          && r.failedStep == Some(steps[n].name) && r.infraError == Some("timeout")
          && ev.pos > 0 && c.at(ev.pos - 1) > deadline)
  }

  lemma RecordedOneMore(c: Clock, d: Docker, steps: seq<PipelineStep>, deadline: real,
                        results: seq<StepResult>, starts: seq<nat>, pos: nat)
    requires Recorded(c, d, steps, deadline, results, starts) && |results| < |steps| && c.at(pos + 1) <= deadline
    ensures var ran := RunExec(c, d.execs(|results| + 1), deadline, pos + 2);
            Recorded(c, d, steps, deadline,
                     results + [StepResult(steps[|results|].name, ran.code, c.at(ran.pos) - c.at(pos))], starts + [pos])
  {
    var ran := RunExec(c, d.execs(|results| + 1), deadline, pos + 2);
    ExecOkIff(c, d.execs(|results| + 1), deadline, pos + 2);
    hide RunExec;
    assert c.at(pos) <= c.at(pos + 1) && c.at(pos) <= c.at(ran.pos);
  }

  lemma {:induction false} RunFromEnds(
      c: Clock, d: Docker, steps: seq<PipelineStep>, deadline: real,
      results: seq<StepResult>, starts: seq<nat>, pos: nat)
    requires Ticking(c) && |results| <= |steps|
    requires Recorded(c, d, steps, deadline, results, starts) && AllPassed(results, steps)
    ensures Ended(c, d, steps, deadline, RunFrom(c, d, steps, deadline, results, starts, pos))
    decreases |steps| - |results|
  {
    hide RunExec, Recorded, Ticking, Ended;
    var i := |results|;
    if i == |steps| || c.at(pos + 1) > deadline {
      EndedBetween(c, d, steps, deadline, results, starts, pos);
    } else {
      var ran := RunExec(c, d.execs(i + 1), deadline, pos + 2);
      ExecOkIff(c, d.execs(i + 1), deadline, pos + 2);
      var results' := results + [StepResult(steps[i].name, ran.code, c.at(ran.pos) - c.at(pos))];
      var starts' := starts + [pos];
      RecordedOneMore(c, d, steps, deadline, results, starts, pos);
      if ran.ok || steps[i].allowFailure {
        RunFromEnds(c, d, steps, deadline, results', starts', ran.pos + 1);
      } else {
        EndedByStep(c, d, steps, deadline, results, results', starts', ran.pos + 1);
      }
    }
  }

  lemma EndedBetween(c: Clock, d: Docker, steps: seq<PipelineStep>, deadline: real,
                     results: seq<StepResult>, starts: seq<nat>, pos: nat)
    requires Ticking(c) && Recorded(c, d, steps, deadline, results, starts) && AllPassed(results, steps)
    requires |results| == |steps| || c.at(pos + 1) > deadline
    ensures Ended(c, d, steps, deadline, RunFrom(c, d, steps, deadline, results, starts, pos))
  {
    hide RunExec, Ticking;
  }

  lemma EndedByStep(c: Clock, d: Docker, steps: seq<PipelineStep>, deadline: real,
                    results: seq<StepResult>, results': seq<StepResult>, starts: seq<nat>, pos: nat)
    requires Ticking(c) && Recorded(c, d, steps, deadline, results', starts)
    requires |results'| == |results| + 1 && results'[..|results|] == results && AllPassed(results, steps)
    requires !Passed(results'[|results|], steps[|results|])
    ensures var last := results'[|results|];
            Ended(c, d, steps, deadline,
                  Evaluation(ExecutionResult(last.exitCode, Some(steps[|results|].name), true, results', None),
                             starts, pos))
  {
    hide RunExec, Ticking;
  }

  ghost predicate CheckoutOk(c: Clock, d: Docker, p: Pipeline, pos: nat)
    requires Ticking(c)
  {
    d.pulls && d.starts && RunExec(c, d.execs(0), c.at(pos) + p.timeoutSeconds, pos + 1).ok
  }

  /** An execution that gets past the checkout ends in one of three ways, told
      apart by exit code and permanence: every step passed; a step failed that
      was not allowed to, whatever made it fail; or the deadline had passed when
      the next step was due. One that does not is never permanent. */
  lemma EvaluationExplained(c: Clock, d: Docker, p: Pipeline, pos: nat)
    requires Ticking(c)
    ensures var ev := Evaluate(c, d, p, pos);
            if CheckoutOk(c, d, p, pos) then Ended(c, d, p.steps, c.at(pos) + p.timeoutSeconds, ev)
            else
              && ev.result.exitCode != 0 && !ev.result.permanent
              && ev.result.results == [] && ev.result.infraError.Some?
  {
    hide RunExec, Ended;
    var deadline := c.at(pos) + p.timeoutSeconds;
    ExecOkIff(c, d.execs(0), deadline, pos + 1);
    if CheckoutOk(c, d, p, pos) {
      RunFromEnds(c, d, p.steps, deadline, [], [], RunExec(c, d.execs(0), deadline, pos + 1).pos);
    }
  }

  // ---- how an evaluation ends, read off its inputs -----------------------------------------

  /** The reading with which step n begins, if every step before it was due in
      time and either succeeded or was allowed to fail. */
  ghost function Reach(
      c: Clock, d: Docker, steps: seq<PipelineStep>, deadline: real, from: nat, n: nat): Option<nat>
    requires Ticking(c) && n <= |steps|
  {
    if n == 0 then Some(from)
    else
      match Reach(c, d, steps, deadline, from, n - 1)
      case None => None
      case Some(q) =>
        if c.at(q + 1) > deadline then None
        else if FailureCause(c, d.execs(n), deadline, q + 2) != None && !steps[n - 1].allowFailure then None
        else Some(RunExec(c, d.execs(n), deadline, q + 2).pos + 1)
  }

  lemma {:induction false} ReachedEarlier(
      c: Clock, d: Docker, steps: seq<PipelineStep>, deadline: real, from: nat, m: nat, n: nat)
    requires Ticking(c) && m <= n <= |steps| && Reach(c, d, steps, deadline, from, n).Some?
    ensures Reach(c, d, steps, deadline, from, m).Some?
  {
    if m < n {
      ReachedEarlier(c, d, steps, deadline, from, m, n - 1);
    }
  }

  /** The deadline has passed when step n is due. */
  ghost predicate LateFrom(c: Clock, d: Docker, steps: seq<PipelineStep>, deadline: real, from: nat, n: nat)
    requires Ticking(c) && n < |steps|
  {
    var q := Reach(c, d, steps, deadline, from, n);
    q.Some? && c.at(q.value + 1) > deadline
  }

  /** Step n is run and fails for the given cause. */
  ghost predicate FailsFrom(
      c: Clock, d: Docker, steps: seq<PipelineStep>, deadline: real, from: nat, n: nat, cause: Cause)
    requires Ticking(c) && n < |steps|
  {
    var q := Reach(c, d, steps, deadline, from, n);
    && q.Some? && c.at(q.value + 1) <= deadline
    && FailureCause(c, d.execs(n + 1), deadline, q.value + 2) == Some(cause)
  }

  ghost predicate EndsAs(ev: Evaluation, steps: seq<PipelineStep>, n: nat, code: int, permanent: bool)
    requires n < |steps|
  {
    && ev.result.exitCode == code && ev.result.permanent == permanent
    && ev.result.failedStep == Some(steps[n].name)
    && |ev.result.results| == (if permanent then n + 1 else n)
    && ev.result.infraError == (if permanent then None else Some("timeout"))
  }

  lemma ReachNext(c: Clock, d: Docker, steps: seq<PipelineStep>, deadline: real, from: nat, n: nat)
    requires Ticking(c) && n < |steps|
    ensures var q := Reach(c, d, steps, deadline, from, n);
            Reach(c, d, steps, deadline, from, n + 1) ==
            if q == None || c.at(q.value + 1) > deadline
               || (FailureCause(c, d.execs(n + 1), deadline, q.value + 2) != None && !steps[n].allowFailure)
            then None else Some(RunExec(c, d.execs(n + 1), deadline, q.value + 2).pos + 1)
  {
    hide FailureCause, RunExec;
  }

  /** The loop ends at the last step it reaches: past the end of the pipeline, late
      for a step, or with a step that failed and was not allowed to. */
  lemma {:induction false} RunFromStops(
      c: Clock, d: Docker, steps: seq<PipelineStep>, deadline: real,
      results: seq<StepResult>, starts: seq<nat>, pos: nat, from: nat) returns (n: nat)
    requires Ticking(c) && |results| <= |steps|
    requires Reach(c, d, steps, deadline, from, |results|) == Some(pos)
    ensures n <= |steps| && Reach(c, d, steps, deadline, from, n).Some?
    ensures var ev := RunFrom(c, d, steps, deadline, results, starts, pos);
            if n == |steps| then ev.result.exitCode == 0 && !ev.result.permanent
            else
              || (LateFrom(c, d, steps, deadline, from, n) && EndsAs(ev, steps, n, 124, false))
              || (!steps[n].allowFailure
                  && exists cause :: FailsFrom(c, d, steps, deadline, from, n, cause)
                                     && CodeOf(cause) != 0 && EndsAs(ev, steps, n, CodeOf(cause), true))
    decreases |steps| - |results|
  {
    hide RunExec, FailureCause, Reach, Ticking;
    n := |results|;
    if n < |steps| && c.at(pos + 1) <= deadline {
      ReachNext(c, d, steps, deadline, from, n);
      var ran := RunExec(c, d.execs(n + 1), deadline, pos + 2);
      var cause := FailureCause(c, d.execs(n + 1), deadline, pos + 2);
      ExecOkIff(c, d.execs(n + 1), deadline, pos + 2);
      var results' := results + [StepResult(steps[n].name, ran.code, c.at(ran.pos) - c.at(pos))];
      if ran.ok || steps[n].allowFailure {
        n := RunFromStops(c, d, steps, deadline, results', starts + [pos], ran.pos + 1, from);
      } else {
        assert FailsFrom(c, d, steps, deadline, from, n, cause.value);
      }
    }
  }

  /** At most one step can be late or fail for good, and none if all are passed. */
  lemma StopsOnce(c: Clock, d: Docker, steps: seq<PipelineStep>, deadline: real, from: nat, m: nat, n: nat)
    requires Ticking(c) && m < |steps| && n <= |steps| && Reach(c, d, steps, deadline, from, n).Some?
    requires || LateFrom(c, d, steps, deadline, from, m)
             || (!steps[m].allowFailure && exists cause :: FailsFrom(c, d, steps, deadline, from, m, cause))
    ensures n <= m
  {
    hide Reach, FailureCause, RunExec, Ticking;
    if m < n {
      ReachNext(c, d, steps, deadline, from, m);
      ReachedEarlier(c, d, steps, deadline, from, m + 1, n);
    }
  }

  ghost function StepsFrom(c: Clock, d: Docker, p: Pipeline, pos: nat): nat
    requires Ticking(c)
  {
    RunExec(c, d.execs(0), c.at(pos) + p.timeoutSeconds, pos + 1).pos
  }

  /** Step n was due only after the deadline. */
  ghost predicate LateForStep(c: Clock, d: Docker, p: Pipeline, pos: nat, n: nat)
    requires Ticking(c)
  {
    CheckoutOk(c, d, p, pos) && n < |p.steps|
    && LateFrom(c, d, p.steps, c.at(pos) + p.timeoutSeconds, StepsFrom(c, d, p, pos), n)
  }

  /** Step n was run and failed for the given cause. */
  ghost predicate StepFails(c: Clock, d: Docker, p: Pipeline, pos: nat, n: nat, cause: Cause)
    requires Ticking(c)
  {
    CheckoutOk(c, d, p, pos) && n < |p.steps|
    && FailsFrom(c, d, p.steps, c.at(pos) + p.timeoutSeconds, StepsFrom(c, d, p, pos), n, cause)
  }

  /** Step n was run and failed for the given cause, without `allow_failure`. */
  ghost predicate FatalStep(c: Clock, d: Docker, p: Pipeline, pos: nat, n: nat, cause: Cause)
    requires Ticking(c)
  {
    StepFails(c, d, p, pos, n, cause) && !p.steps[n].allowFailure
  }

  ghost predicate StepsPassed(c: Clock, d: Docker, p: Pipeline, pos: nat)
    requires Ticking(c)
  {
    CheckoutOk(c, d, p, pos)
    && Reach(c, d, p.steps, c.at(pos) + p.timeoutSeconds, StepsFrom(c, d, p, pos), |p.steps|).Some?
  }

  /** The three endings of the loop, each named by its inputs. */
  lemma LoopEnding(c: Clock, d: Docker, p: Pipeline, pos: nat)
    requires Ticking(c) && CheckoutOk(c, d, p, pos)
    ensures var ev := Evaluate(c, d, p, pos);
            || (StepsPassed(c, d, p, pos) && ev.result.exitCode == 0 && !ev.result.permanent)
            || (exists n :: LateForStep(c, d, p, pos, n) && EndsAs(ev, p.steps, n, 124, false))
            || (exists n, cause :: FatalStep(c, d, p, pos, n, cause) && CodeOf(cause) != 0
                                   && EndsAs(ev, p.steps, n, CodeOf(cause), true))
  {
    hide RunExec, Reach, LateFrom, FailsFrom, EndsAs;
    var deadline, from := c.at(pos) + p.timeoutSeconds, StepsFrom(c, d, p, pos);
    assert Reach(c, d, p.steps, deadline, from, 0) == Some(from) by { ReachNothing(c, d, p.steps, deadline, from); }
    var n := RunFromStops(c, d, p.steps, deadline, [], [], from, from);
    if n < |p.steps| && !LateFrom(c, d, p.steps, deadline, from, n) {
      var cause :| FailsFrom(c, d, p.steps, deadline, from, n, cause) && CodeOf(cause) != 0
                   && EndsAs(Evaluate(c, d, p, pos), p.steps, n, CodeOf(cause), true);
      assert FatalStep(c, d, p, pos, n, cause);
    } else if n < |p.steps| {
      assert LateForStep(c, d, p, pos, n);
    }
  }

  lemma ReachNothing(c: Clock, d: Docker, steps: seq<PipelineStep>, deadline: real, from: nat)
    requires Ticking(c)
    ensures Reach(c, d, steps, deadline, from, 0) == Some(from)
  {
  }

  /** The endings exclude one another, and each happens at one step only. */
  lemma OneEnding(c: Clock, d: Docker, p: Pipeline, pos: nat)
    requires Ticking(c)
    ensures forall n :: LateForStep(c, d, p, pos, n) ==> !StepsPassed(c, d, p, pos)
    ensures forall n, cause :: FatalStep(c, d, p, pos, n, cause) ==> !StepsPassed(c, d, p, pos)
    ensures forall m, n, cause :: FatalStep(c, d, p, pos, m, cause) ==> !LateForStep(c, d, p, pos, n)
    ensures forall m, n :: LateForStep(c, d, p, pos, m) && LateForStep(c, d, p, pos, n) ==> m == n
    ensures forall m, n, cause, cause' ::
              FatalStep(c, d, p, pos, m, cause) && FatalStep(c, d, p, pos, n, cause') ==> m == n && cause == cause'
  {
    hide RunExec, FailureCause, Reach;
    var deadline, from := c.at(pos) + p.timeoutSeconds, StepsFrom(c, d, p, pos);
    forall n | LateForStep(c, d, p, pos, n)
      ensures !StepsPassed(c, d, p, pos)
    {
      if StepsPassed(c, d, p, pos) { StopsOnce(c, d, p.steps, deadline, from, n, |p.steps|); }
    }
    forall n, cause | FatalStep(c, d, p, pos, n, cause)
      ensures !StepsPassed(c, d, p, pos)
    {
      if StepsPassed(c, d, p, pos) { StopsOnce(c, d, p.steps, deadline, from, n, |p.steps|); }
    }
    forall m, n, cause | FatalStep(c, d, p, pos, m, cause)
      ensures !LateForStep(c, d, p, pos, n)
    {
      if LateForStep(c, d, p, pos, n) {
        StopsOnce(c, d, p.steps, deadline, from, m, n);
        StopsOnce(c, d, p.steps, deadline, from, n, m);
      }
    }
    forall m, n | LateForStep(c, d, p, pos, m) && LateForStep(c, d, p, pos, n)
      ensures m == n
    {
      StopsOnce(c, d, p.steps, deadline, from, m, n);
      StopsOnce(c, d, p.steps, deadline, from, n, m);
    }
    forall m, n, cause, cause' | FatalStep(c, d, p, pos, m, cause) && FatalStep(c, d, p, pos, n, cause')
      ensures m == n && cause == cause'
    {
      StopsOnce(c, d, p.steps, deadline, from, m, n);
      StopsOnce(c, d, p.steps, deadline, from, n, m);
    }
  }

  /** Exit code 0 means that the checkout succeeded and every step of the
      pipeline was run and either exited 0 or was allowed to fail. */
  lemma SuccessIff(c: Clock, d: Docker, p: Pipeline, pos: nat)
    requires Ticking(c)
    ensures var r := Evaluate(c, d, p, pos).result;
            r.exitCode == 0 <==>
              CheckoutOk(c, d, p, pos) && |r.results| == |p.steps| && AllPassed(r.results, p.steps)
    ensures Evaluate(c, d, p, pos).result.exitCode == 0 <==> StepsPassed(c, d, p, pos)
  {
    EvaluationExplained(c, d, p, pos);
    var r := Evaluate(c, d, p, pos).result;
    if CheckoutOk(c, d, p, pos) && r.exitCode != 0 && r.permanent {
      var n := |r.results|;
      assert !Passed(r.results[n - 1], p.steps[n - 1]);
    }
    hide Evaluate, StepsPassed, LateForStep, FatalStep, Ended;
    if CheckoutOk(c, d, p, pos) {
      LoopEnding(c, d, p, pos);
      OneEnding(c, d, p, pos);
    } else {
      PassedIsCheckedOut(c, d, p, pos);
    }
  }

  lemma PassedIsCheckedOut(c: Clock, d: Docker, p: Pipeline, pos: nat)
    requires Ticking(c) && !CheckoutOk(c, d, p, pos)
    ensures !StepsPassed(c, d, p, pos)
    ensures forall n :: !LateForStep(c, d, p, pos, n)
    ensures forall n, cause :: !FatalStep(c, d, p, pos, n, cause)
  {
  }

  /** A failure is permanent exactly when some step was reached in time, was run
      to a failure of any cause, and was not allowed to fail. That step is the one
      reported, with the code of its cause. */
  lemma PermanentIff(c: Clock, d: Docker, p: Pipeline, pos: nat)
    requires Ticking(c)
    ensures var ev := Evaluate(c, d, p, pos);
            && (ev.result.permanent <==> exists n, cause :: FatalStep(c, d, p, pos, n, cause))
            && forall n, cause :: FatalStep(c, d, p, pos, n, cause) ==>
                 EndsAs(ev, p.steps, n, CodeOf(cause), true)
  {
    EvaluationExplained(c, d, p, pos);
    hide Evaluate, StepsPassed, LateForStep, FatalStep, Ended;
    if CheckoutOk(c, d, p, pos) {
      LoopEnding(c, d, p, pos);
      OneEnding(c, d, p, pos);
      FatalIsStep(c, d, p, pos);
    } else {
      PassedIsCheckedOut(c, d, p, pos);
    }
  }

  lemma FatalIsStep(c: Clock, d: Docker, p: Pipeline, pos: nat)
    requires Ticking(c)
    ensures forall n: nat, cause :: FatalStep(c, d, p, pos, n, cause) ==> n < |p.steps|
  {
  }

  /** A failure is classified as infrastructure exactly when the image, the
      container or the checkout failed, or a step was due after the deadline:
      what happens inside a step never is. */
  lemma InfrastructureIff(c: Clock, d: Docker, p: Pipeline, pos: nat)
    requires Ticking(c)
    ensures var r := Evaluate(c, d, p, pos).result;
            r.exitCode != 0 && !r.permanent <==>
              !CheckoutOk(c, d, p, pos) || exists n :: LateForStep(c, d, p, pos, n)
  {
    EvaluationExplained(c, d, p, pos);
    hide Evaluate, StepsPassed, LateForStep, FatalStep, Ended;
    if CheckoutOk(c, d, p, pos) {
      LoopEnding(c, d, p, pos);
      OneEnding(c, d, p, pos);
    }
  }

  /** Being late for a step is reported as such. */
  lemma LateEnding(c: Clock, d: Docker, p: Pipeline, pos: nat)
    requires Ticking(c)
    ensures forall n: nat :: LateForStep(c, d, p, pos, n) ==>
              n < |p.steps| && EndsAs(Evaluate(c, d, p, pos), p.steps, n, 124, false)
  {
    hide Evaluate, StepsPassed, FatalStep, EndsAs;
    forall n: nat | LateForStep(c, d, p, pos, n)
      ensures n < |p.steps| && EndsAs(Evaluate(c, d, p, pos), p.steps, n, 124, false)
    {
      LoopEnding(c, d, p, pos);
      OneEnding(c, d, p, pos);
    }
  }

  ghost function CheckoutCause(c: Clock, d: Docker, p: Pipeline, pos: nat): Option<Cause> {
    FailureCause(c, d.execs(0), c.at(pos) + p.timeoutSeconds, pos + 1)
  }

  /** Which infrastructure error is reported, and with what, told by the inputs. */
  lemma InfraErrorIff(c: Clock, d: Docker, p: Pipeline, pos: nat)
    requires Ticking(c)
    ensures var r, cause := Evaluate(c, d, p, pos).result, CheckoutCause(c, d, p, pos);
            && (r.infraError == Some("image_pull_failed") <==> !d.pulls)
            && (r.infraError == Some("container_start_failed") <==> d.pulls && !d.starts)
            && (!d.pulls || !d.starts ==> r.exitCode == 1 && r.failedStep == None)
            && (r.infraError == Some("checkout_failed") <==> d.pulls && d.starts && cause.Some?)
            && (d.pulls && d.starts && cause.Some? ==>
                  r.exitCode == CodeOf(cause.value) && r.failedStep == Some("checkout"))
            && (r.infraError == Some("timeout") <==> exists n :: LateForStep(c, d, p, pos, n))
            && (r.infraError == None <==> CheckoutOk(c, d, p, pos) && !exists n :: LateForStep(c, d, p, pos, n))
            && (r.infraError.Some? ==> !r.permanent && r.exitCode != 0)
  {
    LettersDiffer();
    if CheckoutOk(c, d, p, pos) {
      LoopInfraError(c, d, p, pos);
    } else {
      PassedIsCheckedOut(c, d, p, pos);
    }
    ExecOkIff(c, d.execs(0), c.at(pos) + p.timeoutSeconds, pos + 1);
    hide RunExec, FailureCause, LateForStep, RunFrom;
  }

  lemma LoopInfraError(c: Clock, d: Docker, p: Pipeline, pos: nat)
    requires Ticking(c) && CheckoutOk(c, d, p, pos)
    ensures var r := Evaluate(c, d, p, pos).result;
            && r.infraError == (if exists n :: LateForStep(c, d, p, pos, n) then Some("timeout") else None)
            && (r.infraError.Some? ==> !r.permanent && r.exitCode != 0)
  {
    EvaluationExplained(c, d, p, pos);
    hide Evaluate, StepsPassed, LateForStep, FatalStep, CheckoutOk;
    LoopEnding(c, d, p, pos);
    OneEnding(c, d, p, pos);
  }

  lemma LettersDiffer()
    ensures "image_pull_failed"[0] != "container_start_failed"[0] && "image_pull_failed"[0] != "checkout_failed"[0]
    ensures "container_start_failed"[1] != "checkout_failed"[1]
    ensures "timeout"[0] != "image_pull_failed"[0] && "timeout"[0] != "container_start_failed"[0]
    ensures "timeout"[0] != "checkout_failed"[0]
  {
  }

  /** Was it the deadline or Docker, rather than the command itself? */
  predicate NotTheCommand(cause: Cause) {
    !cause.CommandExited?
  }

  /** The documentation calls every timeout and Docker failure infrastructure.
      The code calls one permanent exactly when it strikes while a step without
      `allow_failure` is running. */
  lemma MisclassifiedIff(c: Clock, d: Docker, p: Pipeline, pos: nat)
    requires Ticking(c)
    ensures var r := Evaluate(c, d, p, pos).result;
            r.permanent && !(exists n, code :: FatalStep(c, d, p, pos, n, CommandExited(code))) <==>
              exists n, cause :: NotTheCommand(cause) && FatalStep(c, d, p, pos, n, cause)
  {
    PermanentIff(c, d, p, pos);
    OneEnding(c, d, p, pos);
    hide Evaluate, FatalStep, EndsAs, StepsPassed, LateForStep;
    if n, cause :| FatalStep(c, d, p, pos, n, cause) {
      assert cause.CommandExited? ==> cause == CommandExited(cause.code);
    }
  }

  /** Inside a step that may fail, any failure lets the run go on. */
  lemma AllowedFailureGoesOn(c: Clock, d: Docker, p: Pipeline, pos: nat, n: nat, cause: Cause)
    requires Ticking(c) && StepFails(c, d, p, pos, n, cause) && p.steps[n].allowFailure
    ensures Reach(c, d, p.steps, c.at(pos) + p.timeoutSeconds, StepsFrom(c, d, p, pos), n + 1).Some?
    ensures forall m: nat, k :: FatalStep(c, d, p, pos, m, k) || LateForStep(c, d, p, pos, m) ==> m > n
  {
    hide RunExec, FailureCause;
    var deadline, from := c.at(pos) + p.timeoutSeconds, StepsFrom(c, d, p, pos);
    forall m: nat, k | FatalStep(c, d, p, pos, m, k) || LateForStep(c, d, p, pos, m)
      ensures m > n
    {
      StopsOnce(c, d, p.steps, deadline, from, m, n + 1);
    }
  }

  // ---- two executions that are misclassified --------------------------------------------

  function SecondAfter(t: real): nat {
    if t <= 0.0 then 0 else t.Floor + 1
  }

  function SecondsClock(): Clock {
    Clock((i: nat) => i as real, SecondAfter)
  }

  function OneStep(): Pipeline {
    Pipeline(10.0, [PipelineStep("test", false)])
  }

  /** Everything succeeds but the one step, which does as told. */
  function GoodCheckout(test: Exec): Docker {
    Docker(true, true, (i: nat) => if i == 0 then Stream((k: nat) => End, ExitCode(Some(0))) else test)
  }

  lemma OneStepRuns(test: Exec)
    ensures var c, d := SecondsClock(), GoodCheckout(test);
            && Ticking(c) && CheckoutOk(c, d, OneStep(), 0)
            && forall cause :: FailureCause(c, test, 10.0, 4) == Some(cause) ==>
                                 FatalStep(c, d, OneStep(), 0, 0, cause)
  {
    var c, d := SecondsClock(), GoodCheckout(test);
    forall t: real
      ensures c.at(c.reach(t)) >= t
    {
    }
    hide FailureCause;
    assert c.at(0) + OneStep().timeoutSeconds == 10.0;
    assert RunExec(c, d.execs(0), 10.0, 1) == Ran(true, 0, 2);
    assert d.execs(1) == test;
  }

  /** A command that never ends is stopped by the deadline: reported permanent. */
  lemma TimeoutInsideStepIsPermanent()
    ensures var d := GoodCheckout(Stream((k: nat) => Empty, ExitCode(None)));
            && Ticking(SecondsClock())
            && var r := Evaluate(SecondsClock(), d, OneStep(), 0).result;
               r.permanent && r.exitCode == 124 && r.failedStep == Some("test")
  {
    var test := Stream((k: nat) => Empty, ExitCode(None));
    OneStepRuns(test);
    assert FailureCause(SecondsClock(), test, 10.0, 4) == Some(DeadlineStruck);
    PermanentIff(SecondsClock(), GoodCheckout(test), OneStep(), 0);
    hide FailureCause, Evaluate, FatalStep;
    assert FatalStep(SecondsClock(), GoodCheckout(test), OneStep(), 0, 0, DeadlineStruck);
  }

  /** So is a Docker error before the command of the step has even started. */
  lemma DockerErrorInsideStepIsPermanent()
    ensures Ticking(SecondsClock())
    ensures var r := Evaluate(SecondsClock(), GoodCheckout(CreateRaises), OneStep(), 0).result;
            r.permanent && r.exitCode == 1 && r.failedStep == Some("test")
  {
    OneStepRuns(CreateRaises);
    PermanentIff(SecondsClock(), GoodCheckout(CreateRaises), OneStep(), 0);
    assert FailureCause(SecondsClock(), CreateRaises, 10.0, 4) == Some(CreationRaised);
    hide Evaluate, FatalStep, FailureCause;
    assert FatalStep(SecondsClock(), GoodCheckout(CreateRaises), OneStep(), 0, 0, CreationRaised);
  }

  // ---- the executor itself ------------------------------------------------------------------

  class DockerExecutor {
    const c: Clock
    const d: Docker
    var pos: nat

    constructor (c: Clock, d: Docker)
      ensures this.c == c && this.d == d && pos == 0
    {
      this.c, this.d, pos := c, d, 0;
    }

    method Monotonic() returns (t: real)
      modifies `pos
      ensures t == c.at(old(pos)) && pos == old(pos) + 1
    {
      t := c.at(pos);
      pos := pos + 1;
    }

    method RunOne(exec: Exec, deadline: real) returns (ok: bool, code: int)
      requires Ticking(c)
      modifies `pos
      ensures Ran(ok, code, pos) == RunExec(c, exec, deadline, old(pos))
    {
      if exec.CreateRaises? {
        return false, 1;
      }
      var k := 0;
      while true
        invariant pos >= old(pos)
        invariant RunExec(c, exec, deadline, old(pos)) == Drain(c, exec.gets, exec.inspect, deadline, k, pos)
        decreases c.reach(deadline) - pos
      {
        ghost var before := pos;
        var t := Monotonic();
        if deadline - t <= 0.0 {
          return false, 124;
        }
        BeforeDeadline(c, deadline, before);
        var chunk := exec.gets(k);
        k := k + 1;
        if chunk == End {
          break;
        }
      }
      match exec.inspect
      case InspectRaises => return false, 1;
      case ExitCode(reported) =>
        code := if reported == None then 1 else reported.value;
        ok := code == 0;
    }

    /** The body of the `for` loop of `_run_steps`, up to the appended result. */
    method RunStep(step: PipelineStep, exec: Exec, deadline: real) returns (late: bool, ok: bool, r: StepResult)
      requires Ticking(c)
      modifies `pos
      ensures late <==> c.at(old(pos) + 1) > deadline
      ensures late ==> pos == old(pos) + 2
      ensures !late ==>
                var ran := RunExec(c, exec, deadline, old(pos) + 2);
                ok == ran.ok && pos == ran.pos + 1
                && r == StepResult(step.name, ran.code, c.at(ran.pos) - c.at(old(pos)))
    {
      hide RunExec, Ticking;
      var start := Monotonic();
      var check := Monotonic();
      late, ok, r := check > deadline, false, StepResult(step.name, 124, 0.0);
      if !late {
        var code;
        ok, code := RunOne(exec, deadline);
        var end := Monotonic();
        r := StepResult(step.name, code, end - start);
      }
    }

    /** The `for` loop of `_run_steps`, after the checkout. */
    method RunEach(steps: seq<PipelineStep>, deadline: real) returns (result: ExecutionResult)
      requires Ticking(c)
      modifies `pos
      ensures result == RunFrom(c, d, steps, deadline, [], [], old(pos)).result
      ensures pos == RunFrom(c, d, steps, deadline, [], [], old(pos)).pos
    {
      hide RunExec, Ticking;
      var results: seq<StepResult> := [];
      ghost var starts: seq<nat> := [];
      for i := 0 to |steps|
        invariant |results| == i
        invariant RunFrom(c, d, steps, deadline, [], [], old(pos)) ==
                  RunFrom(c, d, steps, deadline, results, starts, pos)
      {
        var step := steps[i];
        starts := starts + [pos];
        var late, ok, r := RunStep(step, d.execs(i + 1), deadline);
        if late {
          return ExecutionResult(124, Some(step.name), false, results, Some("timeout"));
        }
        results := results + [r];
        if !ok && !step.allowFailure {
          return ExecutionResult(r.exitCode, Some(step.name), true, results, None);
        }
      }
      result := ExecutionResult(0, None, false, results, None);
    }

    method RunSteps(p: Pipeline) returns (result: ExecutionResult)
      requires Ticking(c) && d.pulls
      modifies `pos
      ensures result == Evaluate(c, d, p, old(pos)).result && pos == Evaluate(c, d, p, old(pos)).pos
    {
      hide RunExec, RunFrom, Ticking;
      if !d.starts {
        return ExecutionResult(1, None, false, [], Some("container_start_failed"));
      }
      var now := Monotonic();
      var deadline := now + p.timeoutSeconds;
      var ok, code := RunOne(d.execs(0), deadline);
      if !ok {
        return ExecutionResult(code, Some("checkout"), false, [], Some("checkout_failed"));
      }
      result := RunEach(p.steps, deadline);
    }

    /** `run_pipeline` computes the evaluation of the pipeline. */
    method RunPipeline(p: Pipeline) returns (result: ExecutionResult)
      requires Ticking(c)
      modifies `pos
      ensures result == Evaluate(c, d, p, old(pos)).result && pos == Evaluate(c, d, p, old(pos)).pos
    {
      if !d.pulls {
        return ExecutionResult(1, None, false, [], Some("image_pull_failed"));
      }
      result := RunSteps(p);
    }
  }
}
