/** From the execution of a pipeline to the verdict on its job. */
module Verdicts {
  import opened Options
  import opened Records
  import opened JobLife
  import opened Protocol
  import opened Database
  import opened Guarantees
  import opened Executor

  /** `Worker._execute` and `_report`: a configuration that does not parse is
      reported as a permanent failure without running anything. */
  ghost function WorkerReport(c: Clock, d: Docker, parsed: Option<Pipeline>, pos: nat): Report
    requires Ticking(c)
  {
    match parsed
    case None => Report(1, true, Some("pipeline_parse"))
    case Some(p) =>
      var r := Evaluate(c, d, p, pos).result;
      Report(r.exitCode, r.permanent, r.failedStep)
  }

  /** What the worker reports, told by the inputs of the execution. */
  lemma ReportExplained(c: Clock, d: Docker, parsed: Option<Pipeline>, pos: nat)
    requires Ticking(c)
    ensures var r := WorkerReport(c, d, parsed, pos);
            match parsed
            case None => r == Report(1, true, Some("pipeline_parse"))
            case Some(p) =>
              && (!d.pulls || !d.starts ==> r == Report(1, false, None))
              && (d.pulls && d.starts ==>
                    match CheckoutCause(c, d, p, pos)
                    case Some(cause) => r == Report(CodeOf(cause), false, Some("checkout"))
                    case None => CheckoutOk(c, d, p, pos))
              && (StepsPassed(c, d, p, pos) ==> r == Report(0, false, None))
              && (forall n: nat :: LateForStep(c, d, p, pos, n) ==>
                    n < |p.steps| && r == Report(124, false, Some(p.steps[n].name)))
              && (forall n: nat, cause :: FatalStep(c, d, p, pos, n, cause) ==>
                    n < |p.steps| && r == Report(CodeOf(cause), true, Some(p.steps[n].name)))
  {
    if parsed.Some? {
      var p := parsed.value;
      ExecOkIff(c, d.execs(0), c.at(pos) + p.timeoutSeconds, pos + 1);
      InfraErrorIff(c, d, p, pos);
      PermanentIff(c, d, p, pos);
      LateEnding(c, d, p, pos);
      SuccessIff(c, d, p, pos);
      EvaluationExplained(c, d, p, pos);
      FatalIsStep(c, d, p, pos);
      hide RunExec, FailureCause, StepsPassed, LateForStep, FatalStep, RunFrom, Reach;
      if StepsPassed(c, d, p, pos) {
        PassedHasNoStep(c, d, p, pos);
      }
    }
  }

  lemma PassedHasNoStep(c: Clock, d: Docker, p: Pipeline, pos: nat)
    requires Ticking(c) && StepsPassed(c, d, p, pos)
    ensures var r := Evaluate(c, d, p, pos).result; r.exitCode == 0 && !r.permanent && r.failedStep == None
  {
    SuccessIff(c, d, p, pos);
    EvaluationExplained(c, d, p, pos);
    hide Evaluate;
  }

  /** Some step was reached in time and run to a failure, for whatever cause, that
      it was not allowed. */
  ghost predicate StepFailed(c: Clock, d: Docker, p: Pipeline, pos: nat)
    requires Ticking(c)
  {
    exists n, cause :: FatalStep(c, d, p, pos, n, cause)
  }

  /** End to end: when the report of an execution is accepted, the job SUCCEEDED
      if and only if checkout and every step passed, FAILED if and only if the
      configuration was invalid or a step failed that was not allowed to, and is
      otherwise retried, or ERRORED once its budget is spent. */
  lemma VerdictOfExecution(e: Env, s: State, id: AttemptId, token: string,
                           c: Clock, d: Docker, parsed: Option<Pipeline>, pos: nat)
    requires DbInv(e.cfg, s.db) && Accepts(e, s, id, token) && Ticking(c)
    ensures var s' := CompleteStep(e, s, id, token, WorkerReport(c, d, parsed, pos));
            && id.job in s'.db.jobs
            && var status := s'.db.jobs[id.job].status;
               && (status == JobSucceeded <==> parsed.Some? && StepsPassed(c, d, parsed.value, pos))
               && (status == JobFailed <==> parsed.None? || StepFailed(c, d, parsed.value, pos))
               && (status != JobSucceeded && status != JobFailed ==>
                     status == if id.row + 1 < e.cfg.maxJobAttempts then JobQueued else JobErrored)
               && (status == JobErrored ==> |s'.db.jobs[id.job].attempts| == Budget(e.cfg))
  {
    var report := WorkerReport(c, d, parsed, pos);
    var job := s.db.jobs[id.job];
    assert JobInv(e.cfg, job);
    ActiveIsLast(e.cfg, job, id.row);
    CompletionMoves(e, s, id, token, report, id.job);
    StepKeepsDb(e, s, CompleteAttempt(id, token, report));
    if parsed.Some? {
      SuccessIff(c, d, parsed.value, pos);
      PermanentIff(c, d, parsed.value, pos);
      NotBoth(c, d, parsed.value, pos);
    }
    hide BackoffSeconds, Evaluate, StepsPassed, FatalStep, EndsAs;
    var s' := CompleteStep(e, s, id, token, report);
    if s'.db.jobs[id.job].status == JobErrored {
      ErroredSpentBudget(e.cfg, s'.db, id.job);
    }
  }

  lemma NotBoth(c: Clock, d: Docker, p: Pipeline, pos: nat)
    requires Ticking(c)
    ensures var r := Evaluate(c, d, p, pos).result; r.exitCode == 0 ==> !r.permanent
  {
    EvaluationExplained(c, d, p, pos);
  }
}
