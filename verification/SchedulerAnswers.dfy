/** What a submitter gets back: over every run its own factory's answer or a cancellation, once. */
module SchedulerAnswers {
  import opened Prelude
  import opened Scheduler
  import opened SchedulerDispatch
  import opened SchedulerRuns
  import L = SchedulerLimits

  /** How the future of `j` is settled when its factory ends with `outcome` at a moment when it is pending. */
  function Answer(outcome: Outcome): Future {
    match outcome
    case Returned(v) => Result(v)
    case Raised(e) => Failed(e)
    case CancelRaised => Cancelled
  }

  /** The step is the end of a started task of `j` that is not a preemption. */
  predicate Completes(s: State, step: Step, j: nat) {
    && step.EndTask? && step.i < |s.running|
    && s.running[step.i].phase == Started && s.running[step.i].job == j
    && !(step.outcome.CancelRaised? && j in s.preempting)
  }

  /** The step cancels the future of `j`: through its turn while it is queued, or through its submitter. */
  predicate Withdraws(s: State, step: Step, j: nat) {
    || (step.CancelTurnOf? && j in s.queue && OfTurn(s.jobs, j, step.turnId))
    || (step.AwaitCancelled? && step.j == j)
  }

  /** One step settles a pending future exactly if it completes or withdraws the job, and a done one never changes. */
  lemma StepAnswers(cfg: Config, s: State, step: Step, j: nat)
    requires Refs(s) && j < |s.jobs|
    ensures Apply(cfg, s, step).jobs[j].future
         == if s.jobs[j].future != Pending then s.jobs[j].future
            else if Completes(s, step, j) then Answer(step.outcome)
            else if Withdraws(s, step, j) then Cancelled
            else Pending
  {
    match step
    case Work => ReapRefs(s);
    case Tick(_) =>
    case SubmitJob(_, _, _) =>
    case FirstStep(_) =>
    case EndTask(_, _) =>
    case CancelTurnOf(_) =>
    case AwaitCancelled(_) =>
    case SubmitterGone(_) =>
  }

  /** Nobody is answered twice: a future that is done never changes. */
  lemma {:induction false} AnswerIsFinal(cfg: Config, s: State, steps: seq<Step>, j: nat)
    requires Refs(s) && j < |s.jobs| && s.jobs[j].future != Pending
    ensures Run(cfg, s, steps).jobs[j].future == s.jobs[j].future
    decreases |steps|
  {
    if steps != [] {
      StepAnswers(cfg, s, steps[0], j);
      AnswerIsFinal(cfg, Apply(cfg, s, steps[0]), steps[1..], j);
    }
  }

  /** Step `k` of a run gave job `j` its answer. */
  ghost predicate AnsweredAt(cfg: Config, s: State, steps: seq<Step>, k: nat, j: nat, answer: Future)
    requires Refs(s)
  {
    && k < |steps|
    && var now := Run(cfg, s, steps[..k]);
       || (Completes(now, steps[k], j) && answer == Answer(steps[k].outcome))
       || (Withdraws(now, steps[k], j) && answer == Cancelled)
  }

  lemma AnsweredLater(cfg: Config, s: State, steps: seq<Step>, k: nat, j: nat, answer: Future)
    requires Refs(s) && steps != [] && AnsweredAt(cfg, Apply(cfg, s, steps[0]), steps[1..], k, j, answer)
    ensures AnsweredAt(cfg, s, steps, k + 1, j, answer)
  {
    assert steps[..k + 1][1..] == steps[1..][..k];
  }

  lemma {:induction false} AnsweredFrom(cfg: Config, s: State, steps: seq<Step>, j: nat) returns (k: nat)
    requires Refs(s) && (j < |s.jobs| ==> s.jobs[j].future == Pending)
    requires var s' := Run(cfg, s, steps); j < |s'.jobs| && s'.jobs[j].future != Pending
    ensures AnsweredAt(cfg, s, steps, k, j, Run(cfg, s, steps).jobs[j].future)
    decreases |steps|
  {
    var s1 := Apply(cfg, s, steps[0]);
    if j < |s.jobs| {
      StepAnswers(cfg, s, steps[0], j);
    } else {
      NewIsPending(cfg, s, steps[0], j);
    }
    if j < |s1.jobs| && s1.jobs[j].future != Pending {
      AnswerIsFinal(cfg, s1, steps[1..], j);
      assert steps[..0] == [];
      k := 0;
    } else {
      k := AnsweredFrom(cfg, s1, steps[1..], j);
      AnsweredLater(cfg, s, steps, k, j, Run(cfg, s, steps).jobs[j].future);
      k := k + 1;
    }
  }

  lemma NewIsPending(cfg: Config, s: State, step: Step, j: nat)
    requires Refs(s) && |s.jobs| <= j
    ensures j < |Apply(cfg, s, step).jobs| ==> Apply(cfg, s, step).jobs[j].future == Pending
  {
    match step
    case Work => ReapRefs(s);
    case SubmitJob(_, _, _) =>
    case _ =>
  }

  /** Every answer is the submitter's own: in every run, a future that is done was settled by a step that ended a
      started task of that very job, with that outcome, or that cancelled it through its turn or its submitter. */
  lemma AnswerIsOwn(cfg: Config, steps: seq<Step>, j: nat)
    requires var s := Run(cfg, EMPTY, steps); j < |s.jobs| && s.jobs[j].future != Pending
    ensures exists k :: AnsweredAt(cfg, EMPTY, steps, k, j, Run(cfg, EMPTY, steps).jobs[j].future)
  {
    var k := AnsweredFrom(cfg, EMPTY, steps, j);
  }

  // ---- preemption and aging ------------------------------------------------------------

  /** The step delivers a preemption to the started task of `j`. */
  predicate Preempts(s: State, step: Step, j: nat) {
    && step.EndTask? && step.outcome.CancelRaised? && step.i < |s.running|
    && s.running[step.i].phase == Started && s.running[step.i].job == j && j in s.preempting
  }

  predicate Creates(s: State, step: Step, j: nat) { step.SubmitJob? && j == |s.jobs| }

  /** How many preemptions a run delivers to `j`. */
  function Preemptions(cfg: Config, s: State, steps: seq<Step>, j: nat): nat
    requires Refs(s)
    decreases |steps|
  {
    if steps == [] then 0
    else (if Preempts(s, steps[0], j) then 1 else 0) + Preemptions(cfg, Apply(cfg, s, steps[0]), steps[1..], j)
  }

  /** When a run last put `j` into the queue; `at` is when that was before the run. */
  function LastQueued(cfg: Config, s: State, steps: seq<Step>, j: nat, at: real): real
    requires Refs(s)
    decreases |steps|
  {
    if steps == [] then at
    else
      var now := if Preempts(s, steps[0], j) || Creates(s, steps[0], j) then s.clock else at;
      LastQueued(cfg, Apply(cfg, s, steps[0]), steps[1..], j, now)
  }

  lemma StepQueues(cfg: Config, s: State, step: Step, j: nat)
    requires Refs(s) && j < |s.jobs|
    ensures var job, job' := s.jobs[j], Apply(cfg, s, step).jobs[j];
      if Preempts(s, step, j) then job'.preemptCount == job.preemptCount + 1 && job'.enqueuedAt == s.clock
      else job'.preemptCount == job.preemptCount && job'.enqueuedAt == job.enqueuedAt
  {
    match step
    case Work => ReapRefs(s);
    case Tick(_) =>
    case SubmitJob(_, _, _) =>
    case FirstStep(_) =>
    case EndTask(_, _) =>
    case CancelTurnOf(_) =>
    case AwaitCancelled(_) =>
    case SubmitterGone(_) =>
  }

  lemma NewIsQueued(cfg: Config, s: State, step: Step, j: nat)
    requires Refs(s) && |s.jobs| <= j
    ensures !Preempts(s, step, j)
    ensures var jobs' := Apply(cfg, s, step).jobs;
      && (j < |jobs'| <==> Creates(s, step, j))
      && (j < |jobs'| ==> jobs'[j].preemptCount == 0 && jobs'[j].enqueuedAt == s.clock)
  {
    match step
    case Work => ReapRefs(s);
    case Tick(_) =>
    case SubmitJob(_, _, _) =>
    case FirstStep(_) =>
    case EndTask(_, _) =>
    case CancelTurnOf(_) =>
    case AwaitCancelled(_) =>
    case SubmitterGone(_) =>
  }

  lemma {:induction false} QueuedFrom(cfg: Config, s: State, steps: seq<Step>, j: nat, count: nat, at: real)
    requires Refs(s)
    requires if j < |s.jobs| then s.jobs[j].preemptCount == count && s.jobs[j].enqueuedAt == at else count == 0
    ensures var s' := Run(cfg, s, steps);
      j < |s'.jobs| ==> s'.jobs[j].preemptCount == count + Preemptions(cfg, s, steps, j)
                        && s'.jobs[j].enqueuedAt == LastQueued(cfg, s, steps, j, at)
    decreases |steps|
  {
    if steps != [] {
      var s1 := Apply(cfg, s, steps[0]);
      var preempted := Preempts(s, steps[0], j);
      if j < |s.jobs| {
        StepQueues(cfg, s, steps[0], j);
      } else {
        NewIsQueued(cfg, s, steps[0], j);
      }
      var now := if preempted || Creates(s, steps[0], j) then s.clock else at;
      QueuedFrom(cfg, s1, steps[1..], j, count + if preempted then 1 else 0, now);
    }
  }

  /** In every run, a job's preemption count is the number of preemptions delivered to it, and its aging is measured
      from the last time it was queued: its submission or its last preemption, and nothing else. */
  lemma AgingRestarts(cfg: Config, steps: seq<Step>, j: nat)
    ensures var s := Run(cfg, EMPTY, steps);
      j < |s.jobs| ==> s.jobs[j].preemptCount == Preemptions(cfg, EMPTY, steps, j)
                       && s.jobs[j].enqueuedAt == LastQueued(cfg, EMPTY, steps, j, 0.0)
  {
    QueuedFrom(cfg, EMPTY, steps, j, 0, 0.0);
  }

  /** A preempted job starts over: it is queued last, as pending as before; and while it waits, over any run, its level
      is its priority less the whole aging periods since the preemption, however long it had waited before that. */
  lemma PreemptedStartsOver(cfg: Config, s: State, i: nat, wait: seq<Step>, k: nat)
    requires Placed(s) && i < |s.running| && s.running[i].phase == Started && s.running[i].job in s.preempting
    requires var s1 := Apply(cfg, s, EndTask(i, CancelRaised));
      var s' := Run(cfg, s1, wait);
      && L.Waits(cfg, s1, wait, s.running[i].job)
      && k as real * cfg.agingS <= s'.clock - s.clock < (k + 1) as real * cfg.agingS
    ensures var j := s.running[i].job;
      var s1 := Apply(cfg, s, EndTask(i, CancelRaised));
      var s' := Run(cfg, s1, wait);
      && s1.queue == s.queue + [j] && j !in s1.preempting
      && s1.jobs[j].future == s.jobs[j].future && s1.jobs[j].preemptCount == s.jobs[j].preemptCount + 1
      && EffectivePrio(cfg, s'.jobs[j], s'.clock) == if s.jobs[j].prio > k then s.jobs[j].prio - k else 0
  {
    var j := s.running[i].job;
    var s1 := Apply(cfg, s, EndTask(i, CancelRaised));
    StepPlaced(cfg, s, EndTask(i, CancelRaised));
    L.WaiterAges(cfg, s1, wait, j);
    var s' := Run(cfg, s1, wait);
    AgingLevels(cfg, s'.jobs[j], s'.clock, k);
  }
}
