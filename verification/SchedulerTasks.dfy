/** Which tasks are asked to cancel, and what a submission records. */
module SchedulerTasks {
  import opened Prelude
  import opened Scheduler
  import opened SchedulerDispatch
  import opened SchedulerRuns
  import opened SchedulerOnePass
  import opened SchedulerVictims
  import L = SchedulerLimits

  // ---- who is asked to cancel ----------------------------------------------------------

  /** `cancel_turn` asks every unfinished task of a job of the turn to cancel, started or not, and touches no other. */
  lemma CancelTurnAsks(cfg: Config, s: State, turn: int, i: nat)
    requires Refs(s) && i < |s.running|
    ensures var r := Apply(cfg, s, CancelTurnOf(turn)).running;
      && |r| == |s.running|
      && r[i].task == s.running[i].task && r[i].job == s.running[i].job && r[i].phase == s.running[i].phase
      && r[i].cancelRequested
         == (s.running[i].cancelRequested
             || (s.jobs[s.running[i].job].turn == Some(turn) && s.running[i].phase != Finished))
  {
    var t := Apply(cfg, s, CancelTurnOf(turn));
    assert t.running == CancelJobs(s.running, TurnJobs(s.jobs, turn));
    assert s.running[i].job in TurnJobs(s.jobs, turn) <==> s.jobs[s.running[i].job].turn == Some(turn);
  }

  /** So does a submitter that has gone, for its own job. */
  lemma SubmitterGoneAsks(cfg: Config, s: State, j: nat, i: nat)
    requires Refs(s) && i < |s.running| && j < |s.jobs| && s.jobs[j].future != Pending
    ensures var r := Apply(cfg, s, SubmitterGone(j)).running;
      && |r| == |s.running|
      && r[i].task == s.running[i].task && r[i].job == s.running[i].job && r[i].phase == s.running[i].phase
      && r[i].cancelRequested
         == (s.running[i].cancelRequested || (s.running[i].job == j && s.running[i].phase != Finished))
  {
  }

  /** So does a preemption, for its victim; a task that the turn of the worker creates for another job is not asked. */
  lemma VictimIsAsked(cfg: Config, steps: seq<Step>, i: nat)
    requires i < |Apply(cfg, Run(cfg, EMPTY, steps), Work).running|
    ensures var s := Waking(cfg, steps);
      var u := Admitted(cfg, s);
      var r := Apply(cfg, Run(cfg, EMPTY, steps), Work).running;
      && |r| == |u.running|
      && r[i].task == u.running[i].task && r[i].job == u.running[i].job && r[i].phase == u.running[i].phase
      && r[i].cancelRequested == (u.running[i].cancelRequested || Marked(u) == Some(r[i].job))
  {
    var s := Waking(cfg, steps);
    WakingReady(cfg, steps);
    AdmittedGrows(cfg, s);
    DispatchIsOnePass(cfg, s);
    UnfinishedAfter(s, Admitted(cfg, s), i);
  }

  lemma UnfinishedAfter(s: State, u: State, i: nat)
    requires Ready(s) && Grown(s, u) && i < |u.running|
    ensures u.running[i].phase != Finished
    ensures i < |s.running| ==> u.running[i] == s.running[i]
    ensures i >= |s.running| ==> !u.running[i].cancelRequested
  {
    if i >= |s.running| {
      assert NewSlot(s, u, u.running[i]);
    }
  }

  // ---- a request stands until the task has finished ------------------------------------

  /** Task `t` is in the running map, has not finished, and has been asked to cancel. */
  ghost predicate Asked(running: seq<Slot>, t: nat) {
    exists k :: 0 <= k < |running| && running[k].task == t && running[k].cancelRequested && running[k].phase != Finished
  }

  ghost predicate HasFinished(running: seq<Slot>, t: nat) {
    exists k :: 0 <= k < |running| && running[k].task == t && running[k].phase == Finished
  }

  lemma AskedAt(running: seq<Slot>, k: nat, t: nat)
    requires k < |running| && running[k].task == t && (running[k].cancelRequested || running[k].phase == Finished)
    ensures Asked(running, t) || HasFinished(running, t)
  {
  }

  lemma {:induction false} DispatchKeepsAsked(cfg: Config, s: State, k: nat)
    requires Refs(s) && k < |s.running| && s.running[k].cancelRequested
    ensures var r := Dispatch(cfg, s).running;
      |s.running| <= |r| && r[k] == s.running[k]
    decreases |s.queue|
  {
    if s.queue != [] && Scan(cfg, s, Candidates(cfg, s)).Take? {
      var j := Scan(cfg, s, Candidates(cfg, s)).job;
      ScanTakesQueued(cfg, s);
      DispatchKeepsAsked(cfg, Admit(cfg, s, j), k);
    }
  }

  lemma WorkKeepsAsked(cfg: Config, s: State, t: nat)
    requires Refs(s) && Asked(s.running, t)
    ensures Asked(Apply(cfg, s, Work).running, t)
  {
    ReapRefs(s);
    UnfinishedMembers(s.running);
    var i :| 0 <= i < |s.running| && s.running[i].task == t && s.running[i].cancelRequested
             && s.running[i].phase != Finished;
    assert s.running[i] in Unfinished(s.running);
    var k :| 0 <= k < |Reap(s).running| && Reap(s).running[k] == s.running[i];
    DispatchKeepsAsked(cfg, Reap(s), k);
  }

  lemma StepKeepsAsked(cfg: Config, s: State, step: Step, t: nat)
    requires Refs(s) && Asked(s.running, t)
    ensures var r := Apply(cfg, s, step).running; Asked(r, t) || HasFinished(r, t)
  {
    if step.Work? {
      WorkKeepsAsked(cfg, s, t);
    } else {
      var k :| 0 <= k < |s.running| && s.running[k].task == t && s.running[k].cancelRequested
               && s.running[k].phase != Finished;
      KeptAt(cfg, s, step, k);
      AskedAt(Apply(cfg, s, step).running, k, t);
    }
  }

  lemma KeptAt(cfg: Config, s: State, step: Step, k: nat)
    requires Refs(s) && !step.Work? && k < |s.running| && s.running[k].cancelRequested
    ensures var r := Apply(cfg, s, step).running;
      k < |r| && r[k].task == s.running[k].task && r[k].cancelRequested
  {
    match step
    case Tick(_) =>
    case SubmitJob(_, _, _) =>
    case FirstStep(_) =>
    case EndTask(_, _) =>
    case CancelTurnOf(_) =>
    case AwaitCancelled(_) =>
    case SubmitterGone(_) =>
  }

  /** Over any run, a task that has been asked to cancel stays asked, in the running map, until it has finished. */
  lemma {:induction false} AskedUntilFinished(cfg: Config, s: State, steps: seq<Step>, t: nat) returns (n: nat)
    requires Refs(s) && Asked(s.running, t)
    ensures n <= |steps|
    ensures Asked(Run(cfg, s, steps).running, t) || HasFinished(Run(cfg, s, steps[..n]).running, t)
    decreases |steps|
  {
    if steps == [] {
      n := 0;
    } else {
      var s1 := Apply(cfg, s, steps[0]);
      StepKeepsAsked(cfg, s, steps[0], t);
      if Asked(s1.running, t) {
        var m := AskedUntilFinished(cfg, s1, steps[1..], t);
        n := m + 1;
        assert steps[..n][1..] == steps[1..][..m];
      } else {
        n := 1;
        assert steps[..1][1..] == [];
      }
    }
  }

  // ---- what a submission records -------------------------------------------------------

  /** The record at the returned seq is what was submitted, for good: over any run its priority, purity and turn
      stay. */
  lemma SubmittedAs(cfg: Config, s: State, prio: int, isPure: bool, turn: Option<int>, after: seq<Step>)
    requires Refs(s)
    ensures var s1 := Apply(cfg, s, SubmitJob(prio, isPure, turn));
      var j := |s.jobs|;
      && |s1.jobs| == j + 1 && s1.queue == s.queue + [j] && s1.jobs[..j] == s.jobs
      && s1.jobs[j].future == Pending && s1.jobs[j].enqueuedAt == s.clock && s1.jobs[j].preemptCount == 0
      && var job := Run(cfg, s1, after).jobs[j];
         job.prio == prio && job.isPure == isPure && job.turn == turn
  {
  }

  /** An effectful submission, or one of prio 0 or 1, is started at most once and never preempted, over any run. */
  lemma EffectfulRunsOnce(cfg: Config, before: seq<Step>, prio: int, isPure: bool, turn: Option<int>, after: seq<Step>)
    requires !isPure || prio < 2
    ensures var s := Run(cfg, EMPTY, before);
      var s' := Run(cfg, Apply(cfg, s, SubmitJob(prio, isPure, turn)), after);
      var j := |s.jobs|;
      && j < |s'.jobs| && L.Starts(s'.picks, j) <= 1 && s'.jobs[j].preemptCount == 0 && j !in s'.preempting
  {
    var s := Run(cfg, EMPTY, before);
    var step := SubmitJob(prio, isPure, turn);
    SubmittedAs(cfg, s, prio, isPure, turn, after);
    RunAppend(cfg, EMPTY, before, [step] + after);
    assert ([step] + after)[1..] == after;
    L.AtMostOnce(cfg, before + ([step] + after), |s.jobs|);
    RunPlaced(cfg, EMPTY, before + ([step] + after));
  }

  // ---- order, admission and victims in plain numbers -----------------------------------

  /** A slot is open to job `j`: any free one for a chat, one beyond the reserve for any other job. */
  predicate HasSlot(cfg: Config, s: State, j: nat) {
    j < |s.jobs| && cfg.slots - |s.running| >= if s.jobs[j].prio == 0 then 1 else cfg.reserved + 1
  }

  /** The sort key of `a` is at most that of `b`. */
  predicate NotAfter(cfg: Config, s: State, a: nat, b: nat) {
    a < |s.jobs| && b < |s.jobs|
    && var la, lb := EffectivePrio(cfg, s.jobs[a], s.clock), EffectivePrio(cfg, s.jobs[b], s.clock);
       la < lb || (la == lb && a <= b)
  }

  /** What one iteration of the loop chooses, in terms of prio, level, seq and free slots. */
  lemma ChoiceInNumbers(cfg: Config, s: State)
    requires Refs(s)
    ensures var choice := Scan(cfg, s, Candidates(cfg, s));
      && (choice.Take? ==>
            choice.job in s.queue && HasSlot(cfg, s, choice.job)
            && forall x: nat :: x in s.queue && HasSlot(cfg, s, x) ==> NotAfter(cfg, s, choice.job, x))
      && (choice.Nothing? ==> forall x: nat :: x in s.queue ==> !HasSlot(cfg, s, x))
      && (choice.Evict? ==>
            cfg.slots - |s.running| < 1 && ChatQueued(s)
            && CanBeVictim(s, choice.victim) && forall x: nat :: CanBeVictim(s, x) ==> x <= choice.victim)
  {
    IterationJustified(cfg, s);
    var choice := Scan(cfg, s, Candidates(cfg, s));
    ScanTakesQueued(cfg, s);
    forall x: nat | x in s.queue && HasSlot(cfg, s, x)
      ensures !choice.Nothing? && (choice.Take? ==> NotAfter(cfg, s, choice.job, x))
    {
      var i :| 0 <= i < |s.queue| && s.queue[i] == x;
      assert Eligible(cfg, s, s.queue[i]);
    }
    if choice.Evict? {
      NewestInNumbers(s);
    }
  }

  ghost predicate ChatQueued(s: State) {
    exists i :: 0 <= i < |s.queue| && s.queue[i] < |s.jobs| && s.jobs[s.queue[i]].prio == 0
  }

  /** In the running map, pure, of prio 2 or more, and not yet marked. */
  ghost predicate CanBeVictim(s: State, v: nat) {
    && v < |s.jobs| && s.jobs[v].isPure && s.jobs[v].prio >= 2 && v !in s.preempting
    && exists i :: 0 <= i < |s.running| && s.running[i].job == v
  }

  lemma NewestInNumbers(s: State)
    requires Refs(s)
    ensures var v := Newest(s, s.running);
      if v.Some? then CanBeVictim(s, v.value) && forall x: nat :: CanBeVictim(s, x) ==> x <= v.value
      else forall x: nat :: !CanBeVictim(s, x)
  {
    var v := Newest(s, s.running);
    if v.Some? {
      var i :| 0 <= i < |s.running| && s.running[i].job == v.value && Victimizable(s, s.running[i]);
    }
    forall x: nat | CanBeVictim(s, x)
      ensures v.Some? && x <= v.value
    {
      var i :| 0 <= i < |s.running| && s.running[i].job == x;
      assert Victimizable(s, s.running[i]);
    }
  }

  /** When a turn of the worker is over: no chat waits beside a free slot and, unless it preempted with a negative
      reserve, no other job waits beside more free slots than the reserve. */
  lemma NobodyWaitsInVain(cfg: Config, s: State, x: nat)
    requires Refs(s) && x in Dispatch(cfg, s).queue && x < |s.jobs|
    ensures var r := Dispatch(cfg, s);
      var free := cfg.slots - |r.running|;
      && (s.jobs[x].prio == 0 ==> free < 1)
      && (s.jobs[x].prio != 0 && (cfg.reserved >= 0 || r.preempting == s.preempting) ==> free <= cfg.reserved)
  {
    DispatchConservesWork(cfg, s);
    var r := Dispatch(cfg, s);
    var i :| 0 <= i < |r.queue| && r.queue[i] == x;
    assert r.jobs == s.jobs;
    assert Quiet(cfg, r, 0 <= cfg.reserved || r.preempting == s.preempting);
  }

  /** The slots that a pick records are those free at that moment: one fewer for each task created since. */
  lemma {:induction false} PicksRecordSlots(cfg: Config, s: State, k: nat)
    requires Refs(s) && |s.picks| <= k < |Dispatch(cfg, s).picks|
    ensures var picks := Dispatch(cfg, s).picks;
      && picks[k].free == cfg.slots - |s.running| - TasksMade(picks, |s.picks|, k)
      && picks[k].job < |s.jobs| && (picks[k].started <==> s.jobs[picks[k].job].future == Pending)
    decreases |s.queue|
  {
    DispatchPicks(cfg, s);
    if s.queue != [] && Scan(cfg, s, Candidates(cfg, s)).Take? {
      var j := Scan(cfg, s, Candidates(cfg, s)).job;
      ScanTakesQueued(cfg, s);
      var s1 := Admit(cfg, s, j);
      DispatchPicks(cfg, s1);
      assert s1.picks[|s.picks|] == Pick(j, Free(cfg, s), s.jobs[j].future == Pending);
      if k > |s.picks| {
        PicksRecordSlots(cfg, s1, k);
      }
    }
  }

  /** How many of the picks from `from` up to `to` got a task. */
  function TasksMade(picks: seq<Pick>, from: nat, to: nat): nat
    requires to <= |picks|
    decreases if from < to then to - from else 0
  {
    if from >= to then 0 else (if picks[from].started then 1 else 0) + TasksMade(picks, from + 1, to)
  }
}
