/** Bounds over every run: slots in use, starts of one job, and jobs that pass an aged one. */
module SchedulerLimits {
  import opened Prelude
  import opened Scheduler
  import opened SchedulerDispatch
  import opened SchedulerRuns

  // ---- capacity ------------------------------------------------------------------------

  /** How many running entries are background jobs. */
  function Background(jobs: seq<Job>, running: seq<Slot>): (n: nat)
    requires forall i :: 0 <= i < |running| ==> running[i].job < |jobs|
    ensures n <= |running|
  {
    if running == [] then 0
    else (if IsChat(jobs[running[0].job]) then 0 else 1) + Background(jobs, running[1..])
  }

  lemma {:induction false} BackgroundSnoc(jobs: seq<Job>, running: seq<Slot>, slot: Slot)
    requires forall i :: 0 <= i < |running| ==> running[i].job < |jobs|
    requires slot.job < |jobs|
    ensures Background(jobs, running + [slot])
         == Background(jobs, running) + if IsChat(jobs[slot.job]) then 0 else 1
  {
    if running == [] {
      assert [slot][1..] == [];
      assert running + [slot] == [slot];
    } else {
      assert (running + [slot])[1..] == running[1..] + [slot];
      BackgroundSnoc(jobs, running[1..], slot);
    }
  }

  /** The count depends on which jobs run and on their prio only. */
  lemma {:induction false} BackgroundSame(jobs: seq<Job>, running: seq<Slot>, jobs': seq<Job>, running': seq<Slot>)
    requires forall i :: 0 <= i < |running| ==> running[i].job < |jobs|
    requires |running'| == |running| && forall i :: 0 <= i < |running| ==> running'[i].job == running[i].job
    requires |jobs| <= |jobs'| && forall j :: 0 <= j < |jobs| ==> jobs'[j].prio == jobs[j].prio
    ensures Background(jobs', running') == Background(jobs, running)
  {
    if running != [] {
      assert running'[0].job == running[0].job;
      BackgroundSame(jobs, running[1..], jobs', running'[1..]);
    }
  }

  lemma {:induction false} BackgroundReaped(jobs: seq<Job>, running: seq<Slot>)
    requires forall i :: 0 <= i < |running| ==> running[i].job < |jobs|
    ensures |Unfinished(running)| <= |running|
    ensures forall i :: 0 <= i < |Unfinished(running)| ==> Unfinished(running)[i].job < |jobs|
    ensures Background(jobs, Unfinished(running)) <= Background(jobs, running)
  {
    if running != [] {
      var rest := Unfinished(running[1..]);
      BackgroundReaped(jobs, running[1..]);
      if running[0].phase == Finished {
        assert [] + rest == rest;
      } else {
        assert ([running[0]] + rest)[1..] == rest;
      }
    }
  }

  /** The slots bound the running map, and the shared slots bound its background part. With a negative reserve
      the background alone can exceed the slots, by that much. */
  predicate WithinCapacity(cfg: Config, s: State)
    requires Refs(s)
  {
    && Background(s.jobs, s.running) <= cfg.slots - cfg.reserved
    && (|s.running| <= cfg.slots || |s.running| <= cfg.slots - cfg.reserved || s.running == [])
  }

  lemma {:induction false} DispatchWithin(cfg: Config, s: State)
    requires Refs(s) && WithinCapacity(cfg, s)
    ensures WithinCapacity(cfg, Dispatch(cfg, s))
    decreases |s.queue|
  {
    if s.queue != [] {
      var choice := Scan(cfg, s, Candidates(cfg, s));
      IterationJustified(cfg, s);
      match choice
      case Nothing =>
      case Evict(v) => BackgroundSame(s.jobs, s.running, s.jobs, CancelJobs(s.running, {v}));
      case Take(j) =>
        ScanTakesQueued(cfg, s);
        BackgroundSnoc(s.jobs, s.running, Slot(s.tasks, j, Created, false));
        DispatchWithin(cfg, Admit(cfg, s, j));
    }
  }

  lemma StepWithin(cfg: Config, s: State, step: Step)
    requires Refs(s) && WithinCapacity(cfg, s)
    ensures WithinCapacity(cfg, Apply(cfg, s, step))
  {
    if step.Work? {
      ReapRefs(s);
      BackgroundReaped(s.jobs, s.running);
      DispatchWithin(cfg, Reap(s));
    } else {
      var s' := Apply(cfg, s, step);
      OnlyWorkRuns(cfg, s, step);
      BackgroundSame(s.jobs, s.running, s'.jobs, s'.running);
    }
  }

  lemma OnlyWorkRuns(cfg: Config, s: State, step: Step)
    requires Refs(s) && !step.Work?
    ensures var r, r' := s.running, Apply(cfg, s, step).running;
      |r'| == |r| && forall i :: 0 <= i < |r| ==> r'[i].job == r[i].job
  {
    match step
    case Tick(_) =>
    case SubmitJob(_, _, _) =>
    case FirstStep(_) =>
    case EndTask(_, _) =>
    case CancelTurnOf(_) =>
    case AwaitCancelled(_) =>
    case SubmitterGone(_) =>
  }

  lemma {:induction false} RunWithin(cfg: Config, s: State, steps: seq<Step>)
    requires Refs(s) && WithinCapacity(cfg, s)
    ensures WithinCapacity(cfg, Run(cfg, s, steps))
    decreases |steps|
  {
    if steps != [] {
      StepWithin(cfg, s, steps[0]);
      RunWithin(cfg, Apply(cfg, s, steps[0]), steps[1..]);
    }
  }

  /** Capacity: in every reachable state, whatever preemption, requeue and aging do, at most `slots` tasks are in
      the running map (with a negative reserve, at most that many more) and at most `slots - reserved` of them are
      background. */
  lemma Capacity(cfg: Config, steps: seq<Step>)
    ensures var s := Run(cfg, EMPTY, steps);
      && |s.running| <= (if 0 <= cfg.reserved then cfg.slots else cfg.slots - cfg.reserved)
      && Background(s.jobs, s.running) <= cfg.slots - cfg.reserved
  {
    RunWithin(cfg, EMPTY, steps);
  }

  // ---- at most once --------------------------------------------------------------------

  /** How often a task has been created for job `j`. */
  function Starts(picks: seq<Pick>, j: nat): nat {
    if picks == [] then 0
    else
      var last := picks[|picks| - 1];
      Starts(picks[..|picks| - 1], j) + if last.started && last.job == j then 1 else 0
  }

  lemma StartsSnoc(picks: seq<Pick>, p: Pick, j: nat)
    ensures Starts(picks + [p], j) == Starts(picks, j) + if p.started && p.job == j then 1 else 0
  {
    assert (picks + [p])[..|picks|] == picks;
  }

  lemma {:induction false} StartsOfNew(picks: seq<Pick>, j: nat)
    requires forall k :: 0 <= k < |picks| ==> picks[k].job != j
    ensures Starts(picks, j) == 0
  {
    if picks != [] {
      StartsOfNew(picks[..|picks| - 1], j);
    }
  }

  function InQueue(s: State, j: nat): nat { if j in s.queue then 1 else 0 }

  /** Every start but the first answers a preemption; only pure jobs of prio 2 or more are preempted; and a job
      that cancel_turn has named is queued again only if it is one of those. */
  ghost predicate Limited(s: State) {
    && (forall k :: 0 <= k < |s.picks| ==> s.picks[k].job < |s.jobs|)
    && (forall j :: 0 <= j < |s.jobs| ==> Starts(s.picks, j) + InQueue(s, j) <= s.jobs[j].preemptCount + 1)
    && (forall j :: 0 <= j < |s.jobs| && s.jobs[j].preemptCount > 0 ==> Preemptable(s.jobs[j]))
    && (forall j :: j in s.named ==> j < |s.jobs| && (j in s.queue ==> Preemptable(s.jobs[j])))
  }

  lemma AdmitLimited(cfg: Config, s: State, j: nat)
    requires Placed(s) && Limited(s) && j in s.queue && j < |s.jobs|
    ensures Limited(Admit(cfg, s, j))
  {
    var s' := Admit(cfg, s, j);
    WithoutDistinct(s.queue, j);
    forall x | 0 <= x < |s.jobs|
      ensures Starts(s'.picks, x) + InQueue(s', x) <= s'.jobs[x].preemptCount + 1
    {
      StartsSnoc(s.picks, Pick(j, Free(cfg, s), s.jobs[j].future == Pending), x);
    }
  }

  lemma {:induction false} DispatchLimited(cfg: Config, s: State)
    requires Placed(s) && Limited(s)
    requires forall i :: 0 <= i < |s.running| ==> s.running[i].phase != Finished
    ensures Limited(Dispatch(cfg, s))
    decreases |s.queue|
  {
    if s.queue != [] && Scan(cfg, s, Candidates(cfg, s)).Take? {
      var j := Scan(cfg, s, Candidates(cfg, s)).job;
      ScanTakesQueued(cfg, s);
      AdmitLimited(cfg, s, j);
      AdmitPlaced(cfg, s, j);
      DispatchLimited(cfg, Admit(cfg, s, j));
    }
  }

  lemma SubmitLimited(s: State, prio: int, isPure: bool, turn: Option<int>)
    requires Placed(s) && Limited(s)
    ensures Limited(Submit(s, prio, isPure, turn))
  {
    var s' := Submit(s, prio, isPure, turn);
    StartsOfNew(s.picks, |s.jobs|);
    assert forall x :: x in s'.queue <==> x in s.queue || x == |s.jobs|;
  }

  lemma EndLimited(s: State, i: nat, outcome: Outcome)
    requires Placed(s) && Limited(s) && i < |s.running| && s.running[i].phase == Started
    ensures Limited(Handle(WithPhase(s, i, Finished), s.running[i].job, outcome))
  {
    var j := s.running[i].job;
    var s' := Handle(WithPhase(s, i, Finished), j, outcome);
    if outcome.CancelRaised? && j in s.preempting {
      assert forall x :: x in s'.queue <==> x in s.queue || x == j;
    }
  }

  lemma QueueShrinksLimited(s: State, s': State)
    requires Limited(s) && JobsKept(s, s') && |s'.jobs| == |s.jobs| && s'.picks == s.picks
    requires forall x :: x in s'.queue ==> x in s.queue
    requires forall j :: 0 <= j < |s.jobs| ==> s'.jobs[j].preemptCount == s.jobs[j].preemptCount
    requires forall j :: j in s'.named && j !in s.named ==> j < |s.jobs| && j !in s'.queue
    ensures Limited(s')
  {
  }

  lemma CancelTurnLimited(s: State, turn: int)
    requires Limited(s)
    ensures Limited(CancelTurn(s, turn))
  {
    SparedMembers(s.jobs, s.queue, turn);
    QueueShrinksLimited(s, CancelTurn(s, turn));
  }

  lemma RemoveLimited(s: State, j: nat)
    requires Limited(s)
    ensures Limited(Remove(s, j))
  {
    WithoutMembers(s.queue, j);
    QueueShrinksLimited(s, Remove(s, j));
  }

  lemma StepLimited(cfg: Config, s: State, step: Step)
    requires Placed(s) && Limited(s)
    ensures Limited(Apply(cfg, s, step))
  {
    match step
    case SubmitJob(prio, isPure, turn) => SubmitLimited(s, prio, isPure, turn);
    case Work => ReapPlaced(s); DispatchLimited(cfg, Reap(s));
    case EndTask(i, outcome) => if i < |s.running| && s.running[i].phase == Started { EndLimited(s, i, outcome); }
    case CancelTurnOf(turn) => CancelTurnLimited(s, turn);
    case SubmitterGone(j) => RemoveLimited(s, j);
    case Tick(_) =>
    case FirstStep(_) =>
    case AwaitCancelled(j) => if j < |s.jobs| { QueueShrinksLimited(s, Settle(s, j, Cancelled)); }
  }

  lemma {:induction false} RunLimited(cfg: Config, s: State, steps: seq<Step>)
    requires Placed(s) && Limited(s)
    ensures Placed(Run(cfg, s, steps)) && Limited(Run(cfg, s, steps))
    decreases |steps|
  {
    if steps != [] {
      StepPlaced(cfg, s, steps[0]);
      StepLimited(cfg, s, steps[0]);
      RunLimited(cfg, Apply(cfg, s, steps[0]), steps[1..]);
    }
  }

  /** At most once: over any run a job is started at most one time more than it was preempted, and a job that is
      effectful, chat or perception is started at most once and never preempted. */
  lemma AtMostOnce(cfg: Config, steps: seq<Step>, j: nat)
    ensures var s := Run(cfg, EMPTY, steps);
      j < |s.jobs| ==>
        && Starts(s.picks, j) <= s.jobs[j].preemptCount + 1
        && (!Preemptable(s.jobs[j]) ==> Starts(s.picks, j) <= 1 && s.jobs[j].preemptCount == 0)
  {
    RunLimited(cfg, EMPTY, steps);
  }

  lemma {:induction false} NotQueuedNotStarted(cfg: Config, s: State, j: nat)
    requires Refs(s) && j !in s.queue
    ensures Starts(Dispatch(cfg, s).picks, j) == Starts(s.picks, j)
    decreases |s.queue|
  {
    if s.queue != [] && Scan(cfg, s, Candidates(cfg, s)).Take? {
      var x := Scan(cfg, s, Candidates(cfg, s)).job;
      ScanTakesQueued(cfg, s);
      WithoutMembers(s.queue, x);
      StartsSnoc(s.picks, Pick(x, Free(cfg, s), s.jobs[x].future == Pending), j);
      NotQueuedNotStarted(cfg, Admit(cfg, s, x), j);
    }
  }

  lemma NamedNotStarted(cfg: Config, s: State, step: Step, j: nat)
    requires Refs(s) && j !in s.queue
    ensures Starts(Apply(cfg, s, step).picks, j) == Starts(s.picks, j)
  {
    if step.Work? {
      ReapRefs(s);
      NotQueuedNotStarted(cfg, Reap(s), j);
    } else {
      OnlyWorkPicks(cfg, s, step);
    }
  }

  lemma {:induction false} NeverAgainFrom(cfg: Config, s: State, steps: seq<Step>, j: nat)
    requires Placed(s) && Limited(s) && j in s.named && !Preemptable(s.jobs[j])
    ensures Starts(Run(cfg, s, steps).picks, j) == Starts(s.picks, j)
    decreases |steps|
  {
    if steps != [] {
      StepPlaced(cfg, s, steps[0]);
      StepLimited(cfg, s, steps[0]);
      StillbornGrows(cfg, s, steps[0]);
      NamedNotStarted(cfg, s, steps[0], j);
      NeverAgainFrom(cfg, Apply(cfg, s, steps[0]), steps[1..], j);
    }
  }

  /** Once cancel_turn has named the turn of an effectful, chat or perception job, no task is ever created for it
      again, whatever happens afterwards. */
  lemma NeverAfterCancelTurn(cfg: Config, before: seq<Step>, turn: int, after: seq<Step>, j: nat)
    requires var s := Run(cfg, EMPTY, before); OfTurn(s.jobs, j, turn) && !Preemptable(s.jobs[j])
    ensures var s := Run(cfg, EMPTY, before);
      Starts(Run(cfg, Apply(cfg, s, CancelTurnOf(turn)), after).picks, j) == Starts(s.picks, j)
  {
    RunLimited(cfg, EMPTY, before);
    var s := Run(cfg, EMPTY, before);
    StepPlaced(cfg, s, CancelTurnOf(turn));
    StepLimited(cfg, s, CancelTurnOf(turn));
    NeverAgainFrom(cfg, Apply(cfg, s, CancelTurnOf(turn)), after, j);
  }

  // ---- no self-preemption over runs ----------------------------------------------------

  lemma StepKeepsClock(cfg: Config, s: State, step: Step)
    requires Refs(s) && ClockOk(s)
    ensures ClockOk(Apply(cfg, s, step))
  {
    match step
    case Work => ReapRefs(s); DispatchHistory(cfg, Reap(s));
    case Tick(_) =>
    case SubmitJob(_, _, _) =>
    case FirstStep(_) =>
    case EndTask(_, _) =>
    case CancelTurnOf(_) =>
    case AwaitCancelled(_) =>
    case SubmitterGone(_) =>
  }

  lemma {:induction false} RunKeepsClock(cfg: Config, s: State, steps: seq<Step>)
    requires Refs(s) && ClockOk(s)
    ensures ClockOk(Run(cfg, s, steps))
    decreases |steps|
  {
    if steps != [] {
      StepKeepsClock(cfg, s, steps[0]);
      RunKeepsClock(cfg, Apply(cfg, s, steps[0]), steps[1..]);
    }
  }

  /** No self-preemption, in every reachable state: unless a queued job of prio 2 or more has aged to level 0, a turn
      of the worker never cancels a task that it creates. */
  lemma NoSelfPreemptionInRuns(cfg: Config, steps: seq<Step>)
    requires 0 <= cfg.reserved && NoneAgedToZero(cfg, Run(cfg, EMPTY, steps))
    ensures var s := Run(cfg, EMPTY, steps);
      Untouched(Apply(cfg, s, Work), s.tasks)
  {
    RunKeepsClock(cfg, EMPTY, steps);
    RunPlaced(cfg, EMPTY, steps);
    WorkSparesItsOwn(cfg, Run(cfg, EMPTY, steps));
  }

  lemma WorkSparesItsOwn(cfg: Config, s: State)
    requires Placed(s) && ClockOk(s) && 0 <= cfg.reserved && NoneAgedToZero(cfg, s)
    ensures Untouched(Apply(cfg, s, Work), s.tasks)
  {
    ReapPlaced(s);
    NoSelfPreemption(cfg, Reap(s));
  }

  // ---- bounded bypass over runs --------------------------------------------------------

  /** `w` is in the queue now and after each of `steps`. */
  predicate Waits(cfg: Config, s: State, steps: seq<Step>, w: nat)
    requires Refs(s)
    decreases |steps|
  {
    w in s.queue && (steps == [] || Waits(cfg, Apply(cfg, s, steps[0]), steps[1..], w))
  }

  /** A background job whose wait has reached prio aging periods. */
  predicate FullyAged(cfg: Config, s: State, w: nat) {
    && w < |s.jobs| && s.jobs[w].prio > PRIO_CHAT
    && s.clock - s.jobs[w].enqueuedAt >= s.jobs[w].prio as real * cfg.agingS
  }

  /** Pick `k` took a shared slot while `w` had not been picked since number `from`. */
  predicate Ahead(cfg: Config, picks: seq<Pick>, from: nat, k: nat, w: nat) {
    from <= k < |picks| && picks[k].free > cfg.reserved && NotPicked(picks, from, k, w)
  }

  predicate NotPicked(picks: seq<Pick>, from: nat, to: nat, w: nat)
    requires to <= |picks|
  {
    forall i :: from <= i < to ==> picks[i].job != w
  }

  predicate PassedBySmaller(cfg: Config, picks: seq<Pick>, from: nat, w: nat) {
    forall k :: 0 <= k < |picks| && Ahead(cfg, picks, from, k, w) ==> picks[k].job <= w
  }

  lemma PassedCompose(cfg: Config, a: seq<Pick>, b: seq<Pick>, c: seq<Pick>, w: nat)
    requires a <= b <= c
    requires PassedBySmaller(cfg, b, |a|, w) && PassedBySmaller(cfg, c, |b|, w)
    ensures PassedBySmaller(cfg, c, |a|, w)
    ensures NotPicked(b, |a|, |b|, w) && NotPicked(c, |b|, |c|, w) ==> NotPicked(c, |a|, |c|, w)
  {
    assert c[..|b|] == b;
    assert forall i :: 0 <= i < |b| ==> c[i] == b[i];
    forall k | 0 <= k < |c| && Ahead(cfg, c, |a|, k, w)
      ensures c[k].job <= w
    {
      if k < |b| {
        assert Ahead(cfg, b, |a|, k, w);
      } else {
        assert Ahead(cfg, c, |b|, k, w);
      }
    }
  }

  lemma WaiterUntouched(cfg: Config, s: State, step: Step, w: nat)
    requires Placed(s) && w in s.queue && w < |s.jobs|
    ensures var s' := Apply(cfg, s, step);
      s'.jobs[w].enqueuedAt == s.jobs[w].enqueuedAt && s'.clock >= s.clock
  {
    match step
    case Work => ReapRefs(s); DispatchHistory(cfg, Reap(s));
    case EndTask(i, outcome) =>
      if i < |s.running| && s.running[i].phase == Started { EndSparesWaiter(s, i, outcome, w); }
    case Tick(_) =>
    case SubmitJob(_, _, _) =>
    case FirstStep(_) =>
    case CancelTurnOf(_) =>
    case AwaitCancelled(_) =>
    case SubmitterGone(_) =>
  }

  lemma EndSparesWaiter(s: State, i: nat, outcome: Outcome, w: nat)
    requires Placed(s) && w in s.queue && w < |s.jobs| && i < |s.running| && s.running[i].phase == Started
    ensures var s' := Handle(WithPhase(s, i, Finished), s.running[i].job, outcome);
      s'.jobs[w].enqueuedAt == s.jobs[w].enqueuedAt && s'.clock == s.clock
  {
  }

  /** While a job waits, its aging goes on from where it was. */
  lemma {:induction false} WaiterAges(cfg: Config, s: State, steps: seq<Step>, w: nat)
    requires Placed(s) && Waits(cfg, s, steps, w) && w < |s.jobs|
    ensures Run(cfg, s, steps).jobs[w].enqueuedAt == s.jobs[w].enqueuedAt
    decreases |steps|
  {
    if steps != [] {
      WaiterUntouched(cfg, s, steps[0], w);
      StepPlaced(cfg, s, steps[0]);
      WaiterAges(cfg, Apply(cfg, s, steps[0]), steps[1..], w);
    }
  }

  lemma StepKeepsWaiter(cfg: Config, s: State, step: Step, w: nat)
    requires Placed(s) && w in s.queue && FullyAged(cfg, s, w)
    ensures FullyAged(cfg, Apply(cfg, s, step), w)
  {
    WaiterUntouched(cfg, s, step, w);
    StillAged(cfg, s, Apply(cfg, s, step), w);
  }

  lemma StillAged(cfg: Config, s: State, s': State, w: nat)
    requires FullyAged(cfg, s, w) && JobsKept(s, s')
    requires s'.jobs[w].enqueuedAt == s.jobs[w].enqueuedAt && s'.clock >= s.clock
    ensures FullyAged(cfg, s', w)
  {
  }

  lemma WorkPassed(cfg: Config, r: State, w: nat)
    requires Refs(r) && AgedWaiter(cfg, r, w)
    ensures r.picks <= Dispatch(cfg, r).picks
    ensures PassedBySmaller(cfg, Dispatch(cfg, r).picks, |r.picks|, w)
  {
    DispatchPicks(cfg, r);
    var picks := Dispatch(cfg, r).picks;
    forall k | 0 <= k < |picks| && Ahead(cfg, picks, |r.picks|, k, w)
      ensures picks[k].job <= w
    {
      DispatchBypass(cfg, r, w, k);
    }
  }

  lemma StepPassed(cfg: Config, s: State, step: Step, w: nat)
    requires Placed(s) && w in s.queue && FullyAged(cfg, s, w)
    ensures s.picks <= Apply(cfg, s, step).picks
    ensures PassedBySmaller(cfg, Apply(cfg, s, step).picks, |s.picks|, w)
  {
    if step.Work? {
      ReapRefs(s);
      AgedToZero(cfg, s.jobs[w], s.clock);
      WorkPassed(cfg, Reap(s), w);
    } else {
      OnlyWorkPicks(cfg, s, step);
    }
  }

  lemma {:induction false} WaitingIsNotPicked(cfg: Config, s: State, w: nat)
    requires Refs(s) && Distinct(s.queue) && w in Dispatch(cfg, s).queue
    ensures w in s.queue
    ensures forall k :: |s.picks| <= k < |Dispatch(cfg, s).picks| ==> Dispatch(cfg, s).picks[k].job != w
    decreases |s.queue|
  {
    if s.queue != [] && Scan(cfg, s, Candidates(cfg, s)).Take? {
      var j := Scan(cfg, s, Candidates(cfg, s)).job;
      ScanTakesQueued(cfg, s);
      WithoutDistinct(s.queue, j);
      var s' := Admit(cfg, s, j);
      WaitingIsNotPicked(cfg, s', w);
      DispatchPicks(cfg, s');
      assert s'.picks[|s.picks|].job == j;
    }
  }

  lemma StepDoesNotPick(cfg: Config, s: State, step: Step, w: nat)
    requires Placed(s) && w in Apply(cfg, s, step).queue
    ensures NotPicked(Apply(cfg, s, step).picks, |s.picks|, |Apply(cfg, s, step).picks|, w)
  {
    if step.Work? {
      ReapPlaced(s);
      WaitingIsNotPicked(cfg, Reap(s), w);
    } else {
      OnlyWorkPicks(cfg, s, step);
    }
  }

  /** Over a run in which `w` waits, every shared slot that goes to another job goes to one with a smaller seq. */
  lemma {:induction false} WaitPassed(cfg: Config, s: State, steps: seq<Step>, w: nat)
    requires Placed(s) && FullyAged(cfg, s, w) && Waits(cfg, s, steps, w)
    ensures var s' := Run(cfg, s, steps);
      && s.picks <= s'.picks
      && Placed(s') && FullyAged(cfg, s', w) && w in s'.queue
      && NotPicked(s'.picks, |s.picks|, |s'.picks|, w)
      && PassedBySmaller(cfg, s'.picks, |s.picks|, w)
    decreases |steps|
  {
    if steps != [] {
      var s1 := Apply(cfg, s, steps[0]);
      StepPlaced(cfg, s, steps[0]);
      StepPassed(cfg, s, steps[0], w);
      StepDoesNotPick(cfg, s, steps[0], w);
      StepKeepsWaiter(cfg, s, steps[0], w);
      WaitPassed(cfg, s1, steps[1..], w);
      PassedCompose(cfg, s.picks, s1.picks, Run(cfg, s1, steps[1..]).picks, w);
    }
  }

  /** The distinct jobs that took a shared slot ahead of `w` in a list of picks, up to the pick of `w` itself. */
  ghost function Passers(cfg: Config, picks: seq<Pick>, from: nat, w: nat): set<nat> {
    set k | 0 <= k < |picks| && Ahead(cfg, picks, from, k, w) && picks[k].job != w :: picks[k].job
  }

  lemma {:induction false} SetBelow(xs: set<nat>, n: nat)
    requires forall x :: x in xs ==> x < n
    ensures |xs| <= n
  {
    if n == 0 {
      assert xs == {};
    } else {
      SetBelow(xs - {n - 1}, n - 1);
      assert |xs| <= |xs - {n - 1}| + 1;
    }
  }

  /** Bounded bypass: from the moment a queued background job has waited prio aging periods until it leaves the
      queue, the jobs that take a shared slot ahead of it all have a smaller seq, so later submissions never do,
      and over the whole run they are at most seq many. `last` is the step in which the job may leave. */
  lemma BoundedBypass(cfg: Config, before: seq<Step>, steps: seq<Step>, last: Step, w: nat)
    requires var s := Run(cfg, EMPTY, before); FullyAged(cfg, s, w) && Waits(cfg, s, steps, w)
    ensures var s := Run(cfg, EMPTY, before);
      var passers := Passers(cfg, Apply(cfg, Run(cfg, s, steps), last).picks, |s.picks|, w);
      (forall x :: x in passers ==> x < w) && |passers| <= w
  {
    RunPlaced(cfg, EMPTY, before);
    var s := Run(cfg, EMPTY, before);
    WaitPassed(cfg, s, steps, w);
    var s1 := Run(cfg, s, steps);
    StepPassed(cfg, s1, last, w);
    var picks := Apply(cfg, s1, last).picks;
    PassedCompose(cfg, s.picks, s1.picks, picks, w);
    SetBelow(Passers(cfg, picks, |s.picks|, w), w);
  }
}
