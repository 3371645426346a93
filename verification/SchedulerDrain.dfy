/** The scheduler can always be emptied: by submitters giving up, or, if it has a slot, by serving what waits. */
module SchedulerDrain {
  import opened Prelude
  import opened Scheduler
  import opened SchedulerDispatch
  import opened SchedulerRuns
  import L = SchedulerLimits

  /** No step is a `cancel_turn`. */
  predicate Plain(steps: seq<Step>) {
    forall t :: t in steps ==> !t.CancelTurnOf?
  }

  /** Tasks are entered and their factories return, and the worker turns; nobody cancels anything. */
  predicate Serving(steps: seq<Step>) {
    forall t :: t in steps ==> t.Work? || t.FirstStep? || (t.EndTask? && t.outcome.Returned?)
  }

  /** As many jobs as before, and no task created since. */
  predicate NothingNew(s: State, s': State) { |s'.jobs| == |s.jobs| && s'.picks == s.picks }

  predicate SameTasks(a: seq<Slot>, b: seq<Slot>) {
    |a| == |b| && forall i :: 0 <= i < |a| ==> b[i].job == a[i].job && b[i].phase == a[i].phase
  }

  lemma OneStep(cfg: Config, s: State, a: Step)
    requires Refs(s)
    ensures Run(cfg, s, [a]) == Apply(cfg, s, a)
  {
    assert [a][1..] == [];
  }

  lemma TwoSteps(cfg: Config, s: State, a: Step, b: Step)
    requires Refs(s)
    ensures Run(cfg, s, [a, b]) == Apply(cfg, Apply(cfg, s, a), b)
  {
    assert [a, b][1..] == [b];
    OneStep(cfg, Apply(cfg, s, a), b);
  }

  // ---- emptying the queue --------------------------------------------------------------

  /** The submitter at the head of the queue gives up. */
  lemma HeadGone(cfg: Config, s: State)
    requires Placed(s) && s.queue != []
    ensures var s' := Run(cfg, s, [AwaitCancelled(s.queue[0]), SubmitterGone(s.queue[0])]);
      && Placed(s') && s'.queue == s.queue[1..] && NothingNew(s, s') && SameTasks(s.running, s'.running)
      && s'.preempting == s.preempting
      && forall x :: 0 <= x < |s.jobs| && x != s.queue[0] ==> s'.jobs[x] == s.jobs[x]
  {
    var j := s.queue[0];
    var s1 := Apply(cfg, s, AwaitCancelled(j));
    StepPlaced(cfg, s, AwaitCancelled(j));
    StepPlaced(cfg, s1, SubmitterGone(j));
    TwoSteps(cfg, s, AwaitCancelled(j), SubmitterGone(j));
  }

  lemma {:induction false} AllGiveUp(cfg: Config, s: State) returns (steps: seq<Step>)
    requires Placed(s)
    ensures Plain(steps)
    ensures var s' := Run(cfg, s, steps);
      && Placed(s') && s'.queue == [] && NothingNew(s, s') && SameTasks(s.running, s'.running)
      && s'.preempting == s.preempting
      && forall x :: 0 <= x < |s.jobs| && x !in s.queue ==> s'.jobs[x] == s.jobs[x]
    decreases |s.queue|
  {
    if s.queue == [] {
      steps := [];
    } else {
      var head := [AwaitCancelled(s.queue[0]), SubmitterGone(s.queue[0])];
      HeadGone(cfg, s);
      var rest := AllGiveUp(cfg, Run(cfg, s, head));
      RunAppend(cfg, s, head, rest);
      steps := head + rest;
      assert forall x :: x in s.queue[1..] ==> x in s.queue;
    }
  }

  // ---- ending the tasks ----------------------------------------------------------------

  /** From `s` to `s'` the task in entry `k` has come to its end, and all else is as it was. */
  ghost predicate Ended(s: State, s': State, k: nat) {
    && Placed(s') && s'.queue == s.queue && NothingNew(s, s') && s'.preempting == s.preempting
    && |s'.running| == |s.running| && k < |s.running| && s.running[k].job < |s.jobs|
    && s'.running[k].phase == Finished && s'.running[k].job == s.running[k].job
    && (forall i :: 0 <= i < |s.running| && i != k ==> s'.running[i] == s.running[i])
    && (forall x :: 0 <= x < |s.jobs| && x != s.running[k].job ==> s'.jobs[x] == s.jobs[x])
  }

  lemma StartedEnds(cfg: Config, s: State, k: nat)
    requires Placed(s) && k < |s.running| && s.running[k].phase == Started
    ensures Ended(s, Apply(cfg, s, EndTask(k, Returned(0))), k)
  {
    StepPlaced(cfg, s, EndTask(k, Returned(0)));
  }

  /** The task is entered, unless it has been asked to cancel, in which case it ends. */
  lemma CreatedMoves(cfg: Config, s: State, k: nat)
    requires Placed(s) && k < |s.running| && s.running[k].phase == Created
    ensures var s1 := Apply(cfg, s, FirstStep(k));
      if s.running[k].cancelRequested then Ended(s, s1, k)
      else Placed(s1) && s1 == WithPhase(s, k, Started)
  {
    StepPlaced(cfg, s, FirstStep(k));
  }

  lemma TaskEnds(cfg: Config, s: State, k: nat) returns (steps: seq<Step>)
    requires Placed(s) && k < |s.running| && s.running[k].phase != Finished
    ensures Serving(steps) && Ended(s, Run(cfg, s, steps), k)
  {
    var end := EndTask(k, Returned(0));
    if s.running[k].phase == Started {
      StartedEnds(cfg, s, k);
      OneStep(cfg, s, end);
      steps := [end];
    } else {
      var s1 := Apply(cfg, s, FirstStep(k));
      CreatedMoves(cfg, s, k);
      if s.running[k].cancelRequested {
        OneStep(cfg, s, FirstStep(k));
        steps := [FirstStep(k)];
      } else {
        StartedEnds(cfg, s1, k);
        TwoSteps(cfg, s, FirstStep(k), end);
        steps := [FirstStep(k), end];
      }
    }
  }

  /** All but `but` of the first `k` entries hold finished tasks, and `j` is in no other entry unless finished. */
  predicate EndedUpTo(s: State, k: nat, but: nat, j: nat) {
    && k <= |s.running|
    && (forall i :: 0 <= i < k && i != but ==> s.running[i].phase == Finished)
    && (forall i :: 0 <= i < |s.running| && i != but && s.running[i].job == j ==> s.running[i].phase == Finished)
  }

  /** What is the same after other tasks have ended. */
  ghost predicate Spares(s: State, s': State, but: nat, j: nat) {
    && Placed(s') && s'.queue == s.queue && NothingNew(s, s') && s'.preempting == s.preempting
    && |s'.running| == |s.running| && (forall i :: 0 <= i < |s.running| ==> s'.running[i].job == s.running[i].job)
    && (but < |s.running| ==> s'.running[but] == s.running[but])
    && (j < |s.jobs| ==> s'.jobs[j] == s.jobs[j])
  }

  lemma NextEnds(cfg: Config, s: State, k: nat, but: nat, j: nat) returns (steps: seq<Step>)
    requires Placed(s) && EndedUpTo(s, k, but, j) && k < |s.running|
    ensures Serving(steps)
    ensures var s' := Run(cfg, s, steps); Spares(s, s', but, j) && EndedUpTo(s', k + 1, but, j)
  {
    if k == but || s.running[k].phase == Finished {
      steps := [];
    } else {
      steps := TaskEnds(cfg, s, k);
    }
  }

  /** Every task comes to its end, without a preemption, but that in entry `but`; job `j` is not touched. */
  lemma {:induction false} AllEnd(cfg: Config, s: State, k: nat, but: nat, j: nat) returns (steps: seq<Step>)
    requires Placed(s) && EndedUpTo(s, k, but, j)
    ensures Serving(steps)
    ensures var s' := Run(cfg, s, steps); Spares(s, s', but, j) && EndedUpTo(s', |s'.running|, but, j)
    decreases |s.running| - k
  {
    if k == |s.running| {
      steps := [];
    } else {
      var one := NextEnds(cfg, s, k, but, j);
      var rest := AllEnd(cfg, Run(cfg, s, one), k + 1, but, j);
      RunAppend(cfg, s, one, rest);
      steps := one + rest;
    }
  }

  predicate Idle(s: State) { s.queue == [] && s.running == [] }

  predicate AllFinished(running: seq<Slot>) {
    forall i :: 0 <= i < |running| ==> running[i].phase == Finished
  }

  lemma ReapsToIdle(cfg: Config, s: State)
    requires Placed(s) && s.queue == [] && AllFinished(s.running)
    ensures var s' := Run(cfg, s, [Work]);
      Placed(s') && Idle(s') && NothingNew(s, s')
  {
    OneStep(cfg, s, Work);
    StepPlaced(cfg, s, Work);
    NoneUnfinished(s.running);
  }

  lemma ServingIsPlain(steps: seq<Step>)
    requires Serving(steps)
    ensures Plain(steps)
  {
  }

  /** From every state that keeps the scheduler's invariant, some run without `cancel_turn`, in which the submitters of
      queued jobs give up, leaves nothing queued and nothing running. */
  lemma CanDrain(cfg: Config, s: State) returns (steps: seq<Step>)
    requires Placed(s)
    ensures Plain(steps)
    ensures var s' := Run(cfg, s, steps); Placed(s') && Idle(s') && NothingNew(s, s')
  {
    var a := AllGiveUp(cfg, s);
    var s1 := Run(cfg, s, a);
    var b := AllEnd(cfg, s1, 0, |s1.running|, |s1.jobs|);
    ServingIsPlain(b);
    var s2 := Run(cfg, s1, b);
    ReapsToIdle(cfg, s2);
    RunAppend(cfg, s1, b, [Work]);
    RunAppend(cfg, s, a, b + [Work]);
    steps := a + (b + [Work]);
  }

  // ---- serving what waits --------------------------------------------------------------

  /** A task that goes on to enter its factory, or is in it. */
  predicate Tended(slot: Slot, j: nat) {
    slot.job == j && (slot.phase == Started || (slot.phase == Created && !slot.cancelRequested))
  }

  ghost predicate Tends(running: seq<Slot>, j: nat) {
    exists i :: 0 <= i < |running| && Tended(running[i], j)
  }

  /** A job that no preemption can touch, and that is answered, queued, or tended by a task. */
  ghost predicate WellPlaced(s: State, j: nat) {
    && j < |s.jobs| && !Preemptable(s.jobs[j])
    && (s.jobs[j].future.Result? || (s.jobs[j].future == Pending && (j in s.queue || Tends(s.running, j))))
  }

  lemma TendsAt(running: seq<Slot>, i: nat, j: nat)
    requires i < |running| && Tended(running[i], j)
    ensures Tends(running, j)
  {
  }

  lemma AdmitTends(cfg: Config, s: State, x: nat, j: nat)
    requires Refs(s) && x in s.queue && x < |s.jobs| && WellPlaced(s, j)
    ensures WellPlaced(Admit(cfg, s, x), j)
  {
    WithoutMembers(s.queue, x);
    var r := Admit(cfg, s, x);
    if s.jobs[j].future == Pending {
      if Tends(s.running, j) {
        var i :| 0 <= i < |s.running| && Tended(s.running[i], j);
        TendsAt(r.running, i, j);
      } else if x == j {
        TendsAt(r.running, |s.running|, j);
      }
    }
  }

  lemma PreemptTends(s: State, v: nat, j: nat)
    requires Refs(s) && Newest(s, s.running) == Some(v) && WellPlaced(s, j)
    ensures WellPlaced(Preempt(s, v), j)
  {
    if Tends(s.running, j) {
      var i :| 0 <= i < |s.running| && Tended(s.running[i], j);
      TendsAt(Preempt(s, v).running, i, j);
    }
  }

  lemma {:induction false} DispatchTends(cfg: Config, s: State, j: nat)
    requires Refs(s) && WellPlaced(s, j)
    ensures WellPlaced(Dispatch(cfg, s), j)
    decreases |s.queue|
  {
    if s.queue != [] {
      IterationJustified(cfg, s);
      match Scan(cfg, s, Candidates(cfg, s))
      case Nothing =>
      case Evict(v) => PreemptTends(s, v, j);
      case Take(x) =>
        ScanTakesQueued(cfg, s);
        AdmitTends(cfg, s, x, j);
        DispatchTends(cfg, Admit(cfg, s, x), j);
    }
  }

  lemma ReapTends(s: State, j: nat)
    requires Refs(s) && WellPlaced(s, j)
    ensures WellPlaced(Reap(s), j)
  {
    if Tends(s.running, j) {
      var i :| 0 <= i < |s.running| && Tended(s.running[i], j);
      UnfinishedMembers(s.running);
      assert s.running[i] in Unfinished(s.running);
      var k :| 0 <= k < |Unfinished(s.running)| && Unfinished(s.running)[k] == s.running[i];
      TendsAt(Reap(s).running, k, j);
    }
  }

  lemma EntersTends(cfg: Config, s: State, k: nat, j: nat)
    requires Refs(s) && WellPlaced(s, j)
    ensures WellPlaced(Apply(cfg, s, FirstStep(k)), j)
  {
    if Tends(s.running, j) && k < |s.running| && s.running[k].phase == Created {
      var i :| 0 <= i < |s.running| && Tended(s.running[i], j);
      TendsAt(Apply(cfg, s, FirstStep(k)).running, i, j);
    }
  }

  lemma ReturnTends(cfg: Config, s: State, k: nat, v: int, j: nat)
    requires Refs(s) && WellPlaced(s, j)
    ensures WellPlaced(Apply(cfg, s, EndTask(k, Returned(v))), j)
  {
    var r := Apply(cfg, s, EndTask(k, Returned(v)));
    if Tends(s.running, j) && k < |s.running| && s.running[k].phase == Started && s.running[k].job != j {
      var i :| 0 <= i < |s.running| && Tended(s.running[i], j);
      TendsAt(r.running, i, j);
    }
  }

  lemma {:induction false} ServingKeeps(cfg: Config, s: State, steps: seq<Step>, j: nat)
    requires Refs(s) && Serving(steps) && WellPlaced(s, j)
    ensures WellPlaced(Run(cfg, s, steps), j)
    decreases |steps|
  {
    if steps != [] {
      assert steps[0] in steps && forall t :: t in steps[1..] ==> t in steps;
      match steps[0] {
        case Work => ReapRefs(s); ReapTends(s, j); DispatchTends(cfg, Reap(s), j);
        case FirstStep(k) => EntersTends(cfg, s, k, j);
        case EndTask(k, outcome) => ReturnTends(cfg, s, k, outcome.value, j);
      }
      ServingKeeps(cfg, Apply(cfg, s, steps[0]), steps[1..], j);
    }
  }

  lemma {:induction false} DispatchShrinks(cfg: Config, s: State)
    requires Refs(s)
    ensures |Dispatch(cfg, s).queue| <= |s.queue|
    decreases |s.queue|
  {
    if s.queue != [] && Scan(cfg, s, Candidates(cfg, s)).Take? {
      ScanTakesQueued(cfg, s);
      DispatchShrinks(cfg, Admit(cfg, s, Scan(cfg, s, Candidates(cfg, s)).job));
    }
  }

  /** With no task left, a turn of the worker takes at least one job, if there is a slot. */
  lemma TakesOne(cfg: Config, s: State)
    requires Refs(s) && s.running == [] && s.queue != [] && cfg.slots >= 1
    ensures |Dispatch(cfg, s).queue| < |s.queue|
  {
    IterationJustified(cfg, s);
    assert Eligible(cfg, s, s.queue[0]);
    ScanTakesQueued(cfg, s);
    DispatchShrinks(cfg, Admit(cfg, s, Scan(cfg, s, Candidates(cfg, s)).job));
  }

  lemma WorkTakesOne(cfg: Config, s: State)
    requires Placed(s) && AllFinished(s.running) && cfg.slots >= 1
    ensures var s' := Run(cfg, s, [Work]);
      Placed(s') && if s.queue == [] then Idle(s') else |s'.queue| < |s.queue|
  {
    OneStep(cfg, s, Work);
    StepPlaced(cfg, s, Work);
    NoneUnfinished(s.running);
    if s.queue != [] {
      TakesOne(cfg, Reap(s));
    }
  }

  lemma {:induction false} CanServeAll(cfg: Config, s: State) returns (steps: seq<Step>)
    requires Placed(s) && cfg.slots >= 1
    ensures Serving(steps) && Idle(Run(cfg, s, steps))
    decreases |s.queue|
  {
    var a := AllEnd(cfg, s, 0, |s.running|, |s.jobs|);
    var s1 := Run(cfg, s, a);
    WorkTakesOne(cfg, s1);
    RunAppend(cfg, s, a, [Work]);
    steps := a + [Work];
    if s.queue != [] {
      var more := CanServeAll(cfg, Run(cfg, s1, [Work]));
      RunAppend(cfg, s, steps, more);
      steps := steps + more;
    }
  }

  /** The scheduler can always serve what waits: from every state that keeps its invariant, if it has a slot, there is
      a run in which nobody gives up and nothing is cancelled from outside that ends with nothing queued or running,
      and in which every chat, perception and effectful job that waited or was being worked on gets its result. A
      preemptable job may be lost in it, since the worker may cancel its task before its first step. */
  lemma CanServe(cfg: Config, s: State) returns (steps: seq<Step>)
    requires Placed(s) && cfg.slots >= 1
    ensures Serving(steps) && Idle(Run(cfg, s, steps))
    ensures forall j: nat :: WellPlaced(s, j) ==> Run(cfg, s, steps).jobs[j].future.Result?
  {
    steps := CanServeAll(cfg, s);
    forall j: nat | WellPlaced(s, j)
      ensures Run(cfg, s, steps).jobs[j].future.Result?
    {
      ServingKeeps(cfg, s, steps, j);
    }
  }

  // ---- any later job can start ---------------------------------------------------------

  /** One more job comes and goes. */
  lemma OneMoreJob(cfg: Config, s: State) returns (steps: seq<Step>)
    requires Placed(s) && Idle(s)
    ensures Plain(steps)
    ensures var s' := Run(cfg, s, steps);
      Placed(s') && Idle(s') && |s'.jobs| == |s.jobs| + 1 && s'.picks == s.picks
  {
    var submit := SubmitJob(PRIO_PERCEPTION, true, None);
    var s1 := Apply(cfg, s, submit);
    StepPlaced(cfg, s, submit);
    OneStep(cfg, s, submit);
    var rest := AllGiveUp(cfg, s1);
    RunAppend(cfg, s, [submit], rest);
    steps := [submit] + rest;
  }

  lemma {:induction false} JobsUpTo(cfg: Config, s: State, n: nat) returns (steps: seq<Step>)
    requires Placed(s) && Idle(s) && |s.jobs| <= n
    ensures Plain(steps)
    ensures var s' := Run(cfg, s, steps); Placed(s') && Idle(s') && |s'.jobs| == n && s'.picks == s.picks
    decreases n - |s.jobs|
  {
    if |s.jobs| == n {
      steps := [];
    } else {
      var one := OneMoreJob(cfg, s);
      var rest := JobsUpTo(cfg, Run(cfg, s, one), n);
      RunAppend(cfg, s, one, rest);
      steps := one + rest;
    }
  }

  /** In an idle scheduler a perception job starts at once, whatever the configuration. */
  lemma StartsWhenIdle(cfg: Config, s: State, turn: int)
    requires Refs(s) && Idle(s)
    ensures var s' := Run(cfg, s, [SubmitJob(PRIO_PERCEPTION, true, Some(turn)), Work]);
      && |s'.jobs| == |s.jobs| + 1 && OfTurn(s'.jobs, |s.jobs|, turn) && !Preemptable(s'.jobs[|s.jobs|])
      && L.Starts(s'.picks, |s.jobs|) == L.Starts(s.picks, |s.jobs|) + 1
  {
    var submit := SubmitJob(PRIO_PERCEPTION, true, Some(turn));
    var s1 := Apply(cfg, s, submit);
    TwoSteps(cfg, s, submit, Work);
    assert s1.queue == [|s.jobs|];
    assert Reap(s1) == s1;
    OnlyJobStarts(cfg, s1, |s.jobs|);
  }

  lemma OnlyJobStarts(cfg: Config, s: State, j: nat)
    requires Refs(s) && s.queue == [j] && s.running == [] && j < |s.jobs|
    requires !IsChat(s.jobs[j]) && s.jobs[j].future == Pending
    ensures L.Starts(Dispatch(cfg, s).picks, j) == L.Starts(s.picks, j) + 1
  {
    assert Candidates(cfg, s) == [j];
    assert Scan(cfg, s, [j]) == Take(j);
    assert Admit(cfg, s, j).queue == [];
    L.StartsSnoc(s.picks, Pick(j, Free(cfg, s), true), j);
  }

  /** From every state that keeps the invariants, and for every future seq `j`, some run without `cancel_turn` submits a
      perception job of any turn under that seq and starts it. */
  lemma AnyLaterJobCanStart(cfg: Config, s: State, j: nat, turn: int) returns (steps: seq<Step>)
    requires Placed(s) && L.Limited(s) && |s.jobs| <= j
    ensures Plain(steps)
    ensures var s' := Run(cfg, s, steps);
      && OfTurn(s'.jobs, j, turn) && !Preemptable(s'.jobs[j])
      && L.Starts(s.picks, j) == 0 && L.Starts(s'.picks, j) == 1
  {
    L.StartsOfNew(s.picks, j);
    var a := CanDrain(cfg, s);
    var s1 := Run(cfg, s, a);
    var b := JobsUpTo(cfg, s1, j);
    var s2 := Run(cfg, s1, b);
    var c := [SubmitJob(PRIO_PERCEPTION, true, Some(turn)), Work];
    StartsWhenIdle(cfg, s2, turn);
    RunAppend(cfg, s1, b, c);
    RunAppend(cfg, s, a, b + c);
    steps := a + (b + c);
  }
}
