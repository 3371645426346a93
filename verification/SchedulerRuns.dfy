/** Every run of the scheduler: what is kept whatever interleaves. */
module SchedulerRuns {
  import opened Prelude
  import opened Scheduler
  import opened SchedulerDispatch

  /** `Work` is one turn of the worker, which reaps and dispatches without an await in between. A task takes its
      first step, and then its factory ends, at any later time; the submitter's await may be cancelled, which
      cancels the future at once and removes the job when the submitter runs again. */
  datatype Step =
    | Tick(d: real)
    | SubmitJob(prio: int, isPure: bool, turn: Option<int>)
    | Work
    | FirstStep(i: nat)
    | EndTask(i: nat, outcome: Outcome)
    | CancelTurnOf(turnId: int)
    | AwaitCancelled(j: nat)
    | SubmitterGone(j: nat)

  function WithPhase(s: State, i: nat, phase: Phase): State
    requires i < |s.running|
  {
    s.(running := s.running[i := s.running[i].(phase := phase)])
  }

  function TakeFirstStep(s: State, i: nat): State
    requires i < |s.running|
  {
    if s.running[i].cancelRequested
    then WithPhase(s, i, Finished).(stillborn := s.stillborn + {s.running[i].job})
    else WithPhase(s, i, Started)
  }

  /** `s'` has the records of `s`, with the fields that no operation changes, and perhaps more. */
  predicate JobsKept(s: State, s': State) {
    && |s.jobs| <= |s'.jobs|
    && forall j :: 0 <= j < |s.jobs| ==>
         s'.jobs[j].prio == s.jobs[j].prio && s'.jobs[j].isPure == s.jobs[j].isPure && s'.jobs[j].turn == s.jobs[j].turn
  }

  /** Only the cancel flags of running tasks differ. */
  predicate SameShape(a: seq<Slot>, b: seq<Slot>) {
    && |a| == |b|
    && forall i :: 0 <= i < |a| ==> b[i].task == a[i].task && b[i].job == a[i].job && b[i].phase == a[i].phase
  }

  lemma {:induction false} SparedMembers(jobs: seq<Job>, queue: seq<nat>, turn: int)
    ensures forall x :: x in Spared(jobs, queue, turn) <==> x in queue && !OfTurn(jobs, x, turn)
    ensures Distinct(queue) ==> Distinct(Spared(jobs, queue, turn))
  {
    if queue != [] {
      SparedMembers(jobs, queue[1..], turn);
      assert queue == [queue[0]] + queue[1..];
      if Distinct(queue) {
        assert queue[0] !in queue[1..];
      }
    }
  }

  lemma BelowByMembers(q: seq<nat>, r: seq<nat>, n: nat)
    requires AllBelow(q, n) && forall x :: x in r ==> x in q
    ensures AllBelow(r, n)
  {
    forall i | 0 <= i < |r| ensures r[i] < n {
      assert r[i] in r;
    }
  }

  lemma {:induction false} UnfinishedMembers(running: seq<Slot>)
    ensures forall x :: x in Unfinished(running) <==> x in running && x.phase != Finished
  {
    if running != [] {
      UnfinishedMembers(running[1..]);
      assert running == [running[0]] + running[1..];
    }
  }

  lemma {:induction false} NoneUnfinished(running: seq<Slot>)
    requires forall i :: 0 <= i < |running| ==> running[i].phase == Finished
    ensures Unfinished(running) == []
  {
    if running != [] {
      NoneUnfinished(running[1..]);
    }
  }

  lemma {:induction false} AllUnfinished(running: seq<Slot>)
    requires forall i :: 0 <= i < |running| ==> running[i].phase != Finished
    ensures Unfinished(running) == running
  {
    if running != [] {
      AllUnfinished(running[1..]);
    }
  }

  lemma ReapRefs(s: State)
    requires Refs(s)
    ensures Refs(Reap(s))
  {
    UnfinishedMembers(s.running);
    forall i | 0 <= i < |Reap(s).running| ensures Reap(s).running[i].job < |s.jobs| {
      assert Reap(s).running[i] in s.running;
    }
  }

  function Apply(cfg: Config, s: State, step: Step): (s': State)
    requires Refs(s)
    ensures Refs(s') && JobsKept(s, s')
  {
    match step
    case Tick(d) => if d < 0.0 then s else s.(clock := s.clock + d)
    case SubmitJob(prio, isPure, turn) => Submit(s, prio, isPure, turn)
    case Work => ReapRefs(s); Dispatch(cfg, Reap(s))
    case FirstStep(i) => if i < |s.running| && s.running[i].phase == Created then TakeFirstStep(s, i) else s
    case EndTask(i, outcome) =>
      if i < |s.running| && s.running[i].phase == Started
      then Handle(WithPhase(s, i, Finished), s.running[i].job, outcome) else s
    case CancelTurnOf(turn) =>
      SparedMembers(s.jobs, s.queue, turn);
      BelowByMembers(s.queue, Spared(s.jobs, s.queue, turn), |s.jobs|);
      CancelTurn(s, turn)
    case AwaitCancelled(j) => if j < |s.jobs| then Settle(s, j, Cancelled) else s
    case SubmitterGone(j) =>
      WithoutBelow(s.queue, j, |s.jobs|);
      if j < |s.jobs| && s.jobs[j].future != Pending then Remove(s, j) else s
  }

  function Run(cfg: Config, s: State, steps: seq<Step>): (s': State)
    requires Refs(s)
    ensures Refs(s') && JobsKept(s, s')
    decreases |steps|
  {
    if steps == [] then s else Run(cfg, Apply(cfg, s, steps[0]), steps[1..])
  }

  lemma {:induction false} RunAppend(cfg: Config, s: State, a: seq<Step>, b: seq<Step>)
    requires Refs(s)
    ensures Run(cfg, s, a + b) == Run(cfg, Run(cfg, s, a), b)
    decreases |a|
  {
    if a == [] {
      assert a + b == b;
    } else {
      assert (a + b)[1..] == a[1..] + b;
      RunAppend(cfg, Apply(cfg, s, a[0]), a[1..], b);
    }
  }

  // ---- where a job is ------------------------------------------------------------------

  ghost predicate Held(running: seq<Slot>, j: nat) {
    exists i :: 0 <= i < |running| && running[i].job == j && running[i].phase != Finished
  }

  predicate SlotsDistinct(running: seq<Slot>) {
    forall i, k :: 0 <= i < k < |running| ==> running[i].task < running[k].task && running[i].job != running[k].job
  }

  ghost predicate Somewhere(s: State, j: nat) {
    j in s.queue || Held(s.running, j) || j in s.stillborn
  }

  /** No job is in two places, and the ones still owed an answer are somewhere, unless stillborn. */
  ghost predicate Placed(s: State) {
    Apart(s) && forall j :: 0 <= j < |s.jobs| && s.jobs[j].future == Pending ==> Somewhere(s, j)
  }

  ghost predicate Apart(s: State) {
    && Refs(s)
    && Distinct(s.queue)
    && SlotsDistinct(s.running)
    && (forall i :: 0 <= i < |s.running| ==> s.running[i].task < s.tasks)
    && (forall i :: 0 <= i < |s.running| && s.running[i].phase != Finished ==> s.running[i].job !in s.queue)
    && (forall p :: p in s.preempting ==> p < |s.jobs| && p !in s.queue && Preemptable(s.jobs[p]))
    && (forall j :: j in s.stillborn ==> j < |s.jobs| && j !in s.queue && !Held(s.running, j))
  }

  lemma ShapeHeld(a: seq<Slot>, b: seq<Slot>)
    requires SameShape(a, b)
    ensures forall j :: Held(a, j) <==> Held(b, j)
  {
    forall j
      ensures Held(a, j) <==> Held(b, j)
    {
      if Held(a, j) {
        var i :| 0 <= i < |a| && a[i].job == j && a[i].phase != Finished;
        assert b[i].job == j;
      }
      if Held(b, j) {
        var i :| 0 <= i < |b| && b[i].job == j && b[i].phase != Finished;
        assert a[i].job == j;
      }
    }
  }

  lemma ShapePlaced(s: State, running: seq<Slot>)
    requires Placed(s) && SameShape(s.running, running)
    ensures Placed(s.(running := running))
  {
    ShapeHeld(s.running, running);
  }

  lemma SubmitPlaced(s: State, prio: int, isPure: bool, turn: Option<int>)
    requires Placed(s)
    ensures Placed(Submit(s, prio, isPure, turn))
  {
    var s' := Submit(s, prio, isPure, turn);
    assert forall i :: 0 <= i < |s.queue| ==> s.queue[i] in s.queue;
    assert |s.jobs| !in s.queue;
    assert s'.queue[|s.queue|] == |s.jobs|;
    assert forall x :: x in s'.queue <==> x in s.queue || x == |s.jobs|;
  }

  lemma AdmitPlaced(cfg: Config, s: State, j: nat)
    requires Placed(s) && j in s.queue && j < |s.jobs|
    requires forall i :: 0 <= i < |s.running| ==> s.running[i].phase != Finished
    ensures Placed(Admit(cfg, s, j))
    ensures forall i :: 0 <= i < |Admit(cfg, s, j).running| ==> Admit(cfg, s, j).running[i].phase != Finished
  {
    WithoutDistinct(s.queue, j);
    var s' := Admit(cfg, s, j);
    if s.jobs[j].future == Pending {
      HeldSnoc(s.running, Slot(s.tasks, j, Created, false));
    }
  }

  lemma HeldSnoc(running: seq<Slot>, slot: Slot)
    requires slot.phase != Finished
    ensures forall j :: Held(running + [slot], j) <==> Held(running, j) || j == slot.job
  {
    var longer := running + [slot];
    forall j
      ensures Held(longer, j) <==> Held(running, j) || j == slot.job
    {
      if Held(running, j) {
        var i :| 0 <= i < |running| && running[i].job == j && running[i].phase != Finished;
        assert longer[i] == running[i];
      }
      if j == slot.job {
        assert longer[|running|] == slot;
      }
    }
  }

  lemma PreemptPlaced(s: State, v: nat)
    requires Placed(s) && Newest(s, s.running) == Some(v)
    requires forall i :: 0 <= i < |s.running| ==> s.running[i].phase != Finished
    ensures Placed(Preempt(s, v))
  {
    ShapePlaced(s, CancelJobs(s.running, {v}));
  }

  lemma {:induction false} DispatchPlaced(cfg: Config, s: State)
    requires Placed(s)
    requires forall i :: 0 <= i < |s.running| ==> s.running[i].phase != Finished
    ensures Placed(Dispatch(cfg, s))
    decreases |s.queue|
  {
    if s.queue != [] {
      var choice := Scan(cfg, s, Candidates(cfg, s));
      IterationJustified(cfg, s);
      match choice
      case Nothing =>
      case Evict(v) => PreemptPlaced(s, v);
      case Take(j) =>
        ScanTakesQueued(cfg, s);
        AdmitPlaced(cfg, s, j);
        DispatchPlaced(cfg, Admit(cfg, s, j));
    }
  }

  lemma {:induction false} UnfinishedDistinct(running: seq<Slot>)
    requires SlotsDistinct(running)
    ensures SlotsDistinct(Unfinished(running))
  {
    if running != [] {
      var rest := Unfinished(running[1..]);
      UnfinishedDistinct(running[1..]);
      UnfinishedMembers(running[1..]);
      forall k | 0 <= k < |rest|
        ensures running[0].task < rest[k].task && running[0].job != rest[k].job
      {
        assert rest[k] in running[1..];
      }
    }
  }

  lemma ReapPlaced(s: State)
    requires Placed(s)
    ensures Placed(Reap(s))
    ensures forall i :: 0 <= i < |Reap(s).running| ==> Reap(s).running[i].phase != Finished
  {
    var reaped := Unfinished(s.running);
    ReapRefs(s);
    UnfinishedDistinct(s.running);
    UnfinishedMembers(s.running);
    forall i | 0 <= i < |reaped|
      ensures reaped[i] in s.running && reaped[i].phase != Finished
    {
      assert reaped[i] in reaped;
    }
    forall j
      ensures Held(reaped, j) <==> Held(s.running, j)
    {
      if Held(s.running, j) {
        var i :| 0 <= i < |s.running| && s.running[i].job == j && s.running[i].phase != Finished;
        assert s.running[i] in reaped;
      }
      if Held(reaped, j) {
        var i :| 0 <= i < |reaped| && reaped[i].job == j && reaped[i].phase != Finished;
        assert reaped[i] in s.running;
      }
    }
  }

  lemma SettlePlaced(s: State, j: nat, future: Future)
    requires Placed(s) && j < |s.jobs| && future != Pending
    ensures Placed(Settle(s, j, future))
  {
  }

  /** A task that ends no longer holds its job. */
  lemma FinishHeld(s: State, i: nat)
    requires SlotsDistinct(s.running) && i < |s.running| && s.running[i].phase != Finished
    ensures var r := WithPhase(s, i, Finished).running;
      forall j :: Held(r, j) <==> Held(s.running, j) && j != s.running[i].job
  {
    var r := WithPhase(s, i, Finished).running;
    forall j
      ensures Held(r, j) <==> Held(s.running, j) && j != s.running[i].job
    {
      if Held(s.running, j) && j != s.running[i].job {
        var k :| 0 <= k < |s.running| && s.running[k].job == j && s.running[k].phase != Finished;
        assert r[k] == s.running[k];
      }
      if Held(r, j) {
        var k :| 0 <= k < |r| && r[k].job == j && r[k].phase != Finished;
        assert k != i && r[k] == s.running[k];
      }
    }
  }

  lemma FirstStepPlaced(s: State, i: nat)
    requires Placed(s) && i < |s.running| && s.running[i].phase == Created
    ensures Placed(TakeFirstStep(s, i))
  {
    var s' := TakeFirstStep(s, i);
    if s.running[i].cancelRequested {
      FinishHeld(s, i);
    } else {
      forall j
        ensures Held(s'.running, j) <==> Held(s.running, j)
      {
        if Held(s.running, j) {
          var k :| 0 <= k < |s.running| && s.running[k].job == j && s.running[k].phase != Finished;
          assert s'.running[k].job == j;
        }
        if Held(s'.running, j) {
          var k :| 0 <= k < |s'.running| && s'.running[k].job == j && s'.running[k].phase != Finished;
          assert s.running[k].job == j;
        }
      }
    }
  }

  /** Placed, but for job `j`, which is nowhere. */
  ghost predicate PlacedBut(s: State, j: nat) {
    && Apart(s) && j < |s.jobs| && j !in s.queue && !Held(s.running, j) && j !in s.stillborn
    && forall x :: 0 <= x < |s.jobs| && x != j && s.jobs[x].future == Pending ==> Somewhere(s, x)
  }

  lemma FinishPlaced(s: State, i: nat)
    requires Placed(s) && i < |s.running| && s.running[i].phase == Started
    ensures PlacedBut(WithPhase(s, i, Finished), s.running[i].job)
  {
    FinishHeld(s, i);
  }

  lemma SettleBut(s: State, j: nat, future: Future)
    requires PlacedBut(s, j) && future != Pending
    ensures Placed(Settle(s, j, future))
  {
  }

  lemma RequeueBut(s: State, j: nat)
    requires PlacedBut(s, j)
    ensures Placed(Requeue(s, j))
  {
    var s' := Requeue(s, j);
    assert s'.queue[|s.queue|] == j;
    assert forall x :: x in s'.queue <==> x in s.queue || x == j;
  }

  lemma EndPlaced(s: State, i: nat, outcome: Outcome)
    requires Placed(s) && i < |s.running| && s.running[i].phase == Started
    ensures Placed(Handle(WithPhase(s, i, Finished), s.running[i].job, outcome))
  {
    var j, mid := s.running[i].job, WithPhase(s, i, Finished);
    FinishPlaced(s, i);
    match outcome
    case Returned(v) => SettleBut(mid, j, Result(v));
    case Raised(e) => SettleBut(mid, j, Failed(e));
    case CancelRaised => RequeueBut(mid, j); SettleBut(mid, j, Cancelled);
  }

  lemma CancelTurnPlaced(s: State, turn: int)
    requires Placed(s)
    ensures Placed(CancelTurn(s, turn))
  {
    SparedMembers(s.jobs, s.queue, turn);
    BelowByMembers(s.queue, Spared(s.jobs, s.queue, turn), |s.jobs|);
    var running := CancelJobs(s.running, TurnJobs(s.jobs, turn));
    ShapePlaced(s, running);
  }

  lemma RemovePlaced(s: State, j: nat)
    requires Placed(s) && j < |s.jobs| && s.jobs[j].future != Pending
    ensures Placed(Remove(s, j))
  {
    WithoutDistinct(s.queue, j);
    WithoutBelow(s.queue, j, |s.jobs|);
    ShapePlaced(s, CancelJobs(s.running, {j}));
  }

  lemma StepPlaced(cfg: Config, s: State, step: Step)
    requires Placed(s)
    ensures Placed(Apply(cfg, s, step))
  {
    match step
    case Tick(d) =>
    case SubmitJob(prio, isPure, turn) => SubmitPlaced(s, prio, isPure, turn);
    case Work => ReapPlaced(s); DispatchPlaced(cfg, Reap(s));
    case FirstStep(i) => if i < |s.running| && s.running[i].phase == Created { FirstStepPlaced(s, i); }
    case EndTask(i, outcome) => if i < |s.running| && s.running[i].phase == Started { EndPlaced(s, i, outcome); }
    case CancelTurnOf(turn) => CancelTurnPlaced(s, turn);
    case AwaitCancelled(j) => if j < |s.jobs| { SettlePlaced(s, j, Cancelled); }
    case SubmitterGone(j) => if j < |s.jobs| && s.jobs[j].future != Pending { RemovePlaced(s, j); }
  }

  lemma {:induction false} RunPlaced(cfg: Config, s: State, steps: seq<Step>)
    requires Placed(s)
    ensures Placed(Run(cfg, s, steps))
    decreases |steps|
  {
    if steps != [] {
      StepPlaced(cfg, s, steps[0]);
      RunPlaced(cfg, Apply(cfg, s, steps[0]), steps[1..]);
    }
  }

  // ---- conservation --------------------------------------------------------------------

  /** The jobs of the unfinished running tasks. */
  function HeldJobs(running: seq<Slot>): seq<nat> {
    if running == [] then []
    else (if running[0].phase == Finished then [] else [running[0].job]) + HeldJobs(running[1..])
  }

  /** In how many places a job is: occurrences in the queue, and unfinished running tasks that hold it. */
  function Places(s: State, j: nat): nat {
    multiset(s.queue)[j] + multiset(HeldJobs(s.running))[j]
  }

  lemma {:induction false} HeldJobsOnce(running: seq<Slot>)
    requires SlotsDistinct(running)
    ensures forall j :: j in HeldJobs(running) <==> Held(running, j)
    ensures Distinct(HeldJobs(running))
  {
    if running != [] {
      var rest := running[1..];
      HeldJobsOnce(rest);
      forall j
        ensures Held(running, j) <==> Held(rest, j) || (running[0].phase != Finished && running[0].job == j)
      {
        if Held(rest, j) {
          var i :| 0 <= i < |rest| && rest[i].job == j && rest[i].phase != Finished;
          assert running[i + 1] == rest[i];
        }
        if Held(running, j) {
          var i :| 0 <= i < |running| && running[i].job == j && running[i].phase != Finished;
          if i > 0 {
            assert rest[i - 1] == running[i];
          }
        }
      }
      assert !Held(rest, running[0].job);
    }
  }

  lemma CountOnce(q: seq<nat>, j: nat)
    requires Distinct(q)
    ensures multiset(q)[j] == if j in q then 1 else 0
  {
    DistinctByCount(q);
    assert j in q <==> j in multiset(q);
  }

  lemma PlacesOfPlaced(s: State, j: nat)
    requires Placed(s)
    ensures Places(s, j) == if j in s.queue || Held(s.running, j) then 1 else 0
  {
    HeldJobsOnce(s.running);
    CountOnce(s.queue, j);
    CountOnce(HeldJobs(s.running), j);
    if Held(s.running, j) {
      var i :| 0 <= i < |s.running| && s.running[i].job == j && s.running[i].phase != Finished;
    }
  }

  /** Conservation: in every run no job is ever in two places; and a job whose future is pending is in exactly one
      (once in the queue, or held by one unfinished task), unless its task was cancelled before its first step,
      and then it is in none. */
  lemma Conservation(cfg: Config, steps: seq<Step>, j: nat)
    ensures var s := Run(cfg, EMPTY, steps);
      && Places(s, j) <= 1
      && (j < |s.jobs| && s.jobs[j].future == Pending ==> (Places(s, j) == 1 <==> j !in s.stillborn))
  {
    RunPlaced(cfg, EMPTY, steps);
    PlacesOfPlaced(Run(cfg, EMPTY, steps), j);
  }

  /** A job that is pending and stillborn is lost for good: no later step puts it anywhere. */
  lemma {:induction false} StillbornForever(cfg: Config, s: State, steps: seq<Step>, j: nat)
    requires Placed(s) && j in s.stillborn
    ensures var s' := Run(cfg, s, steps);
      j in s'.stillborn && Places(s', j) == 0
    decreases |steps|
  {
    if steps == [] {
      PlacesOfPlaced(s, j);
    } else {
      StepPlaced(cfg, s, steps[0]);
      StillbornGrows(cfg, s, steps[0]);
      StillbornForever(cfg, Apply(cfg, s, steps[0]), steps[1..], j);
    }
  }

  lemma {:induction false} DispatchHistory(cfg: Config, s: State)
    requires Refs(s)
    ensures Dispatch(cfg, s).stillborn == s.stillborn && Dispatch(cfg, s).named == s.named
    ensures Dispatch(cfg, s).clock == s.clock
    decreases |s.queue|
  {
    if s.queue != [] && Scan(cfg, s, Candidates(cfg, s)).Take? {
      ScanTakesQueued(cfg, s);
      DispatchHistory(cfg, Admit(cfg, s, Scan(cfg, s, Candidates(cfg, s)).job));
    }
  }

  lemma StillbornGrows(cfg: Config, s: State, step: Step)
    requires Refs(s)
    ensures s.stillborn <= Apply(cfg, s, step).stillborn
    ensures s.named <= Apply(cfg, s, step).named
  {
    if step.Work? {
      ReapRefs(s);
      DispatchHistory(cfg, Reap(s));
    } else {
      OnlyWorkPicks(cfg, s, step);
    }
  }

  lemma OnlyWorkPicks(cfg: Config, s: State, step: Step)
    requires Refs(s) && !step.Work?
    ensures Apply(cfg, s, step).picks == s.picks
    ensures s.stillborn <= Apply(cfg, s, step).stillborn
    ensures s.named <= Apply(cfg, s, step).named
  {
    match step
    case Tick(_) =>
    case SubmitJob(_, _, _) =>
    case FirstStep(_) =>
    case EndTask(_, _) =>
    case CancelTurnOf(_) =>
    case AwaitCancelled(_) =>
    case SubmitterGone(_) =>
  }
}
