/** Exactly what a turn of the worker preempts, and what a waiting chat can cost. */
module SchedulerVictims {
  import opened Prelude
  import opened Scheduler
  import opened SchedulerDispatch
  import opened SchedulerRuns
  import opened SchedulerOnePass

  /** The job that a turn of the worker marks for preemption, if any. */
  function Marked(u: State): Option<nat>
    requires Refs(u)
  {
    if ChatLeft(u) then Newest(u, u.running) else None
  }

  lemma MarksExactly(cfg: Config, s: State)
    requires Ready(s)
    ensures var v := Marked(Admitted(cfg, s));
      && Dispatch(cfg, s).preempting == s.preempting + (if v.Some? then {v.value} else {})
      && (v.Some? ==> v.value !in s.preempting)
  {
    AdmittedGrows(cfg, s);
    DispatchIsOnePass(cfg, s);
  }

  /** In every reachable state a turn of the worker marks one more victim exactly if its admission pass leaves a chat
      and some running task can be a victim; it is the newest, it was not marked before, and how many tasks that were
      marked earlier are still unfinished makes no difference. */
  lemma VictimOfATurn(cfg: Config, steps: seq<Step>)
    ensures var w := Run(cfg, EMPTY, steps);
      var v := Marked(Admitted(cfg, Waking(cfg, steps)));
      && Apply(cfg, w, Work).preempting == w.preempting + (if v.Some? then {v.value} else {})
      && (v.Some? ==> v.value !in w.preempting)
  {
    WakingReady(cfg, steps);
    MarksExactly(cfg, Waking(cfg, steps));
  }

  lemma StillHeld(s: State, u: State, e: nat)
    requires Ready(s) && Refs(u) && Grown(s, u) && Held(s.running, e)
    ensures Held(MakeRoom(u).running, e)
  {
    var i :| 0 <= i < |s.running| && s.running[i].job == e && s.running[i].phase != Finished;
    assert MakeRoom(u).running[i].job == e && MakeRoom(u).running[i].phase == s.running[i].phase;
  }

  /** An earlier victim whose task is still winding down is not counted as the slot it will free: the same turn marks
      another one beside it, exactly as if there were no earlier victim. */
  lemma EarlierVictimMakesNoDifference(cfg: Config, steps: seq<Step>, e: nat)
    requires var s := Waking(cfg, steps); e in s.preempting && Held(s.running, e)
    ensures var v := Marked(Admitted(cfg, Waking(cfg, steps)));
      var after := Apply(cfg, Run(cfg, EMPTY, steps), Work);
      && e in after.preempting && Held(after.running, e)
      && (v.Some? <==>
            exists other :: other != e && other !in Run(cfg, EMPTY, steps).preempting && other in after.preempting)
  {
    var s := Waking(cfg, steps);
    WakingReady(cfg, steps);
    VictimOfATurn(cfg, steps);
    AdmittedGrows(cfg, s);
    DispatchIsOnePass(cfg, s);
    StillHeld(s, Admitted(cfg, s), e);
  }

  /** Nothing queued can start, and a chat is among it. */
  ghost predicate Stuck(cfg: Config, s: State) {
    Ready(s) && NoneAdmissible(cfg, s, s.queue) && ChatLeft(s)
  }

  /** The jobs that preemption can still choose from. */
  function Victims(s: State): set<nat>
    requires Refs(s)
  {
    set i | 0 <= i < |s.running| && Victimizable(s, s.running[i]) :: s.running[i].job
  }

  lemma NewestIsVictim(s: State)
    requires Refs(s)
    ensures Newest(s, s.running).None? <==> Victims(s) == {}
    ensures Newest(s, s.running).Some? ==> Newest(s, s.running).value in Victims(s)
  {
    var v := Newest(s, s.running);
    if v.Some? {
      var i :| 0 <= i < |s.running| && s.running[i].job == v.value && Victimizable(s, s.running[i]);
      assert s.running[i].job in Victims(s);
    }
  }

  lemma StuckTurn(cfg: Config, s: State)
    requires Stuck(cfg, s)
    ensures Apply(cfg, s, Work) == MakeRoom(s) && Stuck(cfg, MakeRoom(s)) && MakeRoom(s).queue == s.queue
  {
    AllUnfinished(s.running);
    assert Reap(s) == s;
    StuckMakesRoom(cfg, s);
    assert Placed(MakeRoom(s)) by { StepPlaced(cfg, s, Work); }
    RoomKeepsStuck(cfg, s);
  }

  lemma RoomKeepsStuck(cfg: Config, s: State)
    requires Stuck(cfg, s) && Placed(MakeRoom(s))
    ensures Stuck(cfg, MakeRoom(s)) && MakeRoom(s).queue == s.queue
  {
    var r := MakeRoom(s);
    assert |r.running| == |s.running| && r.jobs == s.jobs;
    assert forall i :: 0 <= i < |s.running| ==> r.running[i].phase == s.running[i].phase;
  }

  lemma RoomVictims(s: State)
    requires Refs(s) && ChatLeft(s)
    ensures Refs(MakeRoom(s)) && ChatLeft(MakeRoom(s)) && MakeRoom(s).queue == s.queue
    ensures NextGone(Victims(s), Victims(MakeRoom(s)), s.preempting, MakeRoom(s).preempting)
  {
    NewestIsVictim(s);
    if Victims(s) != {} {
      PreemptVictims(s, Newest(s, s.running).value);
    }
  }

  lemma PreemptVictims(s: State, v: nat)
    requires Refs(s) && Refs(Preempt(s, v))
    ensures Victims(Preempt(s, v)) == Victims(s) - {v}
  {
    var r := Preempt(s, v);
    assert forall i :: 0 <= i < |s.running| ==> r.running[i].job == s.running[i].job;
    assert forall i :: 0 <= i < |s.running| ==>
      (Victimizable(r, r.running[i]) <==> Victimizable(s, s.running[i]) && s.running[i].job != v);
    forall x
      ensures x in Victims(r) <==> x in Victims(s) - {v}
    {
      if x in Victims(s) - {v} {
        var i :| 0 <= i < |s.running| && Victimizable(s, s.running[i]) && s.running[i].job == x;
        assert Victimizable(r, r.running[i]);
      }
    }
  }

  /** Of the victims `before` the newest has been marked, if there was one. */
  ghost predicate NextGone(before: set<nat>, after: set<nat>, marked: set<nat>, marked': set<nat>) {
    if before == {} then after == before && marked' == marked
    else exists v :: v in before && (forall x :: x in before ==> x <= v)
                     && after == before - {v} && marked' == marked + {v}
  }

  /** `n` victims have been marked, the newest ones of `before`, which leaves `after`. */
  ghost predicate NewestGone(before: set<nat>, after: set<nat>, marked: set<nat>, marked': set<nat>, n: nat) {
    && after <= before
    && |after| == (if n < |before| then |before| - n else 0)
    && (forall kept, gone :: kept in after && gone in before - after ==> kept < gone)
    && marked' == marked + (before - after)
  }

  lemma OneMoreGone(before: set<nat>, mid: set<nat>, after: set<nat>,
                    marked: set<nat>, marked1: set<nat>, marked': set<nat>, n: nat)
    requires n > 0 && NextGone(before, mid, marked, marked1) && NewestGone(mid, after, marked1, marked', n - 1)
    ensures NewestGone(before, after, marked, marked', n)
  {
    if before != {} {
      var v :| v in before && (forall x :: x in before ==> x <= v) && mid == before - {v} && marked1 == marked + {v};
      assert |mid| == |before| - 1;
      assert before - after == (mid - after) + {v};
      StillNewest(before, v, after);
    }
  }

  lemma StillNewest(before: set<nat>, v: nat, after: set<nat>)
    requires (forall x :: x in before ==> x <= v) && after <= before - {v}
    requires forall kept, gone :: kept in after && gone in (before - {v}) - after ==> kept < gone
    ensures forall kept, gone :: kept in after && gone in before - after ==> kept < gone
  {
    forall kept, gone | kept in after && gone in before - after
      ensures kept < gone
    {
      assert kept in before - {v};
      assert gone != v ==> gone in (before - {v}) - after;
    }
  }

  /** From `s` to `s'`, `n` victims have been marked, if there were as many, and nothing has left the queue. */
  ghost predicate Costs(s: State, s': State, n: nat) {
    && Refs(s) && Refs(s') && s.queue <= s'.queue
    && NewestGone(Victims(s), Victims(s'), s.preempting, s'.preempting, n)
  }

  lemma CostsNothing(s: State)
    requires Refs(s)
    ensures Costs(s, s, 0)
  {
    var victims := Victims(s);
    assert victims - victims == {};
  }

  lemma CostsMore(s: State, s1: State, s': State, n: nat)
    requires Refs(s) && Refs(s1) && n > 0 && Costs(s1, s', n - 1)
    requires s1.queue == s.queue && NextGone(Victims(s), Victims(s1), s.preempting, s1.preempting)
    ensures Costs(s, s', n)
  {
    OneMoreGone(Victims(s), Victims(s1), Victims(s'), s.preempting, s1.preempting, s'.preempting, n);
  }

  lemma CostsAsMuch(s: State, s1: State, s': State, n: nat)
    requires Refs(s) && Refs(s1) && Costs(s1, s', n)
    requires s.queue <= s1.queue && Victims(s1) == Victims(s) && s1.preempting == s.preempting
    ensures Costs(s, s', n)
  {
  }

  /** A turn of the worker, and what can come before the next one without freeing or opening a slot: the clock moves on,
      or a job is submitted, which wakes the worker. With a negative reserve a background job may find a slot open. */
  predicate Waiting(cfg: Config, s: State, step: Step) {
    step.Work? || step.Tick? || (step.SubmitJob? && (step.prio == PRIO_CHAT || Free(cfg, s) <= cfg.reserved))
  }

  function WorkCount(steps: seq<Step>): nat {
    if steps == [] then 0 else (if steps[0].Work? then 1 else 0) + WorkCount(steps[1..])
  }

  lemma VictimsOf(s: State, s1: State)
    requires Refs(s) && Refs(s1) && s1.running == s.running && s1.preempting == s.preempting && s.jobs <= s1.jobs
    ensures Victims(s1) == Victims(s)
  {
    assert forall i :: 0 <= i < |s.running| ==> (Victimizable(s1, s.running[i]) <==> Victimizable(s, s.running[i]));
  }

  lemma StuckWaits(cfg: Config, s: State, step: Step)
    requires Stuck(cfg, s) && Waiting(cfg, s, step) && !step.Work?
    ensures var s1 := Apply(cfg, s, step);
      && Stuck(cfg, s1) && s1.running == s.running && s.queue <= s1.queue
      && Victims(s1) == Victims(s) && s1.preempting == s.preempting
  {
    var s1 := Apply(cfg, s, step);
    StepPlaced(cfg, s, step);
    VictimsOf(s, s1);
    var i :| 0 <= i < |s.queue| && IsChat(s.jobs[s.queue[i]]);
    assert s1.queue[i] == s.queue[i];
  }

  lemma StillWaiting(cfg: Config, s: State, s1: State, steps: seq<Step>)
    requires steps != [] && |s1.running| == |s.running| && forall t :: t in steps ==> Waiting(cfg, s, t)
    ensures Waiting(cfg, s, steps[0]) && forall t :: t in steps[1..] ==> Waiting(cfg, s1, t)
  {
    assert steps[0] in steps;
    assert forall t :: t in steps[1..] ==> t in steps;
  }

  /** What one such step does to the victims. */
  ghost predicate CostOf(s: State, s1: State, step: Step) {
    && Refs(s) && Refs(s1) && |s1.running| == |s.running| && s.queue <= s1.queue
    && if step.Work? then s1.queue == s.queue && NextGone(Victims(s), Victims(s1), s.preempting, s1.preempting)
       else Victims(s1) == Victims(s) && s1.preempting == s.preempting
  }

  lemma StepCosts(cfg: Config, s: State, step: Step)
    requires Stuck(cfg, s) && Waiting(cfg, s, step)
    ensures Stuck(cfg, Apply(cfg, s, step)) && CostOf(s, Apply(cfg, s, step), step)
  {
    if step.Work? {
      StuckTurn(cfg, s);
      RoomVictims(s);
    } else {
      StuckWaits(cfg, s, step);
    }
  }

  lemma CostsJoin(s: State, s1: State, s': State, step: Step, n: nat)
    requires CostOf(s, s1, step) && Costs(s1, s', n)
    ensures Costs(s, s', n + if step.Work? then 1 else 0)
  {
    if step.Work? {
      CostsMore(s, s1, s', n + 1);
    } else {
      CostsAsMuch(s, s1, s', n);
    }
  }

  /** One waiting chat can cost every victim there is: while nothing queued can start, no task ends and jobs are still
      submitted, each turn of the worker marks one more victim, the newest first, until none is left. */
  lemma {:induction false} EachTurnCostsAVictim(cfg: Config, s: State, steps: seq<Step>)
    requires Stuck(cfg, s) && forall t :: t in steps ==> Waiting(cfg, s, t)
    ensures Costs(s, Run(cfg, s, steps), WorkCount(steps))
    decreases |steps|
  {
    if steps == [] {
      CostsNothing(s);
    } else {
      var s1 := Apply(cfg, s, steps[0]);
      assert steps[0] in steps;
      StepCosts(cfg, s, steps[0]);
      StillWaiting(cfg, s, s1, steps);
      EachTurnCostsAVictim(cfg, s1, steps[1..]);
      CostsJoin(s, s1, Run(cfg, s1, steps[1..]), steps[0], WorkCount(steps[1..]));
    }
  }
}
