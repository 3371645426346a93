/** From the turn manager to the scheduler: a turn is cancelled first in the manager, and its jobs once the
    notification of the cancel has been broadcast. */
module TurnAuthority {
  import opened Prelude
  import Turns
  import S = Scheduler
  import R = SchedulerRuns
  import L = SchedulerLimits
  import D = SchedulerDrain
  import V = SchedulerRevival

  /** `telling` has the turns whose `cancelled` notification is being broadcast, `told` those for which the
      scheduler's `cancel_turn` followed, `cut` those whose broadcast did not return. */
  datatype World = World(turns: Turns.World, sched: S.State, telling: seq<nat>, told: seq<nat>, cut: seq<nat>)

  const START := World(Turns.START, S.EMPTY, [], [], [])

  /** Only the notification calls `cancel_turn`, so the scheduler takes that step nowhere else. */
  datatype Step =
    | TurnStep(step: Turns.Step)
    | Told(i: nat)
    | Interrupted(i: nat)
    | SchedStep(work: R.Step)

  /** The turn, if any, whose `cancelled` notice was added last. */
  function Announced(before: seq<Turns.Notice>, after: seq<Turns.Notice>): seq<nat> {
    if |after| > |before| && after[|after| - 1].event.CancelEvent? then [after[|after| - 1].turn] else []
  }

  function WithoutAt(q: seq<nat>, i: nat): seq<nat>
    requires i < |q|
  {
    q[..i] + q[i + 1..]
  }

  function Apply(cfg: S.Config, w: World, step: Step): (w': World)
    requires S.Refs(w.sched)
    ensures S.Refs(w'.sched) && R.JobsKept(w.sched, w'.sched)
  {
    match step
    case TurnStep(s) =>
      var turns := Turns.Apply(w.turns, s);
      w.(turns := turns, telling := w.telling + Announced(w.turns.mgr.notices, turns.mgr.notices))
    case Told(i) =>
      if i >= |w.telling| then w
      else w.(sched := R.Apply(cfg, w.sched, R.CancelTurnOf(w.telling[i])),
              telling := WithoutAt(w.telling, i), told := w.told + [w.telling[i]])
    case Interrupted(i) =>
      if i >= |w.telling| then w else w.(telling := WithoutAt(w.telling, i), cut := w.cut + [w.telling[i]])
    case SchedStep(s) => if s.CancelTurnOf? then w else w.(sched := R.Apply(cfg, w.sched, s))
  }

  function Run(cfg: S.Config, w: World, steps: seq<Step>): (w': World)
    requires S.Refs(w.sched)
    ensures S.Refs(w'.sched) && R.JobsKept(w.sched, w'.sched)
    decreases |steps|
  {
    if steps == [] then w else Run(cfg, Apply(cfg, w, steps[0]), steps[1..])
  }

  // ---- one cancel_turn for each cancelled turn -----------------------------------------

  predicate IsCancelled(m: Turns.Manager, id: nat) { id in m.rows && m.rows[id] == Turns.Cancelled }

  /** How often `id` is in one of the three lists. */
  function Asked(w: World, id: nat): nat {
    multiset(w.telling)[id] + multiset(w.told)[id] + multiset(w.cut)[id]
  }

  ghost predicate Accounted(w: World) {
    Turns.Inv(w.turns) && forall id: nat :: Asked(w, id) == if IsCancelled(w.turns.mgr, id) then 1 else 0
  }

  /** A step of the manager announces a turn exactly when it cancels it. */
  lemma AnnouncedIsCancelled(w: Turns.World, step: Turns.Step, id: nat)
    requires Turns.Inv(w)
    ensures var m, m' := w.mgr, Turns.Apply(w, step).mgr;
      var ids := Announced(m.notices, m'.notices);
      && |ids| <= 1
      && (id in ids ==> !IsCancelled(m, id))
      && (IsCancelled(m', id) <==> IsCancelled(m, id) || id in ids)
  {
  }

  lemma WithoutOne(q: seq<nat>, i: nat)
    requires i < |q|
    ensures multiset(q) == multiset(WithoutAt(q, i)) + multiset{q[i]}
  {
    assert q == q[..i] + [q[i]] + q[i + 1..];
  }

  lemma StepAccounted(cfg: S.Config, w: World, step: Step)
    requires Accounted(w) && S.Refs(w.sched)
    ensures Accounted(Apply(cfg, w, step))
  {
    match step
    case TurnStep(s) =>
      Turns.StepKeeps(w.turns, s);
      forall id: nat
        ensures var w' := Apply(cfg, w, step); Asked(w', id) == if IsCancelled(w'.turns.mgr, id) then 1 else 0
      {
        AnnouncedIsCancelled(w.turns, s, id);
      }
    case Told(i) => if i < |w.telling| { WithoutOne(w.telling, i); }
    case Interrupted(i) => if i < |w.telling| { WithoutOne(w.telling, i); }
    case SchedStep(_) =>
  }

  lemma {:induction false} RunAccounted(cfg: S.Config, w: World, steps: seq<Step>)
    requires Accounted(w) && S.Refs(w.sched)
    ensures Accounted(Run(cfg, w, steps))
    decreases |steps|
  {
    if steps != [] {
      StepAccounted(cfg, w, steps[0]);
      RunAccounted(cfg, Apply(cfg, w, steps[0]), steps[1..]);
    }
  }

  /** In every run, each turn that the store has as cancelled has exactly one notification on its way, delivered
      with a `cancel_turn`, or cut short; no other turn ever has one. */
  lemma OneCancelPerTurn(cfg: S.Config, steps: seq<Step>, id: nat)
    ensures var w := Run(cfg, START, steps);
      Asked(w, id) == if IsCancelled(w.turns.mgr, id) then 1 else 0
  {
    RunAccounted(cfg, START, steps);
  }

  // ---- what cancel_turn stops ----------------------------------------------------------

  /** What the scheduler does in one step of the world. */
  function SchedPart(w: World, step: Step): seq<R.Step> {
    match step
    case Told(i) => if i < |w.telling| then [R.CancelTurnOf(w.telling[i])] else []
    case SchedStep(s) => if s.CancelTurnOf? then [] else [s]
    case _ => []
  }

  /** What the scheduler does in a run of the world. */
  function SchedRun(cfg: S.Config, w: World, steps: seq<Step>): seq<R.Step>
    requires S.Refs(w.sched)
    decreases |steps|
  {
    if steps == [] then [] else SchedPart(w, steps[0]) + SchedRun(cfg, Apply(cfg, w, steps[0]), steps[1..])
  }

  lemma SchedMoves(cfg: S.Config, w: World, step: Step)
    requires S.Refs(w.sched)
    ensures Apply(cfg, w, step).sched == R.Run(cfg, w.sched, SchedPart(w, step))
  {
    if SchedPart(w, step) != [] {
      D.OneStep(cfg, w.sched, SchedPart(w, step)[0]);
    }
  }

  lemma {:induction false} SchedRuns(cfg: S.Config, w: World, steps: seq<Step>)
    requires S.Refs(w.sched)
    ensures Run(cfg, w, steps).sched == R.Run(cfg, w.sched, SchedRun(cfg, w, steps))
    decreases |steps|
  {
    if steps != [] {
      var w1 := Apply(cfg, w, steps[0]);
      SchedMoves(cfg, w, steps[0]);
      SchedRuns(cfg, w1, steps[1..]);
      R.RunAppend(cfg, w.sched, SchedPart(w, steps[0]), SchedRun(cfg, w1, steps[1..]));
    }
  }

  lemma {:induction false} CancelledForGood(cfg: S.Config, w: World, steps: seq<Step>, id: nat)
    requires S.Refs(w.sched) && Turns.Inv(w.turns) && IsCancelled(w.turns.mgr, id)
    ensures IsCancelled(Run(cfg, w, steps).turns.mgr, id)
    decreases |steps|
  {
    if steps != [] {
      if steps[0].TurnStep? {
        Turns.StepKeeps(w.turns, steps[0].step);
        AnnouncedIsCancelled(w.turns, steps[0].step, id);
      }
      CancelledForGood(cfg, Apply(cfg, w, steps[0]), steps[1..], id);
    }
  }

  /** Steps of the scheduler alone. */
  function Lift(steps: seq<R.Step>): seq<Step> {
    if steps == [] then [] else [SchedStep(steps[0])] + Lift(steps[1..])
  }

  lemma {:induction false} LiftedRun(cfg: S.Config, w: World, steps: seq<R.Step>)
    requires S.Refs(w.sched) && D.Plain(steps)
    ensures Run(cfg, w, Lift(steps)).sched == R.Run(cfg, w.sched, steps)
    decreases |steps|
  {
    if steps != [] {
      assert steps[0] in steps && forall t :: t in steps[1..] ==> t in steps;
      var w1 := Apply(cfg, w, SchedStep(steps[0]));
      assert Lift(steps)[0] == SchedStep(steps[0]) && Lift(steps)[1..] == Lift(steps[1..]);
      LiftedRun(cfg, w1, steps[1..]);
    }
  }

  /** After cancel notification `i` is delivered and then `after`, job `j` has been started no more often than before,
      if it is a job of that turn. */
  ghost predicate KeptFromStarting(cfg: S.Config, w: World, i: nat, after: seq<Step>, j: nat)
    requires S.Refs(w.sched) && i < |w.telling|
  {
    var last := Run(cfg, Apply(cfg, w, Told(i)), after).sched;
    S.OfTurn(last.jobs, j, w.telling[i]) ==> L.Starts(last.picks, j) == L.Starts(w.sched.picks, j)
  }

  /** The job is one that a delivered cancel of turn `id` does not stop: a pending preemptable job of the turn with a
      task inside its factory. */
  ghost predicate Escapes(s: S.State, id: nat, j: nat) {
    S.OfTurn(s.jobs, j, id) && V.Revivable(s, j)
  }

  /** Barge-in, end to end: once the notification of a cancelled turn has been delivered, whatever the manager, the
      scheduler and further notifications do, the turn stays cancelled in the store, and a job of it is started (again)
      only if it was not yet submitted at that moment, or was a pending preemptable job inside its factory. */
  lemma CancelReachesTheScheduler(cfg: S.Config, before: seq<Step>, i: nat, after: seq<Step>, j: nat)
    requires i < |Run(cfg, START, before).telling|
    ensures var w := Run(cfg, START, before);
      var last := Run(cfg, Apply(cfg, w, Told(i)), after);
      && IsCancelled(last.turns.mgr, w.telling[i])
      && (S.OfTurn(last.sched.jobs, j, w.telling[i]) ==>
            || L.Starts(last.sched.picks, j) == L.Starts(w.sched.picks, j)
            || j >= |w.sched.jobs| || Escapes(w.sched, w.telling[i], j))
  {
    var w := Run(cfg, START, before);
    RunAccounted(cfg, START, before);
    assert w.telling[i] in multiset(w.telling);
    assert Asked(w, w.telling[i]) >= 1;
    CancelledForGood(cfg, Apply(cfg, w, Told(i)), after, w.telling[i]);
    if j < |w.sched.jobs| && !Escapes(w.sched, w.telling[i], j) {
      KeptIfSubmitted(cfg, before, i, after, j);
    }
  }

  /** What delivering a cancel stops for good, in every reachable world: exactly the jobs that had been submitted by
      then, but for the pending preemptable jobs of the turn that are inside their factories. For every other seq there
      is a continuation in which it is a job of the cancelled turn and is started (again). */
  lemma StoppedExactly(cfg: S.Config, before: seq<Step>, i: nat, j: nat)
    requires i < |Run(cfg, START, before).telling|
    ensures var w := Run(cfg, START, before);
      (forall after :: KeptFromStarting(cfg, w, i, after, j))
      <==> j < |w.sched.jobs| && !Escapes(w.sched, w.telling[i], j)
  {
    var w := Run(cfg, START, before);
    if j >= |w.sched.jobs| {
      var after := LaterStarts(cfg, before, i, j);
      assert !KeptFromStarting(cfg, w, i, after, j);
    } else if Escapes(w.sched, w.telling[i], j) {
      var after := EscapedStarts(cfg, before, i, j);
      assert !KeptFromStarting(cfg, w, i, after, j);
    } else {
      forall after
        ensures KeptFromStarting(cfg, w, i, after, j)
      {
        KeptIfSubmitted(cfg, before, i, after, j);
      }
    }
  }

  lemma ToldSched(cfg: S.Config, before: seq<Step>, i: nat)
    requires i < |Run(cfg, START, before).telling|
    ensures var w := Run(cfg, START, before);
      && w.sched == R.Run(cfg, S.EMPTY, SchedRun(cfg, START, before))
      && Apply(cfg, w, Told(i)).sched == R.Apply(cfg, w.sched, R.CancelTurnOf(w.telling[i]))
  {
    SchedRuns(cfg, START, before);
  }

  lemma ToldKeeps(cfg: S.Config, before: seq<Step>, i: nat)
    requires i < |Run(cfg, START, before).telling|
    ensures var w := Run(cfg, START, before);
      var told := Apply(cfg, w, Told(i)).sched;
      R.Placed(told) && L.Limited(told) && told.picks == w.sched.picks && |told.jobs| == |w.sched.jobs|
  {
    var w := Run(cfg, START, before);
    ToldSched(cfg, before, i);
    L.RunLimited(cfg, S.EMPTY, SchedRun(cfg, START, before));
    R.StepPlaced(cfg, w.sched, R.CancelTurnOf(w.telling[i]));
    L.StepLimited(cfg, w.sched, R.CancelTurnOf(w.telling[i]));
    V.CancelledQueued(cfg, w.sched, w.telling[i], 0);
  }

  lemma KeptIfSubmitted(cfg: S.Config, before: seq<Step>, i: nat, after: seq<Step>, j: nat)
    requires i < |Run(cfg, START, before).telling| && j < |Run(cfg, START, before).sched.jobs|
    requires var w := Run(cfg, START, before); !Escapes(w.sched, w.telling[i], j)
    ensures KeptFromStarting(cfg, Run(cfg, START, before), i, after, j)
  {
    var w := Run(cfg, START, before);
    var told := Apply(cfg, w, Told(i));
    ToldSched(cfg, before, i);
    SchedRuns(cfg, told, after);
    if S.OfTurn(Run(cfg, told, after).sched.jobs, j, w.telling[i]) {
      assert S.OfTurn(w.sched.jobs, j, w.telling[i]);
      V.KeptStill(cfg, SchedRun(cfg, START, before), w.telling[i], j, SchedRun(cfg, told, after));
    }
  }

  lemma EscapedStarts(cfg: S.Config, before: seq<Step>, i: nat, j: nat) returns (after: seq<Step>)
    requires i < |Run(cfg, START, before).telling|
    requires var w := Run(cfg, START, before); Escapes(w.sched, w.telling[i], j)
    ensures !KeptFromStarting(cfg, Run(cfg, START, before), i, after, j)
  {
    var w := Run(cfg, START, before);
    var told := Apply(cfg, w, Told(i));
    ToldSched(cfg, before, i);
    R.RunPlaced(cfg, S.EMPTY, SchedRun(cfg, START, before));
    var k :| 0 <= k < |w.sched.running| && w.sched.running[k].job == j && w.sched.running[k].phase == S.Started;
    V.StillPrey(cfg, w.sched, w.telling[i], j, k);
    V.CancelledQueued(cfg, w.sched, w.telling[i], j);
    var steps := V.ComesBack(cfg, told.sched, j, k);
    LiftedRun(cfg, told, steps);
    after := Lift(steps);
  }

  lemma LaterStarts(cfg: S.Config, before: seq<Step>, i: nat, j: nat) returns (after: seq<Step>)
    requires i < |Run(cfg, START, before).telling| && |Run(cfg, START, before).sched.jobs| <= j
    ensures !KeptFromStarting(cfg, Run(cfg, START, before), i, after, j)
  {
    var w := Run(cfg, START, before);
    var told := Apply(cfg, w, Told(i));
    ToldKeeps(cfg, before, i);
    var steps := D.AnyLaterJobCanStart(cfg, told.sched, j, w.telling[i]);
    LiftedRun(cfg, told, steps);
    after := Lift(steps);
  }

  // ---- a job that is submitted too late to be stopped -----------------------------------

  const CFG: S.Config := S.Settings(2, 1, 60.0)

  function CancelStep(): Turns.Step { Turns.CancelStep(1, "user_cancel", Some(1)) }

  /** A turn begins, and its owner cancels it before its task exists: there is nothing to stop in the scheduler. */
  function CancelledEarly(): seq<Step> {
    [TurnStep(Turns.Begin("balloon", 1))] + ([TurnStep(CancelStep())] + ([Told(0)] + []))
  }

  /** The task, created all the same, submits the chat job of the turn, and the worker turns. */
  function WorkedOnAnyway(): seq<Step> {
    [SchedStep(R.SubmitJob(S.PRIO_CHAT, true, Some(1)))] + ([SchedStep(R.Work)] + [])
  }

  lemma RunStep(w: World, step: Step, rest: seq<Step>)
    requires S.Refs(w.sched)
    ensures Run(CFG, w, [step] + rest) == Run(CFG, Apply(CFG, w, step), rest)
  {
    assert ([step] + rest)[1..] == rest;
  }

  lemma ToldOfNothing(w: World)
    requires w == START
    ensures var w' := Run(CFG, w, CancelledEarly());
      && w'.told == [1] && w'.telling == [] && IsCancelled(w'.turns.mgr, 1)
      && w'.sched.jobs == [] && w'.sched.queue == [] && w'.sched.running == [] && w'.sched.picks == []
  {
    var begin, cancel := TurnStep(Turns.Begin("balloon", 1)), TurnStep(CancelStep());
    var w1 := Apply(CFG, w, begin);
    var w2 := Apply(CFG, w1, cancel);
    assert w1.telling == [] && w2.telling == [1];
    RunStep(w, begin, [cancel] + ([Told(0)] + []));
    RunStep(w1, cancel, [Told(0)] + []);
    RunStep(w2, Told(0), []);
    assert WithoutAt([1], 0) == [];
  }

  lemma OnlyJobStarts(s: S.State)
    requires |s.jobs| == 1 && s.queue == [0] && s.running == [] && s.picks == []
    requires S.IsChat(s.jobs[0]) && s.jobs[0].future == S.Pending
    ensures S.Refs(s) && L.Starts(S.Dispatch(CFG, s).picks, 0) == 1
  {
    assert S.Candidates(CFG, s) == [0];
    assert S.Scan(CFG, s, [0]) == S.Take(0);
    var t := S.Admit(CFG, s, 0);
    assert t.queue == [] && t.picks == [S.Pick(0, 2, true)];
    assert t.picks[..0] == [];
  }

  lemma LateJobStarts(w: World)
    requires w.sched.jobs == [] && w.sched.queue == [] && w.sched.running == [] && w.sched.picks == []
    ensures var w' := Run(CFG, w, WorkedOnAnyway());
      && w'.turns == w.turns && |w'.sched.jobs| == 1 && S.OfTurn(w'.sched.jobs, 0, 1)
      && S.IsChat(w'.sched.jobs[0]) && L.Starts(w'.sched.picks, 0) == 1
  {
    var submit := R.SubmitJob(S.PRIO_CHAT, true, Some(1));
    var w1 := Apply(CFG, w, SchedStep(submit));
    RunStep(w, SchedStep(submit), [SchedStep(R.Work)] + []);
    RunStep(w1, SchedStep(R.Work), []);
    assert S.Reap(w1.sched) == w1.sched;
    OnlyJobStarts(w1.sched);
  }

  /** The other case happens: a turn is cancelled while `begin` still awaits the `started` notification, `cancel_turn`
      finds no job of it, and then its chat job is submitted and started. */
  lemma CancelComesTooEarly()
    ensures var w := Run(CFG, START, CancelledEarly());
      var last := Run(CFG, w, WorkedOnAnyway());
      && w.told == [1] && w.sched.jobs == []
      && IsCancelled(last.turns.mgr, 1) && |last.sched.jobs| == 1 && S.OfTurn(last.sched.jobs, 0, 1)
      && S.IsChat(last.sched.jobs[0]) && L.Starts(last.sched.picks, 0) == 1
  {
    ToldOfNothing(START);
    LateJobStarts(Run(CFG, START, CancelledEarly()));
  }
}
