/** Exactly which jobs `cancel_turn` keeps from ever starting again. */
module SchedulerRevival {
  import opened Prelude
  import opened Scheduler
  import opened SchedulerDispatch
  import opened SchedulerRuns
  import opened SchedulerOnePass
  import opened SchedulerDrain
  import L = SchedulerLimits
  import A = SchedulerAnswers

  // ---- jobs that stay where they are ---------------------------------------------------

  /** Not queued, and in the hands of no task that could end in the handler. */
  ghost predicate Inert(s: State, j: nat) {
    && Refs(s) && j < |s.jobs| && j !in s.queue
    && forall i :: 0 <= i < |s.running| && s.running[i].job == j ==> Dying(s.running[i])
  }

  predicate Dying(slot: Slot) {
    slot.phase == Finished || (slot.phase == Created && slot.cancelRequested)
  }

  lemma {:induction false} DispatchInert(cfg: Config, s: State, j: nat)
    requires Inert(s, j)
    ensures Inert(Dispatch(cfg, s), j)
    decreases |s.queue|
  {
    if s.queue != [] && Scan(cfg, s, Candidates(cfg, s)).Take? {
      var x := Scan(cfg, s, Candidates(cfg, s)).job;
      ScanTakesQueued(cfg, s);
      WithoutMembers(s.queue, x);
      DispatchInert(cfg, Admit(cfg, s, x), j);
    }
  }

  lemma WorkInert(cfg: Config, s: State, j: nat)
    requires Inert(s, j)
    ensures Inert(Apply(cfg, s, Work), j)
  {
    ReapRefs(s);
    UnfinishedMembers(s.running);
    var r := Reap(s);
    forall i | 0 <= i < |r.running| && r.running[i].job == j
      ensures Dying(r.running[i])
    {
      assert r.running[i] in s.running;
    }
    DispatchInert(cfg, r, j);
  }

  lemma CancelTurnInert(cfg: Config, s: State, turn: int, j: nat)
    requires Inert(s, j)
    ensures Inert(Apply(cfg, s, CancelTurnOf(turn)), j)
  {
    SparedMembers(s.jobs, s.queue, turn);
  }

  lemma GoneInert(cfg: Config, s: State, x: nat, j: nat)
    requires Inert(s, j)
    ensures Inert(Apply(cfg, s, SubmitterGone(x)), j)
  {
    WithoutMembers(s.queue, x);
  }

  lemma StepInert(cfg: Config, s: State, step: Step, j: nat)
    requires Inert(s, j)
    ensures Inert(Apply(cfg, s, step), j)
  {
    match step
    case Work => WorkInert(cfg, s, j);
    case Tick(_) =>
    case SubmitJob(_, _, _) =>
    case FirstStep(_) =>
    case EndTask(_, _) =>
    case CancelTurnOf(turn) => CancelTurnInert(cfg, s, turn, j);
    case AwaitCancelled(_) =>
    case SubmitterGone(x) => GoneInert(cfg, s, x, j);
  }

  lemma {:induction false} InertForGood(cfg: Config, s: State, steps: seq<Step>, j: nat)
    requires Inert(s, j)
    ensures L.Starts(Run(cfg, s, steps).picks, j) == L.Starts(s.picks, j)
    decreases |steps|
  {
    if steps != [] {
      StepInert(cfg, s, steps[0], j);
      L.NamedNotStarted(cfg, s, steps[0], j);
      InertForGood(cfg, Apply(cfg, s, steps[0]), steps[1..], j);
    }
  }

  lemma {:induction false} DispatchSkipsDone(cfg: Config, s: State, j: nat)
    requires Refs(s) && j < |s.jobs| && s.jobs[j].future != Pending
    ensures L.Starts(Dispatch(cfg, s).picks, j) == L.Starts(s.picks, j)
    decreases |s.queue|
  {
    if s.queue != [] && Scan(cfg, s, Candidates(cfg, s)).Take? {
      var x := Scan(cfg, s, Candidates(cfg, s)).job;
      ScanTakesQueued(cfg, s);
      L.StartsSnoc(s.picks, Pick(x, Free(cfg, s), s.jobs[x].future == Pending), j);
      DispatchSkipsDone(cfg, Admit(cfg, s, x), j);
    }
  }

  lemma {:induction false} DoneNeverStarts(cfg: Config, s: State, steps: seq<Step>, j: nat)
    requires Refs(s) && j < |s.jobs| && s.jobs[j].future != Pending
    ensures L.Starts(Run(cfg, s, steps).picks, j) == L.Starts(s.picks, j)
    decreases |steps|
  {
    if steps != [] {
      if steps[0].Work? {
        ReapRefs(s);
        DispatchSkipsDone(cfg, Reap(s), j);
      } else {
        OnlyWorkPicks(cfg, s, steps[0]);
      }
      A.StepAnswers(cfg, s, steps[0], j);
      DoneNeverStarts(cfg, Apply(cfg, s, steps[0]), steps[1..], j);
    }
  }

  // ---- a preemptable job inside its factory comes back ---------------------------------

  /** Preemptable, and owed an answer. */
  predicate Prey(s: State, j: nat) {
    j < |s.jobs| && Preemptable(s.jobs[j]) && s.jobs[j].future == Pending
  }

  /** `j` is inside its factory, in the first entry, and beside it there are only chats that have not ended. */
  ghost predicate Crowd(s: State, j: nat) {
    && Placed(s) && Prey(s, j) && s.running != []
    && s.running[0].job == j && s.running[0].phase == Started
    && forall i :: 0 < i < |s.running| ==> IsChat(s.jobs[s.running[i].job]) && s.running[i].phase != Finished
  }

  lemma {:induction false} OneUnfinished(running: seq<Slot>, i: nat)
    requires i < |running| && running[i].phase != Finished
    requires forall k :: 0 <= k < |running| && k != i ==> running[k].phase == Finished
    ensures Unfinished(running) == [running[i]]
  {
    if i == 0 {
      NoneUnfinished(running[1..]);
    } else {
      OneUnfinished(running[1..], i - 1);
    }
  }

  lemma AloneAfterWork(cfg: Config, s: State, j: nat, i: nat)
    requires Placed(s) && Prey(s, j) && s.queue == []
    requires i < |s.running| && s.running[i].job == j && s.running[i].phase == Started
    requires forall k :: 0 <= k < |s.running| && k != i ==> s.running[k].phase == Finished
    ensures var s' := Run(cfg, s, [Work]); Crowd(s', j) && s'.queue == []
  {
    OneStep(cfg, s, Work);
    StepPlaced(cfg, s, Work);
    OneUnfinished(s.running, i);
  }

  /** Everything else leaves the scheduler. */
  lemma Isolate(cfg: Config, s: State, j: nat, i: nat) returns (steps: seq<Step>)
    requires Placed(s) && Prey(s, j) && i < |s.running| && s.running[i].job == j && s.running[i].phase == Started
    ensures Plain(steps)
    ensures var s' := Run(cfg, s, steps); Crowd(s', j) && s'.queue == []
  {
    var a := AllGiveUp(cfg, s);
    var s1 := Run(cfg, s, a);
    var b := AllEnd(cfg, s1, 0, i, j);
    ServingIsPlain(b);
    var s2 := Run(cfg, s1, b);
    AloneAfterWork(cfg, s2, j, i);
    RunAppend(cfg, s1, b, [Work]);
    RunAppend(cfg, s, a, b + [Work]);
    steps := a + (b + [Work]);
  }

  const CHAT := SubmitJob(PRIO_CHAT, true, None)

  lemma CrowdKeeps(s: State)
    requires forall i :: 0 <= i < |s.running| ==> s.running[i].phase != Finished
    ensures Reap(s) == s
  {
    AllUnfinished(s.running);
  }

  lemma OneChatTaken(cfg: Config, s: State, c: nat)
    requires Refs(s) && s.queue == [c] && c < |s.jobs| && IsChat(s.jobs[c]) && s.jobs[c].future == Pending
    requires Free(cfg, s) >= 1
    ensures var r := Dispatch(cfg, s);
      r.queue == [] && r.running == s.running + [Slot(s.tasks, c, Created, false)] && r.preempting == s.preempting
  {
    assert Candidates(cfg, s) == [c];
    assert Scan(cfg, s, [c]) == Take(c);
    assert Admit(cfg, s, c).queue == [];
  }

  /** A chat is submitted and takes a free slot. */
  lemma ChatJoins(cfg: Config, s: State, j: nat)
    requires Crowd(s, j) && s.queue == [] && Free(cfg, s) >= 1
    ensures var s' := Run(cfg, s, [CHAT, Work]);
      Crowd(s', j) && s'.queue == [] && |s'.running| == |s.running| + 1
  {
    var s1 := Apply(cfg, s, CHAT);
    TwoSteps(cfg, s, CHAT, Work);
    StepPlaced(cfg, s, CHAT);
    StepPlaced(cfg, s1, Work);
    CrowdKeeps(s1);
    assert s1.queue == [|s.jobs|];
    OneChatTaken(cfg, s1, |s.jobs|);
    CrowdGrows(s, Dispatch(cfg, s1), j);
  }

  lemma CrowdGrows(s: State, r: State, j: nat)
    requires Crowd(s, j) && Placed(r) && s.jobs <= r.jobs && |s.running| < |r.running| == |s.running| + 1
    requires s.running == r.running[..|s.running|]
    requires IsChat(r.jobs[r.running[|s.running|].job]) && r.running[|s.running|].phase != Finished
    ensures Crowd(r, j)
  {
    assert forall i :: 0 <= i < |s.running| ==> r.running[i] == s.running[i];
  }

  lemma OnlyPrey(s: State, j: nat)
    requires Crowd(s, j) && j !in s.preempting
    ensures Newest(s, s.running) == Some(j)
  {
    assert Victimizable(s, s.running[0]);
    var v := Newest(s, s.running).value;
    var i :| 0 <= i < |s.running| && s.running[i].job == v && Victimizable(s, s.running[i]);
  }

  /** `j` has been marked as a victim, and at most one chat waits. */
  ghost predicate Hunted(s: State, j: nat) {
    && Placed(s) && Prey(s, j) && s.running != [] && s.running[0].job == j && s.running[0].phase == Started
    && j in s.preempting && |s.queue| <= 1
  }

  lemma ChatWaits(cfg: Config, s: State, j: nat)
    requires Crowd(s, j) && s.queue != [] && Free(cfg, s) < 1 && |s.queue| == 1 && IsChat(s.jobs[s.queue[0]])
    requires j !in s.preempting
    ensures Dispatch(cfg, s) == Preempt(s, j)
  {
    OnlyPrey(s, j);
    StuckMakesRoom(cfg, s);
  }

  /** A chat is submitted, finds no slot, and `j` is marked for it. */
  lemma ChatMarks(cfg: Config, s: State, j: nat)
    requires Crowd(s, j) && s.queue == [] && Free(cfg, s) < 1 && j !in s.preempting
    ensures Hunted(Run(cfg, s, [CHAT, Work]), j)
  {
    var s1 := Apply(cfg, s, CHAT);
    TwoSteps(cfg, s, CHAT, Work);
    StepPlaced(cfg, s, CHAT);
    StepPlaced(cfg, s1, Work);
    CrowdKeeps(s1);
    assert s1.queue == [|s.jobs|];
    ChatWaits(cfg, s1, j);
  }

  /** Chats come until one finds no slot. */
  lemma {:induction false} Hunt(cfg: Config, s: State, j: nat) returns (steps: seq<Step>)
    requires Crowd(s, j) && s.queue == []
    ensures Plain(steps) && Hunted(Run(cfg, s, steps), j)
    decreases if Free(cfg, s) > 0 then Free(cfg, s) else 0
  {
    if j in s.preempting {
      steps := [];
    } else if Free(cfg, s) < 1 {
      ChatMarks(cfg, s, j);
      steps := [CHAT, Work];
    } else {
      ChatJoins(cfg, s, j);
      var rest := Hunt(cfg, Run(cfg, s, [CHAT, Work]), j);
      RunAppend(cfg, s, [CHAT, Work], rest);
      steps := [CHAT, Work] + rest;
    }
  }

  /** `j` waits in the queue, last, and no task holds it. */
  ghost predicate BackInQueue(s: State, j: nat) {
    && Placed(s) && Prey(s, j) && 1 <= |s.queue| <= 2 && s.queue[|s.queue| - 1] == j
    && forall i :: 0 <= i < |s.running| && s.running[i].job == j ==> s.running[i].phase == Finished
  }

  lemma Released(cfg: Config, s: State, j: nat)
    requires Hunted(s, j)
    ensures BackInQueue(Apply(cfg, s, EndTask(0, CancelRaised)), j)
  {
    StepPlaced(cfg, s, EndTask(0, CancelRaised));
  }

  lemma ChatGivesUp(cfg: Config, s: State, j: nat) returns (steps: seq<Step>)
    requires BackInQueue(s, j)
    ensures Plain(steps)
    ensures var s' := Run(cfg, s, steps); BackInQueue(s', j) && s'.queue == [j]
  {
    if |s.queue| == 1 {
      steps := [];
    } else {
      assert s.queue[0] != j;
      HeadGone(cfg, s);
      steps := [AwaitCancelled(s.queue[0]), SubmitterGone(s.queue[0])];
    }
  }

  lemma LastOneStarts(cfg: Config, s: State, j: nat)
    requires Placed(s) && Prey(s, j) && s.queue == [j] && AllFinished(s.running)
    ensures L.Starts(Run(cfg, s, [Work]).picks, j) == L.Starts(s.picks, j) + 1
  {
    OneStep(cfg, s, Work);
    NoneUnfinished(s.running);
    OnlyJobStarts(cfg, Reap(s), j);
  }

  lemma StartAgain(cfg: Config, s: State, j: nat) returns (steps: seq<Step>)
    requires BackInQueue(s, j) && s.queue == [j]
    ensures Plain(steps) && L.Starts(Run(cfg, s, steps).picks, j) == L.Starts(s.picks, j) + 1
  {
    var a := AllEnd(cfg, s, 0, |s.running|, j);
    ServingIsPlain(a);
    LastOneStarts(cfg, Run(cfg, s, a), j);
    RunAppend(cfg, s, a, [Work]);
    steps := a + [Work];
  }

  lemma {:induction false} StartsGrow(a: seq<Pick>, b: seq<Pick>, j: nat)
    ensures L.Starts(a, j) <= L.Starts(a + b, j)
    decreases |b|
  {
    if b == [] {
      assert a + b == a;
    } else {
      var front, last := b[..|b| - 1], b[|b| - 1];
      StartsGrow(a, front, j);
      assert a + b == a + front + [last];
      L.StartsSnoc(a + front, last, j);
    }
  }

  lemma {:induction false} RunPicks(cfg: Config, s: State, steps: seq<Step>)
    requires Refs(s)
    ensures s.picks <= Run(cfg, s, steps).picks
    decreases |steps|
  {
    if steps != [] {
      if steps[0].Work? {
        ReapRefs(s);
        DispatchPicks(cfg, Reap(s));
      } else {
        OnlyWorkPicks(cfg, s, steps[0]);
      }
      RunPicks(cfg, Apply(cfg, s, steps[0]), steps[1..]);
    }
  }

  lemma StartsOverRun(cfg: Config, s: State, steps: seq<Step>, j: nat)
    requires Refs(s)
    ensures L.Starts(s.picks, j) <= L.Starts(Run(cfg, s, steps).picks, j)
  {
    RunPicks(cfg, s, steps);
    var picks := Run(cfg, s, steps).picks;
    StartsGrow(s.picks, picks[|s.picks|..], j);
    assert picks == s.picks + picks[|s.picks|..];
  }

  lemma FromHunted(cfg: Config, s: State, j: nat) returns (steps: seq<Step>)
    requires Hunted(s, j)
    ensures Plain(steps) && L.Starts(Run(cfg, s, steps).picks, j) > L.Starts(s.picks, j)
  {
    var end := [EndTask(0, CancelRaised)];
    Released(cfg, s, j);
    OneStep(cfg, s, end[0]);
    var s1 := Run(cfg, s, end);
    var a := ChatGivesUp(cfg, s1, j);
    var s2 := Run(cfg, s1, a);
    var b := StartAgain(cfg, s2, j);
    RunAppend(cfg, s1, a, b);
    RunAppend(cfg, s, end, a + b);
    StartsOverRun(cfg, s, end, j);
    StartsOverRun(cfg, s1, a, j);
    steps := end + (a + b);
  }

  /** A pending preemptable job inside its factory can be preempted, queued and started again, with no `cancel_turn`. */
  lemma ComesBack(cfg: Config, s: State, j: nat, i: nat) returns (steps: seq<Step>)
    requires Placed(s) && Prey(s, j) && i < |s.running| && s.running[i].job == j && s.running[i].phase == Started
    ensures Plain(steps) && L.Starts(Run(cfg, s, steps).picks, j) > L.Starts(s.picks, j)
  {
    var a := Isolate(cfg, s, j, i);
    var s1 := Run(cfg, s, a);
    var b := Hunt(cfg, s1, j);
    var s2 := Run(cfg, s1, b);
    var c := FromHunted(cfg, s2, j);
    RunAppend(cfg, s1, b, c);
    RunAppend(cfg, s, a, b + c);
    StartsOverRun(cfg, s, a, j);
    StartsOverRun(cfg, s1, b, j);
    steps := a + (b + c);
  }

  // ---- what cancel_turn stops ----------------------------------------------------------

  /** A pending preemptable job with a task inside its factory. */
  ghost predicate Revivable(s: State, j: nat) {
    Prey(s, j) && exists i :: 0 <= i < |s.running| && s.running[i].job == j && s.running[i].phase == Started
  }

  /** In every continuation of `s` job `j` is started no more often than by then. */
  ghost predicate NeverStartsAgain(cfg: Config, s: State, j: nat)
    requires Refs(s)
  {
    forall after :: L.Starts(Run(cfg, s, after).picks, j) == L.Starts(s.picks, j)
  }

  lemma NamedIsInert(cfg: Config, s: State, turn: int, j: nat)
    requires Placed(s) && OfTurn(s.jobs, j, turn)
    requires forall i :: 0 <= i < |s.running| && s.running[i].job == j ==> s.running[i].phase != Started
    ensures Inert(Apply(cfg, s, CancelTurnOf(turn)), j)
  {
    SparedMembers(s.jobs, s.queue, turn);
  }

  lemma CancelledQueued(cfg: Config, s: State, turn: int, j: nat)
    requires Refs(s)
    ensures j < |s.jobs| && s.jobs[j].future != Pending ==> Apply(cfg, s, CancelTurnOf(turn)).jobs[j].future != Pending
    ensures Apply(cfg, s, CancelTurnOf(turn)).picks == s.picks && |Apply(cfg, s, CancelTurnOf(turn)).jobs| == |s.jobs|
  {
  }

  lemma StillPrey(cfg: Config, s: State, turn: int, j: nat, i: nat)
    requires Placed(s) && Prey(s, j) && i < |s.running| && s.running[i].job == j && s.running[i].phase == Started
    ensures var t := Apply(cfg, s, CancelTurnOf(turn));
      Placed(t) && Prey(t, j) && i < |t.running| && t.running[i].job == j && t.running[i].phase == Started
  {
    StepPlaced(cfg, s, CancelTurnOf(turn));
    assert j !in s.queue;
  }

  lemma KeptStill(cfg: Config, before: seq<Step>, turn: int, j: nat, after: seq<Step>)
    requires var s := Run(cfg, EMPTY, before); OfTurn(s.jobs, j, turn) && !Revivable(s, j)
    ensures var s := Run(cfg, EMPTY, before);
      L.Starts(Run(cfg, Apply(cfg, s, CancelTurnOf(turn)), after).picks, j) == L.Starts(s.picks, j)
  {
    var s := Run(cfg, EMPTY, before);
    var t := Apply(cfg, s, CancelTurnOf(turn));
    RunPlaced(cfg, EMPTY, before);
    CancelledQueued(cfg, s, turn, j);
    if !Preemptable(s.jobs[j]) {
      L.NeverAfterCancelTurn(cfg, before, turn, after, j);
    } else if s.jobs[j].future != Pending {
      DoneNeverStarts(cfg, t, after, j);
    } else {
      NamedIsInert(cfg, s, turn, j);
      InertForGood(cfg, t, after, j);
    }
  }

  /** What a cancel stops, exactly: in every reachable state, `cancel_turn` keeps a job of the turn from ever starting
      again if and only if it is not a pending preemptable job with a task inside its factory. Whether the job has been
      marked as a victim by then makes no difference: it can be marked while it unwinds. */
  lemma CancelTurnExactly(cfg: Config, before: seq<Step>, turn: int, j: nat)
    requires OfTurn(Run(cfg, EMPTY, before).jobs, j, turn)
    ensures var s := Run(cfg, EMPTY, before);
      NeverStartsAgain(cfg, Apply(cfg, s, CancelTurnOf(turn)), j) <==> !Revivable(s, j)
  {
    var s := Run(cfg, EMPTY, before);
    var t := Apply(cfg, s, CancelTurnOf(turn));
    CancelledQueued(cfg, s, turn, j);
    if Revivable(s, j) {
      var i :| 0 <= i < |s.running| && s.running[i].job == j && s.running[i].phase == Started;
      RunPlaced(cfg, EMPTY, before);
      StillPrey(cfg, s, turn, j, i);
      var after := ComesBack(cfg, t, j, i);
      assert L.Starts(Run(cfg, t, after).picks, j) != L.Starts(t.picks, j);
    } else {
      forall after
        ensures L.Starts(Run(cfg, t, after).picks, j) == L.Starts(t.picks, j)
      {
        KeptStill(cfg, before, turn, j, after);
      }
    }
  }
}
