/** Runs that show why the guards of the scheduler's guarantees are needed. */
module SchedulerWitnesses {
  import opened Prelude
  import opened Scheduler
  import opened SchedulerDispatch
  import opened SchedulerRuns
  import opened SchedulerOnePass

  // ---- stepping through a dispatch -----------------------------------------------------

  lemma ChoiceIsTake(cfg: Config, s: State, choice: Choice, j: nat)
    requires Refs(s) && Justified(cfg, s, s.queue, choice)
    requires j in s.queue && Eligible(cfg, s, j) && Free(cfg, s) >= 1
    requires forall k :: k in s.queue && k != j && k < |s.jobs| ==> Before(cfg, s.jobs, s.clock, j, k)
    ensures choice == Take(j)
  {
    var at :| 0 <= at < |s.queue| && s.queue[at] == j;
    assert Eligible(cfg, s, s.queue[at]);
    if choice.Take? {
      assert !Before(cfg, s.jobs, s.clock, s.queue[at], choice.job);
    }
  }

  /** The job taken is settled when it comes before all others. */
  lemma Takes(cfg: Config, s: State, j: nat)
    requires Refs(s) && j in s.queue && Eligible(cfg, s, j) && Free(cfg, s) >= 1
    requires forall k :: k in s.queue && k != j && k < |s.jobs| ==> Before(cfg, s.jobs, s.clock, j, k)
    ensures Dispatch(cfg, s) == Dispatch(cfg, Admit(cfg, s, j))
  {
    IterationJustified(cfg, s);
    ScanTakesQueued(cfg, s);
    ChoiceIsTake(cfg, s, Scan(cfg, s, Candidates(cfg, s)), j);
  }

  lemma RunStep(cfg: Config, s: State, step: Step, rest: seq<Step>)
    requires Refs(s)
    ensures Run(cfg, s, [step] + rest) == Run(cfg, Apply(cfg, s, step), rest)
  {
    assert ([step] + rest)[1..] == rest;
  }

  lemma WorkStep(cfg: Config, s: State, rest: seq<Step>)
    requires Refs(s) && forall i :: 0 <= i < |s.running| ==> s.running[i].phase != Finished
    ensures Run(cfg, s, [Work] + rest) == Run(cfg, Dispatch(cfg, s), rest)
  {
    RunStep(cfg, s, Work, rest);
    AllUnfinished(s.running);
    assert Reap(s) == s;
  }

  /** A turn of the worker with nothing to start and nobody to evict. */
  lemma IdleStep(cfg: Config, s: State, rest: seq<Step>)
    requires Refs(s) && forall i :: 0 <= i < |s.running| ==> s.running[i].phase != Finished
    requires NoneAdmissible(cfg, s, s.queue) && (ChatLeft(s) ==> Newest(s, s.running).None?)
    ensures Run(cfg, s, [Work] + rest) == Run(cfg, s, rest)
  {
    WorkStep(cfg, s, rest);
    StuckMakesRoom(cfg, s);
  }

  function Fresh(prio: int, now: real): Job { Job(prio, true, None, now, 0, Pending) }

  function SubmitPure(prio: int): Step { SubmitJob(prio, true, None) }

  // ---- two jobs start ------------------------------------------------------------------

  const BUSY0 := Slot(0, 0, Started, false)
  const BUSY1 := Slot(1, 1, Started, false)

  /** Two jobs of one priority are submitted, the worker starts both, and both tasks begin. */
  function TwoOf(prio: int): seq<Step> {
    [SubmitPure(prio)] + ([SubmitPure(prio)] + ([Work] + ([FirstStep(0)] + ([FirstStep(1)] + []))))
  }

  predicate TwoQueued(s: State, prio: int) {
    && s.jobs == [Fresh(prio, 0.0), Fresh(prio, 0.0)] && s.queue == [0, 1] && s.running == [] && s.tasks == 0
    && s.preempting == {} && s.clock == 0.0 && s.stillborn == {}
  }

  predicate TwoRunning(s: State, prio: int) {
    && s.jobs == [Fresh(prio, 0.0), Fresh(prio, 0.0)] && s.queue == [] && s.running == [BUSY0, BUSY1] && s.tasks == 2
    && s.preempting == {} && s.clock == 0.0
  }

  lemma BothTaken(cfg: Config, s: State, prio: int)
    requires cfg.slots == 2 && 0 <= cfg.reserved && (prio == PRIO_CHAT || cfg.reserved == 0)
    requires TwoQueued(s, prio)
    ensures Refs(s) && var r := Dispatch(cfg, s);
      && r.jobs == s.jobs && r.queue == [] && r.tasks == 2 && r.preempting == {} && r.clock == 0.0
      && r.running == [Slot(0, 0, Created, false), Slot(1, 1, Created, false)]
  {
    assert s.queue[0] == 0;
    Takes(cfg, s, 0);
    var s1 := Admit(cfg, s, 0);
    assert s1.queue == [1] && s1.queue[0] == 1;
    Takes(cfg, s1, 1);
    var s2 := Admit(cfg, s1, 1);
    assert s2.queue == [] && s2.running == [Slot(0, 0, Created, false), Slot(1, 1, Created, false)];
  }

  lemma BothBegin(cfg: Config, s: State)
    requires Refs(s) && s.running == [Slot(0, 0, Created, false), Slot(1, 1, Created, false)]
    ensures Run(cfg, s, [FirstStep(0)] + ([FirstStep(1)] + [])) == s.(running := [BUSY0, BUSY1])
  {
    var s1 := Apply(cfg, s, FirstStep(0));
    RunStep(cfg, s, FirstStep(0), [FirstStep(1)] + []);
    RunStep(cfg, s1, FirstStep(1), []);
    assert s1.running == [BUSY0, Slot(1, 1, Created, false)];
    assert Apply(cfg, s1, FirstStep(1)).running == [BUSY0, BUSY1];
  }

  lemma TwoStart(cfg: Config, s0: State, prio: int)
    requires cfg.slots == 2 && 0 <= cfg.reserved && (prio == PRIO_CHAT || cfg.reserved == 0) && s0 == EMPTY
    ensures TwoRunning(Run(cfg, s0, TwoOf(prio)), prio)
  {
    var submit := SubmitPure(prio);
    var begin := [FirstStep(0)] + ([FirstStep(1)] + []);
    var s1 := Apply(cfg, s0, submit);
    var s2 := Apply(cfg, s1, submit);
    assert TwoQueued(s2, prio);
    RunStep(cfg, s0, submit, [submit] + ([Work] + begin));
    RunStep(cfg, s1, submit, [Work] + begin);
    WorkStep(cfg, s2, begin);
    BothTaken(cfg, s2, prio);
    BothBegin(cfg, Dispatch(cfg, s2));
  }

  // ---- a job whose task is cancelled before its first step is lost ---------------------

  /** In none of the places where a job can be, now and for good. */
  predicate LostIn(s: State, j: nat) {
    j in s.stillborn && Places(s, j) == 0
  }

  /** Any task that is cancelled before its first step loses its job: the handler never runs, so a future that is
      pending stays so, and the job never comes back. */
  lemma CancelledBeforeFirstStepIsLost(cfg: Config, s: State, i: nat, more: seq<Step>)
    requires Placed(s) && i < |s.running| && s.running[i].phase == Created && s.running[i].cancelRequested
    ensures var s' := Apply(cfg, s, FirstStep(i));
      && s'.jobs == s.jobs
      && LostIn(Run(cfg, s', more), s.running[i].job)
  {
    FirstStepPlaced(s, i);
    StillbornForever(cfg, TakeFirstStep(s, i), more, s.running[i].job);
  }

  // ---- an aged job is started and lost in one dispatch call -----------------------------

  const CFG: Config := Settings(2, 1, 60.0)

  /** Both slots are taken by chats; a background job comes first in the queue, then only chats. */
  predicate Waiting(s: State, now: real, jobs: nat) {
    && s.running == [BUSY0, BUSY1] && s.tasks == 2 && s.preempting == {} && s.clock == now
    && 3 <= jobs == |s.jobs| && (forall j :: 0 <= j < jobs ==> s.jobs[j].future == Pending)
    && IsChat(s.jobs[0]) && IsChat(s.jobs[1]) && s.jobs[2] == Fresh(PRIO_CONSOLIDATION, 0.0)
    && (forall j :: 2 < j < jobs ==> s.jobs[j] == Fresh(PRIO_CHAT, 180.0))
    && |s.queue| == jobs - 2 && (forall i :: 0 <= i < |s.queue| ==> s.queue[i] == i + 2)
  }

  lemma NobodyMoves(s: State, now: real, jobs: nat, rest: seq<Step>)
    requires Waiting(s, now, jobs)
    ensures Refs(s) && Run(CFG, s, [Work] + rest) == Run(CFG, s, rest)
  {
    assert !Victimizable(s, s.running[0]) && !Victimizable(s, s.running[1]);
    IdleStep(CFG, s, rest);
  }

  lemma ChatJoins(s: State, jobs: nat, rest: seq<Step>)
    requires Waiting(s, 180.0, jobs)
    ensures Refs(s) && Waiting(Submit(s, PRIO_CHAT, true, None), 180.0, jobs + 1)
    ensures Run(CFG, s, [SubmitPure(PRIO_CHAT)] + ([Work] + rest)) == Run(CFG, Submit(s, PRIO_CHAT, true, None), rest)
  {
    RunStep(CFG, s, SubmitPure(PRIO_CHAT), [Work] + rest);
    OneMoreWaits(s, jobs);
    NobodyMoves(Submit(s, PRIO_CHAT, true, None), 180.0, jobs + 1, rest);
  }

  lemma OneMoreWaits(s: State, jobs: nat)
    requires Waiting(s, 180.0, jobs)
    ensures Waiting(Submit(s, PRIO_CHAT, true, None), 180.0, jobs + 1)
  {
  }

  /** The two chats end in the same turn of the event loop. */
  function BothEnd(): seq<Step> {
    [EndTask(0, Returned(0))] + ([EndTask(1, Returned(0))] + [])
  }

  /** A background job and two chats are queued, all at level 0, and only finished tasks are in the running map. */
  predicate AgedAndTwoChats(s: State) {
    && |s.jobs| == 5 && s.queue == [2, 3, 4] && Unfinished(s.running) == [] && s.tasks == 2 && s.preempting == {}
    && Preemptable(s.jobs[2]) && IsChat(s.jobs[3]) && IsChat(s.jobs[4])
    && (forall j :: 2 <= j < 5 ==> s.jobs[j].future == Pending && EffectivePrio(CFG, s.jobs[j], s.clock) == 0)
  }

  lemma BothFinish(s: State)
    requires Waiting(s, 180.0, 5)
    ensures Refs(s) && AgedAndTwoChats(Run(CFG, s, BothEnd()))
  {
    var end0, end1 := EndTask(0, Returned(0)), EndTask(1, Returned(0));
    var s1 := Apply(CFG, s, end0);
    var s2 := Apply(CFG, s1, end1);
    RunStep(CFG, s, end0, [end1] + []);
    RunStep(CFG, s1, end1, []);
    assert s.queue == [2, 3, 4];
    assert s2.running == [Slot(0, 0, Finished, false), Slot(1, 1, Finished, false)];
    NoneUnfinished(s2.running);
    AgedToZero(CFG, s2.jobs[2], 180.0);
    ChatIsFirst(CFG, s2.jobs[3], 180.0);
    ChatIsFirst(CFG, s2.jobs[4], 180.0);
  }

  /** While two chats run, a background job is submitted, and two more chats three minutes later; the worker turns
      after each submission. Then both running chats end. */
  function LongWait(): seq<Step> {
    [SubmitPure(PRIO_CONSOLIDATION)] + ([Work] + ([Tick(180.0)]
    + ([SubmitPure(PRIO_CHAT)] + ([Work] + ([SubmitPure(PRIO_CHAT)] + ([Work] + BothEnd()))))))
  }

  lemma AgedIsReached(s: State)
    requires TwoRunning(s, PRIO_CHAT)
    ensures Refs(s) && AgedAndTwoChats(Run(CFG, s, LongWait()))
  {
    var chat := SubmitPure(PRIO_CHAT);
    var two := [chat] + ([Work] + ([chat] + ([Work] + BothEnd())));
    var s1 := Submit(s, PRIO_CONSOLIDATION, true, None);
    RunStep(CFG, s, SubmitPure(PRIO_CONSOLIDATION), [Work] + ([Tick(180.0)] + two));
    NobodyMoves(s1, 0.0, 3, [Tick(180.0)] + two);
    var s2 := s1.(clock := 180.0);
    RunStep(CFG, s1, Tick(180.0), two);
    ChatsJoin(s2);
  }

  lemma ChatsJoin(s: State)
    requires Waiting(s, 180.0, 3)
    ensures Refs(s)
    ensures AgedAndTwoChats(Run(CFG, s, [SubmitPure(PRIO_CHAT)]
                                        + ([Work] + ([SubmitPure(PRIO_CHAT)] + ([Work] + BothEnd())))))
  {
    var s1 := Submit(s, PRIO_CHAT, true, None);
    ChatJoins(s, 3, [SubmitPure(PRIO_CHAT)] + ([Work] + BothEnd()));
    ChatJoins(s1, 4, BothEnd());
    BothFinish(Submit(s1, PRIO_CHAT, true, None));
  }

  lemma AgedGoesFirst(s: State)
    requires AgedAndTwoChats(s) && s.running == []
    ensures Refs(s) && Dispatch(CFG, s) == Dispatch(CFG, Admit(CFG, s, 2))
    ensures Admit(CFG, s, 2).queue == [3, 4] && Admit(CFG, s, 2).running == [Slot(2, 2, Created, false)]
  {
    assert s.queue[0] == 2;
    Takes(CFG, s, 2);
  }

  lemma ChatGoesSecond(s: State)
    requires Refs(s) && |s.jobs| == 5 && s.queue == [3, 4] && s.running == [Slot(2, 2, Created, false)] && s.tasks == 3
    requires IsChat(s.jobs[3]) && IsChat(s.jobs[4]) && s.jobs[3].future == Pending
    requires forall j :: 3 <= j < 5 ==> EffectivePrio(CFG, s.jobs[j], s.clock) == 0
    ensures Dispatch(CFG, s) == Dispatch(CFG, Admit(CFG, s, 3)) && Admit(CFG, s, 3).queue == [4]
    ensures Admit(CFG, s, 3).running == [Slot(2, 2, Created, false), Slot(3, 3, Created, false)]
  {
    assert s.queue[0] == 3;
    Takes(CFG, s, 3);
  }

  lemma SecondChatEvicts(s: State)
    requires Refs(s) && |s.jobs| == 5 && s.queue == [4] && s.preempting == {}
    requires s.running == [Slot(2, 2, Created, false), Slot(3, 3, Created, false)]
    requires Preemptable(s.jobs[2]) && IsChat(s.jobs[3]) && IsChat(s.jobs[4])
    ensures Dispatch(CFG, s).running == [Slot(2, 2, Created, true), Slot(3, 3, Created, false)]
  {
    assert Victimizable(s, s.running[0]) && !Victimizable(s, s.running[1]);
    assert s.queue[0] == 4;
    StuckMakesRoom(CFG, s);
    var r := CancelJobs(s.running, {2 as nat});
    assert r[0] == Slot(2, 2, Created, true) && r[1] == Slot(3, 3, Created, false);
  }

  lemma AgedDispatch(s: State)
    requires AgedAndTwoChats(s) && s.running == []
    ensures Refs(s) && Dispatch(CFG, s).jobs == s.jobs
    ensures Dispatch(CFG, s).running == [Slot(2, 2, Created, true), Slot(3, 3, Created, false)]
  {
    AgedGoesFirst(s);
    var s1 := Admit(CFG, s, 2);
    ChatGoesSecond(s1);
    SecondChatEvicts(Admit(CFG, s1, 3));
  }

  /** A job of prio 3 that has waited three aging periods is at level 0. With two chats behind it and both slots free at
      last, one turn of the worker starts it, starts the first chat, and cancels it again for the second: the turn
      preempts its own task, and the job is lost although its future is pending. */
  lemma AgedJobPreemptedAtBirth(more: seq<Step>)
    ensures var s := Run(CFG, EMPTY, TwoOf(PRIO_CHAT) + LongWait());
      var s' := Apply(CFG, s, Work);
      && s.tasks == 2 && s'.running == [Slot(2, 2, Created, true), Slot(3, 3, Created, false)]
      && |s'.jobs| == 5 && s'.jobs[2].future == Pending
      && LostIn(Run(CFG, Apply(CFG, s', FirstStep(0)), more), 2)
  {
    TwoStart(CFG, EMPTY, PRIO_CHAT);
    AgedIsReached(Run(CFG, EMPTY, TwoOf(PRIO_CHAT)));
    RunAppend(CFG, EMPTY, TwoOf(PRIO_CHAT), LongWait());
    RunPlaced(CFG, EMPTY, TwoOf(PRIO_CHAT) + LongWait());
    LostAtBirth(Run(CFG, EMPTY, TwoOf(PRIO_CHAT) + LongWait()), more);
  }

  lemma LostAtBirth(s: State, more: seq<Step>)
    requires Placed(s) && AgedAndTwoChats(s)
    ensures var s' := Apply(CFG, s, Work);
      && s'.running == [Slot(2, 2, Created, true), Slot(3, 3, Created, false)] && s'.jobs == s.jobs
      && LostIn(Run(CFG, Apply(CFG, s', FirstStep(0)), more), 2)
  {
    StepPlaced(CFG, s, Work);
    AgedDispatch(Reap(s));
    CancelledBeforeFirstStepIsLost(CFG, Apply(CFG, s, Work), 0, more);
  }

  // ---- a victim of a cancelled turn ----------------------------------------------------

  /** A job of a cancelled turn, when the cancellation arrives, after any steps: it goes back to the queue if and only
      if it is marked as a preemption victim at that moment; and then its future stays as it is, while otherwise a
      pending one is cancelled. */
  lemma NamedVictimIsRequeued(cfg: Config, before: seq<Step>, turn: int, between: seq<Step>, i: nat)
    requires var s := Run(cfg, EMPTY, before);
      var s1 := Run(cfg, Apply(cfg, s, CancelTurnOf(turn)), between);
      i < |s1.running| && s1.running[i].phase == Started && OfTurn(s.jobs, s1.running[i].job, turn)
    ensures var s1 := Run(cfg, Apply(cfg, Run(cfg, EMPTY, before), CancelTurnOf(turn)), between);
      var j := s1.running[i].job;
      var s' := Apply(cfg, s1, EndTask(i, CancelRaised));
      && j in s'.named
      && (j in s'.queue <==> j in s1.preempting)
      && s'.jobs[j].future
         == if s1.jobs[j].future == Pending && j !in s1.preempting then Cancelled else s1.jobs[j].future
  {
    var s := Run(cfg, EMPTY, before);
    var t := Apply(cfg, s, CancelTurnOf(turn));
    RunPlaced(cfg, EMPTY, before);
    StepPlaced(cfg, s, CancelTurnOf(turn));
    DeliveredLater(cfg, t, between, i);
  }

  lemma DeliveredLater(cfg: Config, t: State, between: seq<Step>, i: nat)
    requires Placed(t)
    requires var s1 := Run(cfg, t, between);
      i < |s1.running| && s1.running[i].phase == Started && s1.running[i].job in t.named
    ensures var s1 := Run(cfg, t, between);
      var j := s1.running[i].job;
      var s' := Apply(cfg, s1, EndTask(i, CancelRaised));
      && j in s'.named
      && (j in s'.queue <==> j in s1.preempting)
      && s'.jobs[j].future
         == if s1.jobs[j].future == Pending && j !in s1.preempting then Cancelled else s1.jobs[j].future
  {
    RunPlaced(cfg, t, between);
    RunNames(cfg, t, between);
    EndOfNamed(cfg, Run(cfg, t, between), i);
  }

  lemma {:induction false} RunNames(cfg: Config, s: State, steps: seq<Step>)
    requires Refs(s)
    ensures s.named <= Run(cfg, s, steps).named
    decreases |steps|
  {
    if steps != [] {
      StillbornGrows(cfg, s, steps[0]);
      RunNames(cfg, Apply(cfg, s, steps[0]), steps[1..]);
    }
  }

  lemma EndOfNamed(cfg: Config, s: State, i: nat)
    requires Refs(s) && i < |s.running| && s.running[i].phase == Started && s.running[i].job !in s.queue
    ensures var j := s.running[i].job;
      var s' := Apply(cfg, s, EndTask(i, CancelRaised));
      && s'.named == s.named
      && (j in s'.queue <==> j in s.preempting)
      && s'.jobs[j].future
         == if s.jobs[j].future == Pending && j !in s.preempting then Cancelled else s.jobs[j].future
  {
    var j := s.running[i].job;
    var s' := Handle(WithPhase(s, i, Finished), j, CancelRaised);
    if j in s.preempting {
      assert s'.queue[|s.queue|] == j;
    }
  }

  // ---- marked after its turn was cancelled ---------------------------------------------

  const SINGLE: Config := Settings(1, 0, 60.0)

  function Background(turn: int): Step { SubmitJob(PRIO_CONSOLIDATION, true, Some(turn)) }

  /** A background job of turn 1 is submitted, starts, and is inside its factory. */
  function OneOfTurn(): seq<Step> {
    [Background(1)] + ([Work] + ([FirstStep(0)] + []))
  }

  /** A chat comes while the task unwinds, the worker turns, and then the cancellation arrives. */
  function ChatMeanwhile(): seq<Step> {
    [SubmitPure(PRIO_CHAT)] + ([Work] + ([EndTask(0, CancelRaised)] + []))
  }

  predicate Unwinding(s: State) {
    && |s.jobs| == 1 && s.jobs[0].prio == PRIO_CONSOLIDATION && s.jobs[0].isPure && s.jobs[0].turn == Some(1)
    && s.jobs[0].future == Pending
    && s.queue == [] && |s.running| == 1 && s.running[0].job == 0 && s.running[0].phase == Started
    && s.preempting == {}
  }

  lemma BackgroundTaken(s: State)
    requires s.jobs == [Job(PRIO_CONSOLIDATION, true, Some(1), 0.0, 0, Pending)]
    requires s.queue == [0] && s.running == [] && s.tasks == 0 && s.preempting == {}
    ensures Refs(s) && var r := Dispatch(SINGLE, s);
      r.jobs == s.jobs && r.queue == [] && r.running == [Slot(0, 0, Created, false)] && r.preempting == {}
  {
    assert s.queue[0] == 0;
    Takes(SINGLE, s, 0);
    assert Admit(SINGLE, s, 0).queue == [];
  }

  lemma OneIsUnwinding(s: State)
    requires s == EMPTY
    ensures Unwinding(Run(SINGLE, s, OneOfTurn()))
  {
    var s1 := Apply(SINGLE, s, Background(1));
    RunStep(SINGLE, s, Background(1), [Work] + ([FirstStep(0)] + []));
    OneEnters(s1);
  }

  lemma OneEnters(s: State)
    requires s.jobs == [Job(PRIO_CONSOLIDATION, true, Some(1), 0.0, 0, Pending)]
    requires s.queue == [0] && s.running == [] && s.tasks == 0 && s.preempting == {}
    ensures Refs(s) && Unwinding(Run(SINGLE, s, [Work] + ([FirstStep(0)] + [])))
  {
    WorkStep(SINGLE, s, [FirstStep(0)] + []);
    BackgroundTaken(s);
    FactoryEntered(Dispatch(SINGLE, s));
  }

  lemma FactoryEntered(s: State)
    requires s.jobs == [Job(PRIO_CONSOLIDATION, true, Some(1), 0.0, 0, Pending)]
    requires s.queue == [] && s.running == [Slot(0, 0, Created, false)] && s.preempting == {}
    ensures Refs(s) && Unwinding(Run(SINGLE, s, [FirstStep(0)] + []))
  {
    RunStep(SINGLE, s, FirstStep(0), []);
  }

  lemma OnlyOneToEvict(s: State)
    requires |s.jobs| == 2 && Preemptable(s.jobs[0]) && IsChat(s.jobs[1]) && s.queue == [1] && s.preempting == {}
    requires |s.running| == 1 && s.running[0].job == 0 && s.running[0].phase == Started
    ensures Refs(s) && var r := Dispatch(SINGLE, s);
      r.jobs == s.jobs && r.queue == [1] && r.preempting == {0} && |r.running| == 1
      && r.running[0].job == 0 && r.running[0].phase == Started
  {
    assert s.queue[0] == 1 && Victimizable(s, s.running[0]);
    StuckMakesRoom(SINGLE, s);
  }

  lemma UnwindsToQueue(s: State)
    requires Unwinding(s)
    ensures Refs(s) && var s' := Run(SINGLE, s, ChatMeanwhile());
      |s'.jobs| == 2 && s'.jobs[0].future == Pending && s'.queue == [1, 0]
  {
    var s1 := Submit(s, PRIO_CHAT, true, None);
    var end := EndTask(0, CancelRaised);
    RunStep(SINGLE, s, SubmitPure(PRIO_CHAT), [Work] + ([end] + []));
    WorkStep(SINGLE, s1, [end] + []);
    OnlyOneToEvict(s1);
    EndRequeues(Dispatch(SINGLE, s1));
  }

  lemma EndRequeues(s: State)
    requires |s.jobs| == 2 && s.jobs[0].future == Pending && s.queue == [1] && s.preempting == {0}
    requires |s.running| == 1 && s.running[0].job == 0 && s.running[0].phase == Started
    ensures Refs(s) && var s' := Run(SINGLE, s, [EndTask(0, CancelRaised)] + []);
      |s'.jobs| == 2 && s'.jobs[0].future == Pending && s'.queue == [1, 0]
  {
    RunStep(SINGLE, s, EndTask(0, CancelRaised), []);
  }

  lemma CancelFindsIt(s: State)
    requires Unwinding(s)
    ensures Refs(s) && var t := Apply(SINGLE, s, CancelTurnOf(1)); Unwinding(t) && 0 in t.named
  {
    assert OfTurn(s.jobs, 0, 1);
    assert Spared(s.jobs, [], 1) == [];
  }

  /** A job that was not marked when its turn was cancelled comes back all the same: a chat marks it while it
      unwinds. */
  lemma MarkedAfterCancel()
    ensures var s := Run(SINGLE, EMPTY, OneOfTurn());
      var t := Apply(SINGLE, s, CancelTurnOf(1));
      var s' := Run(SINGLE, t, ChatMeanwhile());
      && |s.jobs| == 1 && OfTurn(s.jobs, 0, 1) && s.preempting == {} && 0 in t.named
      && |s'.jobs| == 2 && s'.jobs[0].future == Pending && 0 in s'.queue
  {
    OneIsUnwinding(EMPTY);
    ComesBackMarked(Run(SINGLE, EMPTY, OneOfTurn()));
  }

  lemma ComesBackMarked(s: State)
    requires Unwinding(s)
    ensures Refs(s) && var t := Apply(SINGLE, s, CancelTurnOf(1));
      var s' := Run(SINGLE, t, ChatMeanwhile());
      0 in t.named && |s'.jobs| == 2 && s'.jobs[0].future == Pending && 0 in s'.queue
  {
    CancelFindsIt(s);
    UnwindsToQueue(Apply(SINGLE, s, CancelTurnOf(1)));
  }

  // ---- two victims for one chat --------------------------------------------------------

  const SHARED: Config := Settings(2, 0, 60.0)

  /** The chat is submitted, and the worker turns; another job is submitted, which wakes the worker again, before the
      task cancelled for the chat has ended. */
  function ChatThenOther(): seq<Step> {
    [SubmitPure(PRIO_CHAT)] + ([Work] + ([SubmitPure(PRIO_CONSOLIDATION)] + ([Work] + [])))
  }

  lemma NewestOfTwo(s: State, a: Slot, b: Slot)
    requires Refs(s) && s.running == [a, b] && a.job < |s.jobs| && b.job < |s.jobs|
    ensures Newest(s, s.running)
         == if Victimizable(s, b) && !(Victimizable(s, a) && a.job >= b.job) then Some(b.job)
            else if Victimizable(s, a) then Some(a.job) else None
  {
    assert s.running[..1] == [a] && [a][..0] == [];
  }

  lemma CancelOneOfTwo(a: Slot, b: Slot, v: nat)
    requires a.phase == b.phase == Started
    ensures CancelJobs([a, b], {v}) == [if a.job == v then a.(cancelRequested := true) else a,
                                        if b.job == v then b.(cancelRequested := true) else b]
  {
  }

  /** Jobs 0 and 1 run, with tasks `a` and `b`, and a chat waits at the head of the queue for a slot. */
  predicate FullWithChat(s: State, a: Slot, b: Slot) {
    && s.running == [a, b] && a.job == 0 && b.job == 1 && a.phase == b.phase == Started
    && 3 <= |s.jobs| && Preemptable(s.jobs[0]) && Preemptable(s.jobs[1]) && IsChat(s.jobs[2])
    && s.queue != [] && s.queue[0] == 2 && AllBelow(s.queue, |s.jobs|)
  }

  lemma EvictsOneOfTwo(s: State, a: Slot, b: Slot, v: nat)
    requires FullWithChat(s, a, b) && v < 2 && s.preempting == (if v == 1 then {} else {1})
    ensures Refs(s) && Dispatch(SHARED, s) == Preempt(s, v)
  {
    NoSlotForChat(s, a, b);
    VictimOfTwo(s, a, b, v);
    StuckEvicts(s, v);
  }

  lemma VictimOfTwo(s: State, a: Slot, b: Slot, v: nat)
    requires FullWithChat(s, a, b) && v < 2 && s.preempting == (if v == 1 then {} else {1})
    ensures Refs(s) && Newest(s, s.running) == Some(v)
  {
    NewestOfTwo(s, a, b);
  }

  lemma StuckEvicts(s: State, v: nat)
    requires Refs(s) && NoneAdmissible(SHARED, s, s.queue) && ChatLeft(s) && Newest(s, s.running) == Some(v)
    ensures Dispatch(SHARED, s) == Preempt(s, v)
  {
    StuckMakesRoom(SHARED, s);
  }

  lemma NoSlotForChat(s: State, a: Slot, b: Slot)
    requires FullWithChat(s, a, b)
    ensures Refs(s) && NoneAdmissible(SHARED, s, s.queue) && ChatLeft(s)
  {
  }

  /** A job is submitted and the worker turns, while both slots are taken by jobs that can be victims. */
  lemma SubmitAndEvict(s: State, prio: int, a: Slot, b: Slot, v: nat, rest: seq<Step>)
    requires Refs(s) && FullWithChat(Submit(s, prio, true, None), a, b) && v < 2
    requires s.preempting == (if v == 1 then {} else {1})
    ensures var s' := Preempt(Submit(s, prio, true, None), v);
      && Refs(s') && Run(SHARED, s, [SubmitPure(prio)] + ([Work] + rest)) == Run(SHARED, s', rest)
      && s'.running == [if v == 0 then a.(cancelRequested := true) else a,
                        if v == 1 then b.(cancelRequested := true) else b]
  {
    RunStep(SHARED, s, SubmitPure(prio), [Work] + rest);
    TurnEvicts(Submit(s, prio, true, None), a, b, v, rest);
  }

  lemma TurnEvicts(s: State, a: Slot, b: Slot, v: nat, rest: seq<Step>)
    requires FullWithChat(s, a, b) && v < 2 && s.preempting == (if v == 1 then {} else {1})
    ensures var s' := Preempt(s, v);
      && Refs(s) && Refs(s') && Run(SHARED, s, [Work] + rest) == Run(SHARED, s', rest)
      && s'.running == [if v == 0 then a.(cancelRequested := true) else a,
                        if v == 1 then b.(cancelRequested := true) else b]
  {
    WorkStep(SHARED, s, rest);
    EvictsOneOfTwo(s, a, b, v);
    CancelOneOfTwo(a, b, v);
  }

  lemma BothAreCancelled(s: State)
    requires TwoRunning(s, PRIO_CONSOLIDATION)
    ensures Refs(s) && var s' := Run(SHARED, s, ChatThenOther());
      && |s'.jobs| == 4 && IsChat(s'.jobs[2]) && !IsChat(s'.jobs[3])
      && s'.queue == [2, 3] && s'.preempting == {0, 1}
      && s'.running == [BUSY0.(cancelRequested := true), BUSY1.(cancelRequested := true)]
  {
    SubmitAndEvict(s, PRIO_CHAT, BUSY0, BUSY1, 1, [SubmitPure(PRIO_CONSOLIDATION)] + ([Work] + []));
    OtherIsCancelled(Preempt(Submit(s, PRIO_CHAT, true, None), 1));
  }

  lemma OtherIsCancelled(s: State)
    requires |s.jobs| == 3 && Preemptable(s.jobs[0]) && Preemptable(s.jobs[1]) && IsChat(s.jobs[2]) && s.queue == [2]
    requires s.running == [BUSY0, BUSY1.(cancelRequested := true)] && s.preempting == {1}
    ensures Refs(s) && var s' := Run(SHARED, s, [SubmitPure(PRIO_CONSOLIDATION)] + ([Work] + []));
      && |s'.jobs| == 4 && IsChat(s'.jobs[2]) && !IsChat(s'.jobs[3])
      && s'.queue == [2, 3] && s'.preempting == {0, 1}
      && s'.running == [BUSY0.(cancelRequested := true), BUSY1.(cancelRequested := true)]
  {
    SubmitAndEvict(s, PRIO_CONSOLIDATION, BUSY0, BUSY1.(cancelRequested := true), 0, []);
  }

  /** One waiting chat can cost two victims: both running background jobs are inside their factories and are cancelled,
      the second because the worker turns again before the first cancellation has taken effect. */
  lemma TwoVictimsForOneChat()
    ensures var s := Run(SHARED, EMPTY, TwoOf(PRIO_CONSOLIDATION) + ChatThenOther());
      && |s.jobs| == 4 && s.queue == [2, 3] && IsChat(s.jobs[2]) && !IsChat(s.jobs[3]) && s.preempting == {0, 1}
      && s.running == [Slot(0, 0, Started, true), Slot(1, 1, Started, true)]
  {
    TwoStart(SHARED, EMPTY, PRIO_CONSOLIDATION);
    RunAppend(SHARED, EMPTY, TwoOf(PRIO_CONSOLIDATION), ChatThenOther());
    BothAreCancelled(Run(SHARED, EMPTY, TwoOf(PRIO_CONSOLIDATION)));
  }

  // ---- a negative reserve --------------------------------------------------------------

  const OVERDRAWN: Config := Settings(1, -1, 60.0)

  /** A chat runs in the only slot; another chat waits, and a background job that has just been submitted. */
  predicate ChatAndBackground(s: State) {
    && s.jobs == [Fresh(PRIO_CHAT, 0.0), Fresh(PRIO_CHAT, 0.0), Fresh(PRIO_CONSOLIDATION, 0.0)] && s.clock == 0.0
    && s.queue == [1, 2] && s.running == [BUSY0] && s.tasks == 1 && s.preempting == {}
  }

  lemma NegativeTurn(s: State)
    requires ChatAndBackground(s)
    ensures Refs(s) && NoneAgedToZero(OVERDRAWN, s)
    ensures Apply(OVERDRAWN, s, Work).running == [BUSY0, Slot(1, 2, Created, true)]
  {
    AgingLevels(OVERDRAWN, s.jobs[2], s.clock, 0);
    AllUnfinished(s.running);
    assert Reap(s) == s;
    OnlyBackground(s);
    BackgroundAdmitted(s);
    SecondIsEvicted(Admit(OVERDRAWN, s, 2));
  }

  lemma BackgroundAdmitted(s: State)
    requires ChatAndBackground(s)
    ensures Refs(s) && var t := Admit(OVERDRAWN, s, 2);
      t.queue == [1] && t.running == [BUSY0, Slot(1, 2, Created, false)] && t.preempting == {}
  {
  }

  lemma SecondIsEvicted(t: State)
    requires Refs(t) && |t.jobs| == 3 && t.queue == [1] && t.running == [BUSY0, Slot(1, 2, Created, false)]
    requires IsChat(t.jobs[0]) && IsChat(t.jobs[1]) && Preemptable(t.jobs[2]) && t.preempting == {}
    ensures Dispatch(OVERDRAWN, t).running == [BUSY0, Slot(1, 2, Created, true)]
  {
    assert t.queue[0] == 1 && !Victimizable(t, t.running[0]) && Victimizable(t, t.running[1]);
    StuckMakesRoom(OVERDRAWN, t);
    var r := CancelJobs(t.running, {2 as nat});
    assert r[0] == BUSY0 && r[1] == Slot(1, 2, Created, true);
  }

  lemma OnlyBackground(s: State)
    requires ChatAndBackground(s)
    ensures Refs(s) && Dispatch(OVERDRAWN, s) == Dispatch(OVERDRAWN, Admit(OVERDRAWN, s, 2))
  {
    assert !Victimizable(s, s.running[0]);
    IterationJustified(OVERDRAWN, s);
    ScanTakesQueued(OVERDRAWN, s);
    assert Eligible(OVERDRAWN, s, s.queue[1]) && !Eligible(OVERDRAWN, s, s.queue[0]);
    assert Scan(OVERDRAWN, s, Candidates(OVERDRAWN, s)) == Take(2);
  }

  /** A chat is submitted and starts; then another chat and a background job are submitted. */
  function ChatsAndBackground(): seq<Step> {
    [SubmitPure(PRIO_CHAT)] + ([Work] + ([FirstStep(0)]
    + ([SubmitPure(PRIO_CHAT)] + ([SubmitPure(PRIO_CONSOLIDATION)] + []))))
  }

  predicate OneChat(s: State, queue: seq<nat>, running: seq<Slot>) {
    && s.jobs == [Fresh(PRIO_CHAT, 0.0)] && s.clock == 0.0 && s.queue == queue && s.running == running
    && s.tasks == |running| && s.preempting == {}
  }

  lemma ChatTaken(s: State)
    requires OneChat(s, [0], [])
    ensures Refs(s) && OneChat(Dispatch(OVERDRAWN, s), [], [Slot(0, 0, Created, false)])
  {
    assert s.queue[0] == 0;
    Takes(OVERDRAWN, s, 0);
    var t := Admit(OVERDRAWN, s, 0);
    assert t.queue == [] && t.running == [Slot(0, 0, Created, false)];
  }

  lemma ChatBegins(s: State)
    requires OneChat(s, [], [Slot(0, 0, Created, false)])
    ensures Refs(s) && OneChat(Apply(OVERDRAWN, s, FirstStep(0)), [], [BUSY0])
  {
  }

  lemma BackgroundJoins(s: State)
    requires OneChat(s, [], [BUSY0])
    ensures Refs(s)
    ensures ChatAndBackground(Run(OVERDRAWN, s, [SubmitPure(PRIO_CHAT)] + ([SubmitPure(PRIO_CONSOLIDATION)] + [])))
  {
    RunStep(OVERDRAWN, s, SubmitPure(PRIO_CHAT), [SubmitPure(PRIO_CONSOLIDATION)] + []);
    RunStep(OVERDRAWN, Submit(s, PRIO_CHAT, true, None), SubmitPure(PRIO_CONSOLIDATION), []);
  }

  lemma BackgroundIsReached(s: State)
    requires s == EMPTY
    ensures ChatAndBackground(Run(OVERDRAWN, s, ChatsAndBackground()))
  {
    var later := [SubmitPure(PRIO_CHAT)] + ([SubmitPure(PRIO_CONSOLIDATION)] + []);
    var s1 := Submit(s, PRIO_CHAT, true, None);
    RunStep(OVERDRAWN, s, SubmitPure(PRIO_CHAT), [Work] + ([FirstStep(0)] + later));
    WorkStep(OVERDRAWN, s1, [FirstStep(0)] + later);
    ChatTaken(s1);
    var s2 := Dispatch(OVERDRAWN, s1);
    RunStep(OVERDRAWN, s2, FirstStep(0), later);
    ChatBegins(s2);
    BackgroundJoins(Apply(OVERDRAWN, s2, FirstStep(0)));
  }

  /** With a negative reserve, which the constructor accepts, no aging is needed: a turn of the worker starts a
      background job although no slot is free, and cancels it again for a chat that waits. */
  lemma NegativeReserveEvictsItsOwn()
    ensures var s := Run(OVERDRAWN, EMPTY, ChatsAndBackground());
      && s.tasks == 1 && NoneAgedToZero(OVERDRAWN, s)
      && Apply(OVERDRAWN, s, Work).running == [BUSY0, Slot(1, 2, Created, true)]
  {
    BackgroundIsReached(EMPTY);
    NegativeTurn(Run(OVERDRAWN, EMPTY, ChatsAndBackground()));
  }
}
