/** The priority scheduler in front of the language model: slots, a reserved interactive slot, aging and
    preemption by cancellation. */
module Scheduler {
  import opened Prelude

  const PRIO_CHAT := 0
  const PRIO_PERCEPTION := 1
  const PRIO_EMBEDDINGS := 2
  const PRIO_CONSOLIDATION := 3

  datatype Future = Pending | Result(value: int) | Failed(error: int) | Cancelled

  /** A job is named by its sequence number, the index of its record in `jobs`. */
  datatype Job = Job(prio: int, isPure: bool, turn: Option<int>, enqueuedAt: real, preemptCount: nat, future: Future)

  /** A task has not run yet, is inside the handler's `try`, or is done. */
  datatype Phase = Created | Started | Finished

  /** One entry of the running map: a task with its job, and whether the task has been asked to cancel. */
  datatype Slot = Slot(task: nat, job: nat, phase: Phase, cancelRequested: bool)

  /** The constructor refuses `reserved >= slots`; times are exact. */
  datatype Settings = Settings(slots: int, reserved: int, agingS: real)
  type Config = c: Settings | c.reserved < c.slots && c.agingS > 0.0 witness Settings(2, 1, 60.0)

  /** History only: a job taken from the queue, with the free slots at that moment, and whether a task was made. */
  datatype Pick = Pick(job: nat, free: int, started: bool)

  /** The scheduler's fields and the clock. `picks`, `stillborn` (jobs whose task was cancelled before its first
      step) and `named` (jobs that existed when `cancel_turn` named their turn) are history: nothing reads them. */
  datatype State = State(clock: real, jobs: seq<Job>, queue: seq<nat>, running: seq<Slot>, preempting: set<nat>,
                         tasks: nat, picks: seq<Pick>, stillborn: set<nat>, named: set<nat>)

  const EMPTY := State(0.0, [], [], [], {}, 0, [], {}, {})

  predicate AllBelow(q: seq<nat>, n: nat) {
    forall i :: 0 <= i < |q| ==> q[i] < n
  }

  predicate Refs(s: State) {
    AllBelow(s.queue, |s.jobs|) && (forall i :: 0 <= i < |s.running| ==> s.running[i].job < |s.jobs|)
  }

  // ---- order and admission -------------------------------------------------------------

  /** Python's `int()` of a float. */
  function Trunc(x: real): int { if x >= 0.0 then x.Floor else -((-x).Floor) }

  function EffectivePrio(cfg: Config, job: Job, now: real): (p: int)
    ensures p >= 0
  {
    var aged := Trunc((now - job.enqueuedAt) / cfg.agingS);
    if job.prio - aged > 0 then job.prio - aged else 0
  }

  /** The sort key `(effective_prio, seq)` of `a` is below that of `b`. */
  predicate Before(cfg: Config, jobs: seq<Job>, now: real, a: nat, b: nat)
    requires a < |jobs| && b < |jobs|
  {
    var pa, pb := EffectivePrio(cfg, jobs[a], now), EffectivePrio(cfg, jobs[b], now);
    pa < pb || (pa == pb && a < b)
  }

  predicate IsChat(job: Job) { job.prio == PRIO_CHAT }

  predicate Preemptable(job: Job) { job.isPure && job.prio >= PRIO_EMBEDDINGS }

  function Free(cfg: Config, s: State): int { cfg.slots - |s.running| }

  predicate Admissible(cfg: Config, free: int, job: Job) {
    if IsChat(job) then free >= 1 else free > cfg.reserved
  }

  function Insert(cfg: Config, jobs: seq<Job>, now: real, x: nat, ys: seq<nat>): (r: seq<nat>)
    requires x < |jobs| && AllBelow(ys, |jobs|)
    ensures multiset(r) == multiset(ys) + multiset{x}
    ensures AllBelow(r, |jobs|)
  {
    if ys == [] || Before(cfg, jobs, now, x, ys[0]) then [x] + ys
    else
      assert ys == [ys[0]] + ys[1..];
      [ys[0]] + Insert(cfg, jobs, now, x, ys[1..])
  }

  /** `sorted(queue, key=(effective_prio, seq))` */
  function Sorted(cfg: Config, jobs: seq<Job>, now: real, queue: seq<nat>): (r: seq<nat>)
    requires AllBelow(queue, |jobs|)
    ensures multiset(r) == multiset(queue)
    ensures AllBelow(r, |jobs|)
  {
    if queue == [] then []
    else
      assert queue == [queue[0]] + queue[1..];
      Insert(cfg, jobs, now, queue[0], Sorted(cfg, jobs, now, queue[1..]))
  }

  /** `list.remove` */
  function Without(q: seq<nat>, j: nat): (r: seq<nat>)
    ensures |r| == if j in q then |q| - 1 else |q|
  {
    if q == [] then []
    else if q[0] == j then q[1..]
    else [q[0]] + Without(q[1..], j)
  }

  lemma {:induction false} WithoutCount(q: seq<nat>, j: nat)
    ensures multiset(Without(q, j)) == multiset(q) - multiset{j}
  {
    if q != [] {
      assert q == [q[0]] + q[1..];
      if q[0] != j {
        WithoutCount(q[1..], j);
      }
    }
  }

  lemma {:induction false} WithoutBelow(q: seq<nat>, j: nat, n: nat)
    requires AllBelow(q, n)
    ensures AllBelow(Without(q, j), n)
  {
    if q != [] && q[0] != j {
      WithoutBelow(q[1..], j, n);
    }
  }

  predicate Distinct(q: seq<nat>) {
    forall i, k :: 0 <= i < k < |q| ==> q[i] != q[k]
  }

  lemma {:induction false} DistinctByCount(q: seq<nat>)
    ensures Distinct(q) <==> forall x :: multiset(q)[x] <= 1
  {
    if q != [] {
      var rest := q[1..];
      DistinctByCount(rest);
      assert q == [q[0]] + rest;
      assert multiset(q) == multiset{q[0]} + multiset(rest);
      if Distinct(q) {
        assert Distinct(rest) && q[0] !in rest;
      }
      if forall x :: multiset(q)[x] <= 1 {
        assert forall x :: multiset(rest)[x] <= multiset(q)[x];
        assert q[0] !in multiset(rest);
      }
    }
  }

  lemma WithoutDistinct(q: seq<nat>, j: nat)
    requires Distinct(q)
    ensures Distinct(Without(q, j))
    ensures forall x :: x in Without(q, j) <==> x in q && x != j
  {
    WithoutCount(q, j);
    DistinctByCount(q);
    DistinctByCount(Without(q, j));
    assert forall x :: x in Without(q, j) <==> multiset(Without(q, j))[x] > 0;
    assert forall x :: x in q <==> multiset(q)[x] > 0;
  }

  // ---- preemption ----------------------------------------------------------------------

  predicate Victimizable(s: State, slot: Slot)
    requires slot.job < |s.jobs|
  {
    Preemptable(s.jobs[slot.job]) && slot.job !in s.preempting
  }

  /** The newest job in `slots` that may be preempted: the head of the victims sorted by falling seq. */
  function Newest(s: State, slots: seq<Slot>): (v: Option<nat>)
    requires forall i :: 0 <= i < |slots| ==> slots[i].job < |s.jobs|
    ensures v.Some? ==> exists i :: 0 <= i < |slots| && slots[i].job == v.value && Victimizable(s, slots[i])
    ensures forall i :: 0 <= i < |slots| && Victimizable(s, slots[i]) ==> v.Some? && slots[i].job <= v.value
  {
    if slots == [] then None
    else
      var last := slots[|slots| - 1];
      var rest := Newest(s, slots[..|slots| - 1]);
      if Victimizable(s, last) && (rest.None? || last.job > rest.value) then Some(last.job) else rest
  }

  /** `task.cancel()`; nothing happens to a finished task. */
  function CancelSlot(slot: Slot): Slot {
    if slot.phase == Finished then slot else slot.(cancelRequested := true)
  }

  /** `task.cancel()` on every task of a job in `victims`. */
  function CancelJobs(running: seq<Slot>, victims: set<nat>): (r: seq<Slot>)
    ensures |r| == |running|
    ensures forall i :: 0 <= i < |r| ==>
      r[i] == if running[i].job in victims then CancelSlot(running[i]) else running[i]
  {
    seq(|running|, i requires 0 <= i < |running| =>
      if running[i].job in victims then CancelSlot(running[i]) else running[i])
  }

  function Preempt(s: State, victim: nat): State {
    s.(preempting := s.preempting + {victim}, running := CancelJobs(s.running, {victim}))
  }

  // ---- dispatch ------------------------------------------------------------------------

  datatype Choice = Nothing | Take(job: nat) | Evict(victim: nat)

  /** The scan of the sorted candidates in one iteration of the dispatch loop. */
  function Scan(cfg: Config, s: State, cands: seq<nat>): Choice
    requires Refs(s) && AllBelow(cands, |s.jobs|)
  {
    if cands == [] then Nothing
    else
      var c := cands[0];
      if Admissible(cfg, Free(cfg, s), s.jobs[c]) then Take(c)
      else if Free(cfg, s) < 1 && IsChat(s.jobs[c]) && Newest(s, s.running).Some? then
        Evict(Newest(s, s.running).value)
      else Scan(cfg, s, cands[1..])
  }

  /** The job leaves the queue; a task is created for it unless its future is done already. */
  function Admit(cfg: Config, s: State, j: nat): (r: State)
    requires Refs(s) && j < |s.jobs|
    ensures Refs(r) && r.jobs == s.jobs
  {
    WithoutBelow(s.queue, j, |s.jobs|);
    var starts := s.jobs[j].future == Pending;
    s.(queue := Without(s.queue, j),
       picks := s.picks + [Pick(j, Free(cfg, s), starts)],
       running := if starts then s.running + [Slot(s.tasks, j, Created, false)] else s.running,
       tasks := if starts then s.tasks + 1 else s.tasks)
  }

  function Candidates(cfg: Config, s: State): seq<nat>
    requires Refs(s)
  {
    Sorted(cfg, s.jobs, s.clock, s.queue)
  }

  lemma {:induction false} ScanTakesCandidate(cfg: Config, s: State, cands: seq<nat>)
    requires Refs(s) && AllBelow(cands, |s.jobs|)
    ensures Scan(cfg, s, cands).Take? ==> Scan(cfg, s, cands).job in cands && Scan(cfg, s, cands).job < |s.jobs|
  {
    if cands != [] {
      ScanTakesCandidate(cfg, s, cands[1..]);
    }
  }

  lemma ScanTakesQueued(cfg: Config, s: State)
    requires Refs(s)
    ensures var choice := Scan(cfg, s, Candidates(cfg, s));
      choice.Take? ==> choice.job in s.queue && choice.job < |s.jobs|
  {
    ScanTakesCandidate(cfg, s, Candidates(cfg, s));
    assert forall j :: j in Candidates(cfg, s) <==> j in multiset(Candidates(cfg, s));
    assert forall j :: j in s.queue <==> j in multiset(s.queue);
  }

  function Dispatch(cfg: Config, s: State): (r: State)
    requires Refs(s)
    ensures Refs(r) && r.jobs == s.jobs
    decreases |s.queue|
  {
    if s.queue == [] then s
    else
      match Scan(cfg, s, Candidates(cfg, s))
      case Nothing => s
      case Evict(v) => Preempt(s, v)
      case Take(j) => ScanTakesQueued(cfg, s); Dispatch(cfg, Admit(cfg, s, j))
  }

  // ---- the other operations ------------------------------------------------------------

  function Submit(s: State, prio: int, isPure: bool, turn: Option<int>): State {
    s.(jobs := s.jobs + [Job(prio, isPure, turn, s.clock, 0, Pending)], queue := s.queue + [|s.jobs|])
  }

  predicate OfTurn(jobs: seq<Job>, j: nat, turn: int) {
    j < |jobs| && jobs[j].turn == Some(turn)
  }

  /** The part of the queue that is not of the turn. */
  function Spared(jobs: seq<Job>, queue: seq<nat>, turn: int): seq<nat> {
    if queue == [] then []
    else (if OfTurn(jobs, queue[0], turn) then [] else [queue[0]]) + Spared(jobs, queue[1..], turn)
  }

  function Cancelling(job: Job): Job {
    if job.future == Pending then job.(future := Cancelled) else job
  }

  function TurnJobs(jobs: seq<Job>, turn: int): set<nat> {
    set j | 0 <= j < |jobs| && OfTurn(jobs, j, turn)
  }

  /** The futures of the queued jobs of the turn are cancelled. */
  function CancelQueued(jobs: seq<Job>, queue: seq<nat>, turn: int): (r: seq<Job>)
    ensures |r| == |jobs|
  {
    seq(|jobs|, i requires 0 <= i < |jobs| =>
      if i in queue && OfTurn(jobs, i, turn) then Cancelling(jobs[i]) else jobs[i])
  }

  function CancelTurn(s: State, turn: int): State {
    s.(queue := Spared(s.jobs, s.queue, turn),
       jobs := CancelQueued(s.jobs, s.queue, turn),
       running := CancelJobs(s.running, TurnJobs(s.jobs, turn)),
       named := s.named + TurnJobs(s.jobs, turn))
  }

  /** The submitter's cancelled await: the job leaves the queue and its task is cancelled. */
  function Remove(s: State, j: nat): State {
    s.(queue := Without(s.queue, j), running := CancelJobs(s.running, {j}))
  }

  function Unfinished(running: seq<Slot>): seq<Slot> {
    if running == [] then []
    else (if running[0].phase == Finished then [] else [running[0]]) + Unfinished(running[1..])
  }

  function Reap(s: State): State {
    s.(running := Unfinished(s.running))
  }

  /** How the awaited factory ends. */
  datatype Outcome = Returned(value: int) | Raised(error: int) | CancelRaised

  function Settle(s: State, j: nat, future: Future): State
    requires j < |s.jobs|
  {
    if s.jobs[j].future == Pending then s.(jobs := s.jobs[j := s.jobs[j].(future := future)]) else s
  }

  /** A preempted job goes back to the queue: its future stays pending and its aging restarts. */
  function Requeue(s: State, j: nat): State
    requires j < |s.jobs|
  {
    var job := s.jobs[j];
    s.(preempting := s.preempting - {j},
       jobs := s.jobs[j := job.(preemptCount := job.preemptCount + 1, enqueuedAt := s.clock)],
       queue := s.queue + [j])
  }

  /** The handler around the factory. */
  function Handle(s: State, j: nat, outcome: Outcome): State
    requires j < |s.jobs|
  {
    match outcome
    case Returned(v) => Settle(s, j, Result(v))
    case Raised(e) => Settle(s, j, Failed(e))
    case CancelRaised => if j in s.preempting then Requeue(s, j) else Settle(s, j, Cancelled)
  }
}
