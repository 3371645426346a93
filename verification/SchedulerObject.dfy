/** The scheduler object: each method, with its loops, against the functions of `Scheduler`. */
module SchedulerObject {
  import opened Prelude
  import opened Scheduler
  import SchedulerRuns

  class LlmScheduler {
    const cfg: Config
    var clock: real  // the last reading of the monotonic clock
    var jobs: seq<Job>
    var queue: seq<nat>
    var running: seq<Slot>
    var preempting: set<nat>
    var tasks: nat
    ghost var picks: seq<Pick>
    ghost var stillborn: set<nat>
    ghost var named: set<nat>

    ghost function View(): State
      reads this
    {
      State(clock, jobs, queue, running, preempting, tasks, picks, stillborn, named)
    }

    constructor (cfg: Config)
      ensures View() == EMPTY && this.cfg == cfg
    {
      this.cfg := cfg;
      clock, jobs, queue, running, preempting, tasks := 0.0, [], [], [], {}, 0;
      picks, stillborn, named := [], {}, {};
    }

    /** `submit` up to its await. */
    method SubmitJob(prio: int, isPure: bool, turn: Option<int>) returns (j: nat)
      modifies this`jobs, this`queue
      ensures View() == Submit(old(View()), prio, isPure, turn) && j == old(|jobs|)
    {
      j := |jobs|;
      jobs := jobs + [Job(prio, isPure, turn, clock, 0, Pending)];
      queue := queue + [j];
    }

    /** `task.cancel()` on the running tasks of the jobs in `victims`; how many entries matched. */
    method CancelTasks(victims: set<nat>) returns (count: nat)
      modifies this`running
      ensures running == CancelJobs(old(running), victims)
      ensures count == Matching(old(running), victims)
    {
      count := 0;
      for i := 0 to |running|
        invariant |running| == |old(running)|
        invariant forall k :: 0 <= k < i ==> running[k] == CancelJobs(old(running), victims)[k]
        invariant forall k :: i <= k < |running| ==> running[k] == old(running)[k]
        invariant count == Matching(old(running)[..i], victims)
      {
        MatchingSnoc(old(running), i, victims);
        if running[i].job in victims {
          running := running[i := CancelSlot(running[i])];
          count := count + 1;
        }
      }
      assert old(running)[..|old(running)|] == old(running);
    }

    /** The first loop of `cancel_turn`, over the queued jobs of the turn. */
    method CancelQueuedJobs(turn: int) returns (count: nat)
      modifies this`queue, this`jobs
      ensures queue == Spared(old(jobs), old(queue), turn)
      ensures jobs == CancelQueued(old(jobs), old(queue), turn)
      ensures count == |old(queue)| - |queue|
    {
      var listed := Listed(jobs, queue, turn);
      DropListed(jobs, [], queue, turn);
      assert [] + queue == queue && [] + Spared(jobs, queue, turn) == Spared(jobs, queue, turn);
      count := 0;
      for i := 0 to |listed|
        invariant DropEach(queue, listed[i..]) == Spared(old(jobs), old(queue), turn)
        invariant jobs == CancelSome(old(jobs), listed[..i])
        invariant count == i
      {
        var job := listed[i];
        assert job in listed;
        assert listed[i..][0] == job && listed[i..][1..] == listed[i + 1..];
        CancelOneMore(old(jobs), listed, i);
        queue := Without(queue, job);
        if jobs[job].future == Pending {
          jobs := jobs[job := jobs[job].(future := Cancelled)];
        }
        count := count + 1;
      }
      assert listed[..|listed|] == listed;
      CancelSomeIsAll(old(jobs), old(queue), turn);
      ListedAndSpared(old(jobs), old(queue), turn);
    }

    /** `cancel_turn` */
    method CancelTurnJobs(turn: int) returns (count: nat)
      modifies this
      ensures View() == CancelTurn(old(View()), turn)
      ensures count == |old(queue)| - |queue| + Matching(old(running), TurnJobs(old(jobs), turn))
    {
      named := named + TurnJobs(jobs, turn);
      count := CancelQueuedJobs(turn);
      assert TurnJobs(jobs, turn) == TurnJobs(old(jobs), turn) by {
        assert forall j: nat :: OfTurn(jobs, j, turn) <==> OfTurn(old(jobs), j, turn);
      }
      var more := CancelTasks(TurnJobs(jobs, turn));
      count := count + more;
    }

    /** `_remove` */
    method RemoveJob(j: nat)
      modifies this`queue, this`running
      ensures View() == Remove(old(View()), j)
    {
      if j in queue {
        queue := Without(queue, j);
      } else {
        NotThere(queue, j);
      }
      var count := CancelTasks({j});
    }

    /** The end of one wait of the worker: every finished task leaves the running map. */
    method ReapFinished()
      modifies this`running
      ensures View() == Reap(old(View()))
    {
      ghost var all := running;
      var left: seq<Slot> := [];
      for i := 0 to |running|
        invariant running == all
        invariant left + Unfinished(all[i..]) == Unfinished(all)
      {
        assert all[i..][0] == all[i] && all[i..][1..] == all[i + 1..];
        if running[i].phase != Finished {
          left := left + [running[i]];
          assert left + Unfinished(all[i + 1..]) == Unfinished(all);
        }
      }
      assert left + Unfinished(all[|all|..]) == left;
      running := left;
    }

    /** `_try_preempt` */
    method TryPreempt() returns (done: bool)
      requires Refs(View())
      modifies this`running, this`preempting
      ensures done == Newest(old(View()), old(running)).Some?
      ensures View() == if done then Preempt(old(View()), Newest(old(View()), old(running)).value) else old(View())
    {
      ghost var s := View();
      var victim: Option<nat> := None;
      for i := 0 to |running|
        invariant View() == s && victim == Newest(s, running[..i])
      {
        NewestOfMore(s, running, i);
        var job := running[i].job;
        if jobs[job].isPure && jobs[job].prio >= PRIO_EMBEDDINGS && job !in preempting {
          if victim.None? || job > victim.value {
            victim := Some(job);
          }
        }
      }
      assert running[..|running|] == running;
      if victim.None? { return false; }
      preempting := preempting + {victim.value};
      var count := CancelTasks({victim.value});
      return true;
    }

    /** The loop of `_dispatch` over the sorted candidates: the job it settles on, or none, and whether it has
        vacated a slot instead. */
    method Choose(free: int) returns (job: Option<nat>, vacating: bool)
      requires Refs(View()) && free == Free(cfg, View())
      modifies this`running, this`preempting
      ensures var choice := Scan(cfg, old(View()), Candidates(cfg, old(View())));
        && job == (if choice.Take? then Some(choice.job) else None)
        && vacating == choice.Evict?
        && View() == if choice.Evict? then Preempt(old(View()), choice.victim) else old(View())
    {
      var candidates := Sorted(cfg, jobs, clock, queue);
      ghost var s := View();
      for i := 0 to |candidates|
        invariant View() == s
        invariant Scan(cfg, s, candidates) == Scan(cfg, s, candidates[i..])
      {
        var cand := candidates[i];
        assert candidates[i..][0] == cand && candidates[i..][1..] == candidates[i + 1..];
        var isInteractive := jobs[cand].prio == PRIO_CHAT;
        if free >= 1 && isInteractive { return Some(cand), false; }
        if free > cfg.reserved && !isInteractive { return Some(cand), false; }
        if free < 1 && isInteractive {
          var done := TryPreempt();
          if done { return None, true; }
        }
      }
      assert candidates[|candidates|..] == [];
      return None, false;
    }

    /** `_dispatch` */
    method DispatchJobs()
      requires Refs(View())
      modifies this`queue, this`running, this`preempting, this`tasks, this`picks
      ensures View() == Dispatch(cfg, old(View()))
    {
      ghost var goal := Dispatch(cfg, View());
      while queue != []
        invariant Refs(View()) && Dispatch(cfg, View()) == goal
        decreases |queue|
      {
        ghost var s := View();
        var free := cfg.slots - |running|;
        var job, vacating := Choose(free);
        if vacating || job.None? { return; }
        ScanTakesQueued(cfg, s);
        StartJob(job.value, free);
      }
    }

    /** The rest of one iteration: the job leaves the queue, and gets a task unless it is done already. */
    method StartJob(j: nat, free: int)
      requires Refs(View()) && j < |jobs| && free == Free(cfg, View())
      modifies this`queue, this`running, this`tasks, this`picks
      ensures View() == Admit(cfg, old(View()), j)
    {
      queue := Without(queue, j);
      picks := picks + [Pick(j, free, jobs[j].future == Pending)];
      if jobs[j].future != Pending { return; }
      running := running + [Slot(tasks, j, Created, false)];
      tasks := tasks + 1;
    }

    /** One turn of `_run`, from the end of its wait to the next one. */
    method WorkerTurn()
      requires Refs(View())
      modifies this`queue, this`running, this`preempting, this`tasks, this`picks
      ensures View() == SchedulerRuns.Apply(cfg, old(View()), SchedulerRuns.Work)
    {
      SchedulerRuns.ReapRefs(View());
      ReapFinished();
      DispatchJobs();
    }

    /** What `_execute` does with the end of the factory of the task in entry `i`. */
    method FactoryEnds(i: nat, outcome: Outcome)
      requires Refs(View()) && i < |running|
      modifies this`jobs, this`queue, this`running, this`preempting
      ensures View() == Handle(old(View()).(running := old(running)[i := old(running)[i].(phase := Finished)]),
                               old(running)[i].job, outcome)
    {
      var j := running[i].job;
      running := running[i := running[i].(phase := Finished)];
      match outcome {
        case CancelRaised =>
          if j in preempting {
            preempting := preempting - {j};
            jobs := jobs[j := jobs[j].(preemptCount := jobs[j].preemptCount + 1)];
            jobs := jobs[j := jobs[j].(enqueuedAt := clock)];
            queue := queue + [j];
          } else if jobs[j].future == Pending {
            jobs := jobs[j := jobs[j].(future := Cancelled)];
          }
        case Raised(e) =>
          if jobs[j].future == Pending {
            jobs := jobs[j := jobs[j].(future := Failed(e))];
          }
        case Returned(v) =>
          if jobs[j].future == Pending {
            jobs := jobs[j := jobs[j].(future := Result(v))];
          }
      }
    }
  }

  lemma NewestOfMore(s: State, running: seq<Slot>, i: nat)
    requires i < |running| && forall k :: 0 <= k < |running| ==> running[k].job < |s.jobs|
    ensures var before := Newest(s, running[..i]);
      Newest(s, running[..i + 1])
      == if Victimizable(s, running[i]) && (before.None? || running[i].job > before.value)
         then Some(running[i].job) else before
  {
    assert running[..i + 1][..i] == running[..i];
  }

  // ---- lists of jobs of a turn ---------------------------------------------------------

  function Matching(running: seq<Slot>, victims: set<nat>): nat {
    if running == [] then 0
    else Matching(running[..|running| - 1], victims) + if running[|running| - 1].job in victims then 1 else 0
  }

  /** It is the number of entries with a job in `victims`. */
  lemma {:induction false} MatchingCounts(running: seq<Slot>, victims: set<nat>)
    ensures Matching(running, victims) == |set i | 0 <= i < |running| && running[i].job in victims|
    decreases |running|
  {
    if running != [] {
      var n := |running| - 1;
      var front := running[..n];
      MatchingCounts(front, victims);
      var before := set i | 0 <= i < n && front[i].job in victims;
      var all := set i | 0 <= i <= n && running[i].job in victims;
      assert all == if running[n].job in victims then before + {n} else before;
      assert all == set i | 0 <= i < |running| && running[i].job in victims;
    }
  }

  lemma MatchingSnoc(running: seq<Slot>, i: nat, victims: set<nat>)
    requires i < |running|
    ensures Matching(running[..i + 1], victims)
         == Matching(running[..i], victims) + if running[i].job in victims then 1 else 0
  {
    assert running[..i + 1][..i] == running[..i];
  }

  /** `[j for j in queue if j.turn_id == turn_id]` */
  function Listed(jobs: seq<Job>, queue: seq<nat>, turn: int): (r: seq<nat>)
    ensures forall x :: x in r ==> x in queue && OfTurn(jobs, x, turn)
  {
    if queue == [] then []
    else (if OfTurn(jobs, queue[0], turn) then [queue[0]] else []) + Listed(jobs, queue[1..], turn)
  }

  /** `queue.remove(job)` for each listed job. */
  function DropEach(queue: seq<nat>, listed: seq<nat>): seq<nat>
    decreases |listed|
  {
    if listed == [] then queue else DropEach(Without(queue, listed[0]), listed[1..])
  }

  function CancelSome(jobs: seq<Job>, listed: seq<nat>): (r: seq<Job>)
    ensures |r| == |jobs|
  {
    seq(|jobs|, i requires 0 <= i < |jobs| => if i in listed then Cancelling(jobs[i]) else jobs[i])
  }

  lemma {:induction false} NotThere(q: seq<nat>, j: nat)
    requires j !in q
    ensures Without(q, j) == q
  {
    if q != [] {
      NotThere(q[1..], j);
    }
  }

  /** Removing one by one what is listed leaves the queue to its spared part. */
  lemma {:induction false} DropListed(jobs: seq<Job>, done: seq<nat>, queue: seq<nat>, turn: int)
    requires forall x :: x in done ==> !OfTurn(jobs, x, turn)
    ensures DropEach(done + queue, Listed(jobs, queue, turn)) == done + Spared(jobs, queue, turn)
    decreases |queue|
  {
    if queue != [] {
      var q, rest := queue[0], queue[1..];
      assert queue == [q] + rest;
      if OfTurn(jobs, q, turn) {
        RemoveHere(done, q, rest);
        DropListed(jobs, done, rest, turn);
        ListOne(jobs, queue, turn);
      } else {
        DropListed(jobs, done + [q], rest, turn);
        Assoc(done, [q], rest);
        Assoc(done, [q], Spared(jobs, rest, turn));
        ListOne(jobs, queue, turn);
      }
    }
  }

  lemma ListOne(jobs: seq<Job>, queue: seq<nat>, turn: int)
    requires queue != []
    ensures var listed, spared := Listed(jobs, queue[1..], turn), Spared(jobs, queue[1..], turn);
      if OfTurn(jobs, queue[0], turn)
      then Listed(jobs, queue, turn) == [queue[0]] + listed && Spared(jobs, queue, turn) == spared
      else Listed(jobs, queue, turn) == listed && Spared(jobs, queue, turn) == [queue[0]] + spared
  {
    var listed, spared := Listed(jobs, queue[1..], turn), Spared(jobs, queue[1..], turn);
    assert [] + listed == listed && [] + spared == spared;
  }

  lemma {:induction false} RemoveHere(done: seq<nat>, q: nat, rest: seq<nat>)
    requires q !in done
    ensures Without(done + ([q] + rest), q) == done + rest
  {
    if done == [] {
      assert done + ([q] + rest) == [q] + rest;
    } else {
      assert (done + ([q] + rest))[1..] == done[1..] + ([q] + rest);
      RemoveHere(done[1..], q, rest);
    }
  }

  lemma CancelOneMore(jobs: seq<Job>, listed: seq<nat>, i: nat)
    requires i < |listed| && listed[i] < |jobs|
    ensures var before, after := CancelSome(jobs, listed[..i]), CancelSome(jobs, listed[..i + 1]);
      after == before[listed[i] := Cancelling(before[listed[i]])]
  {
    assert listed[..i + 1] == listed[..i] + [listed[i]];
  }

  lemma {:induction false} ListedAndSpared(jobs: seq<Job>, queue: seq<nat>, turn: int)
    ensures |Listed(jobs, queue, turn)| + |Spared(jobs, queue, turn)| == |queue|
    ensures forall x :: x in queue && OfTurn(jobs, x, turn) ==> x in Listed(jobs, queue, turn)
  {
    if queue != [] {
      ListedAndSpared(jobs, queue[1..], turn);
      assert queue == [queue[0]] + queue[1..];
    }
  }

  lemma CancelSomeIsAll(jobs: seq<Job>, queue: seq<nat>, turn: int)
    ensures CancelSome(jobs, Listed(jobs, queue, turn)) == CancelQueued(jobs, queue, turn)
  {
    ListedAndSpared(jobs, queue, turn);
  }
}
