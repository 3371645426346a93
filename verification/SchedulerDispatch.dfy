/** What one dispatch call guarantees. */
module SchedulerDispatch {
  import opened Prelude
  import opened Scheduler

  // ---- the candidates are in order -----------------------------------------------------

  predicate Ordered(cfg: Config, jobs: seq<Job>, now: real, q: seq<nat>)
    requires AllBelow(q, |jobs|)
  {
    forall i, k :: 0 <= i < k < |q| ==> !Before(cfg, jobs, now, q[k], q[i])
  }

  lemma {:induction false} InsertOrdered(cfg: Config, jobs: seq<Job>, now: real, x: nat, ys: seq<nat>)
    requires x < |jobs| && AllBelow(ys, |jobs|) && Ordered(cfg, jobs, now, ys)
    ensures Ordered(cfg, jobs, now, Insert(cfg, jobs, now, x, ys))
  {
    var r := Insert(cfg, jobs, now, x, ys);
    if ys == [] || Before(cfg, jobs, now, x, ys[0]) {
      forall k | 0 < k < |r| ensures !Before(cfg, jobs, now, r[k], x) {
        assert r[k] == ys[k - 1];
      }
    } else {
      var rest := Insert(cfg, jobs, now, x, ys[1..]);
      InsertOrdered(cfg, jobs, now, x, ys[1..]);
      forall k | 0 < k < |r| ensures !Before(cfg, jobs, now, r[k], ys[0]) {
        assert r[k] == rest[k - 1] && rest[k - 1] in multiset(rest);
        assert rest[k - 1] == x || rest[k - 1] in ys[1..];
      }
    }
  }

  lemma {:induction false} SortedOrdered(cfg: Config, jobs: seq<Job>, now: real, queue: seq<nat>)
    requires AllBelow(queue, |jobs|)
    ensures Ordered(cfg, jobs, now, Sorted(cfg, jobs, now, queue))
  {
    if queue != [] {
      SortedOrdered(cfg, jobs, now, queue[1..]);
      InsertOrdered(cfg, jobs, now, queue[0], Sorted(cfg, jobs, now, queue[1..]));
    }
  }

  // ---- one iteration -------------------------------------------------------------------

  predicate Eligible(cfg: Config, s: State, j: nat) {
    j < |s.jobs| && Admissible(cfg, Free(cfg, s), s.jobs[j])
  }

  /** What a choice means for the jobs in `pool`. */
  predicate Justified(cfg: Config, s: State, pool: seq<nat>, choice: Choice)
    requires Refs(s) && AllBelow(pool, |s.jobs|)
  {
    match choice
    case Take(j) =>
      j in pool && Eligible(cfg, s, j)
      && forall i :: 0 <= i < |pool| && Eligible(cfg, s, pool[i]) ==> !Before(cfg, s.jobs, s.clock, pool[i], j)
    case Nothing =>
      && (forall i :: 0 <= i < |pool| ==> !Eligible(cfg, s, pool[i]))
      && (Newest(s, s.running).Some? && Free(cfg, s) < 1 ==>
            forall i :: 0 <= i < |pool| ==> !IsChat(s.jobs[pool[i]]))
    case Evict(v) =>
      Free(cfg, s) < 1 && Newest(s, s.running) == Some(v)
      && exists i :: 0 <= i < |pool| && IsChat(s.jobs[pool[i]])
  }

  lemma {:induction false} ScanJustified(cfg: Config, s: State, cands: seq<nat>)
    requires Refs(s) && AllBelow(cands, |s.jobs|) && Ordered(cfg, s.jobs, s.clock, cands)
    ensures Justified(cfg, s, cands, Scan(cfg, s, cands))
  {
    if cands != [] {
      var c, rest := cands[0], cands[1..];
      ScanJustified(cfg, s, rest);
      var choice := Scan(cfg, s, cands);
      assert forall i :: 0 < i < |cands| ==> cands[i] == rest[i - 1];
      if Eligible(cfg, s, c) {
        assert choice == Take(c);
      } else if Free(cfg, s) < 1 && IsChat(s.jobs[c]) && Newest(s, s.running).Some? {
        assert IsChat(s.jobs[cands[0]]);
      } else {
        assert choice == Scan(cfg, s, rest);
        if choice.Evict? {
          var i :| 0 <= i < |rest| && IsChat(s.jobs[rest[i]]);
          assert cands[i + 1] == rest[i];
        }
      }
    }
  }

  lemma SameMembers(a: seq<nat>, b: seq<nat>)
    requires multiset(a) == multiset(b)
    ensures forall x :: x in a <==> x in b
  {
    assert forall x :: x in a <==> x in multiset(a);
    assert forall x :: x in b <==> x in multiset(b);
  }

  /** One iteration of the loop: the job taken has the least (effective_prio, seq) among the queued jobs that are
      admissible at that moment; nothing is taken only if none is; a victim is chosen only with no slot free, for a
      waiting chat, and it is the newest job that may be preempted. */
  lemma IterationJustified(cfg: Config, s: State)
    requires Refs(s)
    ensures Justified(cfg, s, s.queue, Scan(cfg, s, Candidates(cfg, s)))
  {
    var cands := Candidates(cfg, s);
    SortedOrdered(cfg, s.jobs, s.clock, s.queue);
    ScanJustified(cfg, s, cands);
    JustifiedFor(cfg, s, cands, s.queue, Scan(cfg, s, cands));
  }

  lemma JustifiedFor(cfg: Config, s: State, a: seq<nat>, b: seq<nat>, choice: Choice)
    requires Refs(s) && AllBelow(a, |s.jobs|) && AllBelow(b, |s.jobs|) && multiset(a) == multiset(b)
    requires Justified(cfg, s, a, choice)
    ensures Justified(cfg, s, b, choice)
  {
    SameMembers(a, b);
    assert forall i :: 0 <= i < |a| ==> a[i] in b;
    forall i | 0 <= i < |b|
      ensures exists k :: 0 <= k < |a| && a[k] == b[i]
    {
      assert b[i] in a;
    }
    if choice.Evict? {
      var i :| 0 <= i < |a| && IsChat(s.jobs[a[i]]);
      var k :| 0 <= k < |b| && b[k] == a[i];
    }
  }

  // ---- the whole call ------------------------------------------------------------------

  lemma WithoutMembers(q: seq<nat>, j: nat)
    ensures forall x :: x in Without(q, j) ==> x in q
    ensures forall x :: x in q && x != j ==> x in Without(q, j)
  {
    WithoutCount(q, j);
    assert forall x :: x in Without(q, j) <==> multiset(Without(q, j))[x] > 0;
    assert forall x :: x in q <==> multiset(q)[x] > 0;
  }

  /** No queued chat could start, nor, if `all`, any other queued job. */
  predicate Quiet(cfg: Config, s: State, all: bool)
    requires Refs(s)
  {
    forall i :: 0 <= i < |s.queue| && (IsChat(s.jobs[s.queue[i]]) || all) ==> !Eligible(cfg, s, s.queue[i])
  }

  lemma ExitIsQuiet(cfg: Config, s: State, choice: Choice)
    requires Refs(s) && Justified(cfg, s, s.queue, choice) && !choice.Take?
    ensures var r := if choice.Evict? then Preempt(s, choice.victim) else s;
      Quiet(cfg, r, 0 <= cfg.reserved || r.preempting == s.preempting)
  {
    if choice.Evict? {
      assert choice.victim !in s.preempting;
    }
  }

  /** Work conservation, for every reserve: when dispatch returns, no chat waits while a slot is free, and no other job
      waits while more slots are free than the reserve; save that, with a negative reserve, the latter may do so after a
      call that ended in a preemption. */
  lemma {:induction false} DispatchConservesWork(cfg: Config, s: State)
    requires Refs(s)
    ensures var r := Dispatch(cfg, s);
      Quiet(cfg, r, 0 <= cfg.reserved || r.preempting == s.preempting)
    decreases |s.queue|
  {
    if s.queue != [] {
      var choice := Scan(cfg, s, Candidates(cfg, s));
      IterationJustified(cfg, s);
      if choice.Take? {
        ScanTakesQueued(cfg, s);
        DispatchConservesWork(cfg, Admit(cfg, s, choice.job));
      } else {
        ExitIsQuiet(cfg, s, choice);
      }
    }
  }

  /** Jobs leave the queue only by being picked, and the picks only grow. */
  lemma {:induction false} DispatchPicks(cfg: Config, s: State)
    requires Refs(s)
    ensures var picks := Dispatch(cfg, s).picks;
      s.picks <= picks && forall k :: |s.picks| <= k < |picks| ==> picks[k].job in s.queue
    decreases |s.queue|
  {
    if s.queue != [] && Scan(cfg, s, Candidates(cfg, s)).Take? {
      var j := Scan(cfg, s, Candidates(cfg, s)).job;
      ScanTakesQueued(cfg, s);
      AdmitPicks(cfg, s, j);
      DispatchPicks(cfg, Admit(cfg, s, j));
      PicksJoin(s, Admit(cfg, s, j), Dispatch(cfg, s).picks);
    }
  }

  lemma PicksJoin(s: State, s': State, picks: seq<Pick>)
    requires |s'.picks| == |s.picks| + 1 && s.picks <= s'.picks <= picks && s'.picks[|s.picks|].job in s.queue
    requires forall x :: x in s'.queue ==> x in s.queue
    requires forall k :: |s'.picks| <= k < |picks| ==> picks[k].job in s'.queue
    ensures forall k :: |s.picks| <= k < |picks| ==> picks[k].job in s.queue
  {
  }

  lemma AdmitPicks(cfg: Config, s: State, j: nat)
    requires Refs(s) && j in s.queue && j < |s.jobs|
    ensures var s' := Admit(cfg, s, j);
      && s'.picks == s.picks + [Pick(j, Free(cfg, s), s.jobs[j].future == Pending)]
      && forall x :: x in s'.queue ==> x in s.queue
  {
    WithoutMembers(s.queue, j);
  }

  // ---- no self-preemption --------------------------------------------------------------

  /** No enqueueing lies in the future of the clock. */
  predicate ClockOk(s: State) {
    forall j :: 0 <= j < |s.jobs| ==> s.jobs[j].enqueuedAt <= s.clock
  }

  lemma ChatIsFirst(cfg: Config, job: Job, now: real)
    requires IsChat(job) && job.enqueuedAt <= now
    ensures EffectivePrio(cfg, job, now) == 0
  {
    var waited := now - job.enqueuedAt;
    assert waited / cfg.agingS >= 0.0 by { QuotientAtLeast(waited, cfg.agingS, 0.0); }
  }

  lemma ProductBelow(a: real, b: real, y: real)
    requires a < b && y > 0.0
    ensures a * y < b * y
  {
  }

  lemma QuotientAtLeast(x: real, y: real, k: real)
    requires y > 0.0 && x >= k * y
    ensures x / y >= k
  {
    var q := x / y;
    assert q * y == x;
    if q < k {
      ProductBelow(q, k, y);
    }
  }

  /** No queued job of the preemptable priorities has aged to level 0. */
  predicate NoneAgedToZero(cfg: Config, s: State)
    requires Refs(s)
  {
    forall i :: 0 <= i < |s.queue| && s.jobs[s.queue[i]].prio >= PRIO_EMBEDDINGS ==>
      EffectivePrio(cfg, s.jobs[s.queue[i]], s.clock) > 0
  }

  /** No task from number `first` on has been asked to cancel. */
  predicate Untouched(s: State, first: nat) {
    forall i :: 0 <= i < |s.running| && s.running[i].task >= first ==> !s.running[i].cancelRequested
  }

  /** Once a preemptable job has been started in this call, no chat is waiting. */
  predicate ChatsServedFirst(s: State, first: nat)
    requires Refs(s)
  {
    (forall i :: 0 <= i < |s.queue| ==> !IsChat(s.jobs[s.queue[i]]))
    || (forall i :: 0 <= i < |s.running| && s.running[i].task >= first ==>
          s.jobs[s.running[i].job].prio < PRIO_EMBEDDINGS)
  }

  lemma NoChatLeftBehind(cfg: Config, s: State, j: nat)
    requires Refs(s) && ClockOk(s) && 0 <= cfg.reserved && j < |s.jobs|
    requires Justified(cfg, s, s.queue, Take(j))
    requires !IsChat(s.jobs[j]) && EffectivePrio(cfg, s.jobs[j], s.clock) > 0
    ensures forall i :: 0 <= i < |s.queue| ==> !IsChat(s.jobs[s.queue[i]])
  {
    forall i | 0 <= i < |s.queue| && IsChat(s.jobs[s.queue[i]])
      ensures false
    {
      ChatIsFirst(cfg, s.jobs[s.queue[i]], s.clock);
      assert Eligible(cfg, s, s.queue[i]);
    }
  }

  lemma EvictKeepsUntouched(cfg: Config, s: State, first: nat, v: nat)
    requires Refs(s) && Justified(cfg, s, s.queue, Evict(v))
    requires Untouched(s, first) && ChatsServedFirst(s, first)
    ensures Untouched(Preempt(s, v), first)
  {
    var i :| 0 <= i < |s.running| && s.running[i].job == v && Victimizable(s, s.running[i]);
    assert forall k :: 0 <= k < |s.running| && s.running[k].task >= first ==> s.running[k].job != v;
  }

  lemma TakeKeepsOrder(cfg: Config, s: State, first: nat, j: nat)
    requires Refs(s) && ClockOk(s) && 0 <= cfg.reserved && NoneAgedToZero(cfg, s)
    requires Justified(cfg, s, s.queue, Take(j))
    requires Untouched(s, first) && ChatsServedFirst(s, first)
    ensures var s' := Admit(cfg, s, j);
      NoneAgedToZero(cfg, s') && Untouched(s', first) && ChatsServedFirst(s', first)
  {
    var s' := Admit(cfg, s, j);
    var at :| 0 <= at < |s.queue| && s.queue[at] == j;
    if s.jobs[j].prio >= PRIO_EMBEDDINGS {
      NoChatLeftBehind(cfg, s, j);
    }
    WithoutMembers(s.queue, j);
    forall i | 0 <= i < |s'.queue|
      ensures exists k :: 0 <= k < |s.queue| && s.queue[k] == s'.queue[i]
    {
      assert s'.queue[i] in s'.queue;
    }
  }

  lemma {:induction false} SelfPreemptionFrom(cfg: Config, s: State, first: nat)
    requires Refs(s) && ClockOk(s) && 0 <= cfg.reserved && NoneAgedToZero(cfg, s)
    requires Untouched(s, first) && ChatsServedFirst(s, first)
    ensures Untouched(Dispatch(cfg, s), first)
    decreases |s.queue|
  {
    if s.queue != [] {
      var choice := Scan(cfg, s, Candidates(cfg, s));
      IterationJustified(cfg, s);
      match choice
      case Nothing =>
      case Evict(v) => EvictKeepsUntouched(cfg, s, first, v);
      case Take(j) =>
        ScanTakesQueued(cfg, s);
        TakeKeepsOrder(cfg, s, first, j);
        SelfPreemptionFrom(cfg, Admit(cfg, s, j), first);
    }
  }

  /** No self-preemption: when no queued job of prio 2 or more has aged to level 0, a dispatch call never cancels a
      task that it created itself. */
  lemma NoSelfPreemption(cfg: Config, s: State)
    requires Refs(s) && ClockOk(s) && 0 <= cfg.reserved && NoneAgedToZero(cfg, s)
    requires forall i :: 0 <= i < |s.running| ==> s.running[i].task < s.tasks
    ensures Untouched(Dispatch(cfg, s), s.tasks)
  {
    SelfPreemptionFrom(cfg, s, s.tasks);
  }

  // ---- bounded bypass ------------------------------------------------------------------

  /** A job that has waited `prio` aging periods is at level 0. */
  lemma AgedToZero(cfg: Config, job: Job, now: real)
    requires job.prio >= 0 && now - job.enqueuedAt >= job.prio as real * cfg.agingS
    ensures EffectivePrio(cfg, job, now) == 0
  {
    var waited := now - job.enqueuedAt;
    var p := job.prio as real;
    assert waited / cfg.agingS >= p by { QuotientAtLeast(waited, cfg.agingS, p); }
    assert (waited / cfg.agingS).Floor >= job.prio;
  }

  /** Aging: a job gains one level for every whole aging period it has waited, and stops at level 0. */
  lemma AgingLevels(cfg: Config, job: Job, now: real, k: nat)
    requires k as real * cfg.agingS <= now - job.enqueuedAt < (k + 1) as real * cfg.agingS
    ensures EffectivePrio(cfg, job, now) == if job.prio > k then job.prio - k else 0
  {
    var waited := now - job.enqueuedAt;
    var q := waited / cfg.agingS;
    QuotientAtLeast(waited, cfg.agingS, k as real);
    assert q * cfg.agingS == waited;
    if q >= (k + 1) as real {
      if q > (k + 1) as real {
        ProductBelow((k + 1) as real, q, cfg.agingS);
      }
    }
    assert q.Floor == k;
  }

  /** Background, queued, and at level 0. */
  predicate AgedWaiter(cfg: Config, s: State, w: nat)
    requires Refs(s)
  {
    w < |s.jobs| && w in s.queue && !IsChat(s.jobs[w]) && EffectivePrio(cfg, s.jobs[w], s.clock) == 0
  }

  /** While an aged background job waits, every job picked with more free slots than the reserve is itself or has a
      smaller seq. */
  lemma {:induction false} DispatchBypass(cfg: Config, s: State, w: nat, k: nat)
    requires Refs(s) && AgedWaiter(cfg, s, w)
    requires |s.picks| <= k < |Dispatch(cfg, s).picks|
    requires forall i :: |s.picks| <= i < k ==> Dispatch(cfg, s).picks[i].job != w
    requires Dispatch(cfg, s).picks[k].free > cfg.reserved
    ensures Dispatch(cfg, s).picks[k].job <= w
    decreases |s.queue|
  {
    IterationJustified(cfg, s);
    var choice := Scan(cfg, s, Candidates(cfg, s));
    if choice.Take? {
      var j := choice.job;
      ScanTakesQueued(cfg, s);
      var s' := Admit(cfg, s, j);
      DispatchPicks(cfg, s');
      assert s'.picks[|s.picks|] == Pick(j, Free(cfg, s), s.jobs[j].future == Pending);
      if k == |s.picks| {
        var at :| 0 <= at < |s.queue| && s.queue[at] == w;
        assert Eligible(cfg, s, s.queue[at]);
      } else {
        WithoutMembers(s.queue, j);
        DispatchBypass(cfg, s', w, k);
      }
    }
  }
}
