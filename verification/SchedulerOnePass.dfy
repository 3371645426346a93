/** The dispatch loop, which sorts its queue again for every job it takes, against a single pass over the queue
    sorted once; and, through that pass, exactly when a dispatch call cancels a task of its own. */
module SchedulerOnePass {
  import opened Prelude
  import opened Scheduler
  import opened SchedulerDispatch
  import opened SchedulerRuns

  /** Admission in order: every candidate that finds a slot open to it leaves the queue, until a chat that found none
      (`chatWaits`) can have a victim. */
  function Admissions(cfg: Config, s: State, cands: seq<nat>, chatWaits: bool): (r: State)
    requires Refs(s) && AllBelow(cands, |s.jobs|)
    ensures Refs(r) && r.jobs == s.jobs
    decreases |cands|
  {
    if cands == [] || (chatWaits && Newest(s, s.running).Some?) then s
    else if Admissible(cfg, Free(cfg, s), s.jobs[cands[0]]) then
      Admissions(cfg, Admit(cfg, s, cands[0]), cands[1..], chatWaits)
    else Admissions(cfg, s, cands[1..], chatWaits || IsChat(s.jobs[cands[0]]))
  }

  /** The state in which one pass over the queue sorted once stops. */
  function Admitted(cfg: Config, s: State): (r: State)
    requires Refs(s)
    ensures Refs(r) && r.jobs == s.jobs
  {
    Admissions(cfg, s, Candidates(cfg, s), false)
  }

  predicate ChatLeft(s: State)
    requires Refs(s)
  {
    exists i :: 0 <= i < |s.queue| && IsChat(s.jobs[s.queue[i]])
  }

  /** The newest victim, if there is one, makes room for a chat that was left. */
  function MakeRoom(s: State): State
    requires Refs(s)
  {
    if ChatLeft(s) && Newest(s, s.running).Some? then Preempt(s, Newest(s, s.running).value) else s
  }

  // ---- sorting is unique ---------------------------------------------------------------

  lemma SameHead(cfg: Config, jobs: seq<Job>, now: real, a: seq<nat>, b: seq<nat>)
    requires AllBelow(a, |jobs|) && AllBelow(b, |jobs|) && a != [] && b != [] && multiset(a) == multiset(b)
    requires Ordered(cfg, jobs, now, a) && Ordered(cfg, jobs, now, b)
    ensures a[0] == b[0]
  {
    SameMembers(a, b);
    assert a[0] in b && b[0] in a;
    var i :| 0 <= i < |b| && b[i] == a[0];
    var k :| 0 <= k < |a| && a[k] == b[0];
  }

  lemma TailCount(a: seq<nat>)
    requires a != []
    ensures multiset(a[1..]) == multiset(a) - multiset{a[0]}
  {
    assert a == [a[0]] + a[1..];
  }

  lemma {:induction false} OrderedUnique(cfg: Config, jobs: seq<Job>, now: real, a: seq<nat>, b: seq<nat>)
    requires AllBelow(a, |jobs|) && AllBelow(b, |jobs|) && multiset(a) == multiset(b)
    requires Ordered(cfg, jobs, now, a) && Ordered(cfg, jobs, now, b)
    ensures a == b
  {
    assert |a| == |multiset(a)| && |b| == |multiset(b)|;
    if a != [] {
      SameHead(cfg, jobs, now, a, b);
      TailCount(a);
      TailCount(b);
      OrderedUnique(cfg, jobs, now, a[1..], b[1..]);
      assert a == [a[0]] + a[1..] && b == [b[0]] + b[1..];
    }
  }

  lemma DropMiddle(cfg: Config, jobs: seq<Job>, now: real, front: seq<nat>, c: nat, back: seq<nat>)
    requires AllBelow(front + [c] + back, |jobs|) && Ordered(cfg, jobs, now, front + [c] + back)
    ensures AllBelow(front + back, |jobs|) && Ordered(cfg, jobs, now, front + back)
    ensures multiset(front + back) == multiset(front + [c] + back) - multiset{c}
  {
    var all, left := front + [c] + back, front + back;
    assert forall i :: 0 <= i < |left| ==> left[i] == all[if i < |front| then i else i + 1];
  }

  /** Taking a job out of the sorted queue is sorting the queue without it. */
  lemma SortedWithout(cfg: Config, s: State, skipped: seq<nat>, c: nat, rest: seq<nat>)
    requires Refs(s) && c < |s.jobs| && Candidates(cfg, s) == skipped + [c] + rest
    ensures Candidates(cfg, Admit(cfg, s, c)) == skipped + rest
  {
    var queue := Admit(cfg, s, c).queue;
    SortedOrdered(cfg, s.jobs, s.clock, s.queue);
    DropMiddle(cfg, s.jobs, s.clock, skipped, c, rest);
    WithoutCount(s.queue, c);
    SortedOrdered(cfg, s.jobs, s.clock, queue);
    OrderedUnique(cfg, s.jobs, s.clock, Sorted(cfg, s.jobs, s.clock, queue), skipped + rest);
  }

  // ---- one pass ------------------------------------------------------------------------

  predicate NoneAdmissible(cfg: Config, s: State, cands: seq<nat>) {
    forall i :: 0 <= i < |cands| ==> !Eligible(cfg, s, cands[i])
  }

  ghost predicate HasChat(s: State, cands: seq<nat>)
    requires AllBelow(cands, |s.jobs|)
  {
    exists i :: 0 <= i < |cands| && IsChat(s.jobs[cands[i]])
  }

  /** The scan takes the first candidate that is admissible, if no chat before it has a victim. */
  lemma {:induction false} ScanSkips(cfg: Config, s: State, skipped: seq<nat>, c: nat, rest: seq<nat>)
    requires Refs(s) && AllBelow(skipped + [c] + rest, |s.jobs|) && AllBelow(skipped, |s.jobs|)
    requires NoneAdmissible(cfg, s, skipped) && Eligible(cfg, s, c)
    requires !(HasChat(s, skipped) && Newest(s, s.running).Some?)
    ensures Scan(cfg, s, skipped + [c] + rest) == Take(c)
    decreases |skipped|
  {
    var cands := skipped + [c] + rest;
    if skipped != [] {
      assert cands[0] == skipped[0] && cands[1..] == skipped[1..] + [c] + rest;
      assert IsChat(s.jobs[skipped[0]]) ==> HasChat(s, skipped);
      assert forall i :: 0 <= i < |skipped[1..]| ==> skipped[1..][i] == skipped[i + 1];
      ScanSkips(cfg, s, skipped[1..], c, rest);
    }
  }

  /** A chat that found no slot has the newest victim evicted. */
  lemma {:induction false} ScanEvicts(cfg: Config, s: State, skipped: seq<nat>, rest: seq<nat>)
    requires Refs(s) && AllBelow(skipped + rest, |s.jobs|) && AllBelow(skipped, |s.jobs|)
    requires NoneAdmissible(cfg, s, skipped) && HasChat(s, skipped) && Newest(s, s.running).Some?
    ensures Scan(cfg, s, skipped + rest) == Evict(Newest(s, s.running).value)
    decreases |skipped|
  {
    var cands := skipped + rest;
    assert cands[0] == skipped[0] && cands[1..] == skipped[1..] + rest;
    if !IsChat(s.jobs[skipped[0]]) {
      var i :| 0 <= i < |skipped| && IsChat(s.jobs[skipped[i]]);
      assert skipped[1..][i - 1] == skipped[i];
      assert forall k :: 0 <= k < |skipped[1..]| ==> skipped[1..][k] == skipped[k + 1];
      ScanEvicts(cfg, s, skipped[1..], rest);
    }
  }

  /** When no candidate is admissible, all that dispatch can do is make room for a chat. */
  lemma StuckMakesRoom(cfg: Config, s: State)
    requires Refs(s) && NoneAdmissible(cfg, s, s.queue)
    ensures Dispatch(cfg, s) == MakeRoom(s)
  {
    if s.queue != [] {
      IterationJustified(cfg, s);
    }
  }

  lemma QueueOfCandidates(cfg: Config, s: State)
    requires Refs(s)
    ensures forall x :: x in Candidates(cfg, s) <==> x in s.queue
    ensures HasChat(s, Candidates(cfg, s)) <==> ChatLeft(s)
    ensures NoneAdmissible(cfg, s, Candidates(cfg, s)) ==> NoneAdmissible(cfg, s, s.queue)
  {
    var cands := Candidates(cfg, s);
    SameMembers(cands, s.queue);
    forall i | 0 <= i < |s.queue|
      ensures exists k :: 0 <= k < |cands| && cands[k] == s.queue[i]
    {
      assert s.queue[i] in cands;
    }
    forall k | 0 <= k < |cands|
      ensures exists i :: 0 <= i < |s.queue| && s.queue[i] == cands[k]
    {
      assert cands[k] in s.queue;
    }
  }

  /** Where the pass stops early, the loop evicts; there it also stops. */
  lemma StopsEarly(cfg: Config, s: State, skipped: seq<nat>, rest: seq<nat>)
    requires Refs(s) && Candidates(cfg, s) == skipped + rest && AllBelow(skipped, |s.jobs|)
    requires NoneAdmissible(cfg, s, skipped) && HasChat(s, skipped) && Newest(s, s.running).Some?
    ensures Dispatch(cfg, s) == MakeRoom(s)
  {
    QueueOfCandidates(cfg, s);
    ScanEvicts(cfg, s, skipped, rest);
    var i :| 0 <= i < |skipped| && IsChat(s.jobs[skipped[i]]);
    assert (skipped + rest)[i] == skipped[i];
  }

  lemma ChatAppend(s: State, skipped: seq<nat>, c: nat)
    requires AllBelow(skipped, |s.jobs|) && c < |s.jobs|
    ensures AllBelow(skipped + [c], |s.jobs|)
    ensures HasChat(s, skipped + [c]) <==> HasChat(s, skipped) || IsChat(s.jobs[c])
  {
    var more := skipped + [c];
    if HasChat(s, skipped) {
      var i :| 0 <= i < |skipped| && IsChat(s.jobs[skipped[i]]);
      assert more[i] == skipped[i];
    }
    if IsChat(s.jobs[c]) {
      assert more[|skipped|] == c;
    }
  }

  lemma TakesNext(cfg: Config, s: State, skipped: seq<nat>, c: nat, rest: seq<nat>)
    requires Refs(s) && Candidates(cfg, s) == skipped + [c] + rest && AllBelow(skipped, |s.jobs|)
    requires NoneAdmissible(cfg, s, skipped) && Eligible(cfg, s, c)
    requires !(HasChat(s, skipped) && Newest(s, s.running).Some?)
    ensures var t := Admit(cfg, s, c);
      && Dispatch(cfg, s) == Dispatch(cfg, t) && Candidates(cfg, t) == skipped + rest
      && NoneAdmissible(cfg, t, skipped) && HasChat(t, skipped) == HasChat(s, skipped)
  {
    ScanSkips(cfg, s, skipped, c, rest);
    SortedWithout(cfg, s, skipped, c, rest);
    ScanTakesQueued(cfg, s);
    StillInadmissible(cfg, s, c, skipped);
  }

  lemma StillInadmissible(cfg: Config, s: State, c: nat, skipped: seq<nat>)
    requires Refs(s) && c < |s.jobs| && NoneAdmissible(cfg, s, skipped)
    ensures NoneAdmissible(cfg, Admit(cfg, s, c), skipped)
  {
  }

  lemma PassEnds(cfg: Config, s: State, skipped: seq<nat>, rest: seq<nat>)
    requires Refs(s) && Candidates(cfg, s) == skipped + rest && AllBelow(skipped, |s.jobs|)
    requires NoneAdmissible(cfg, s, skipped)
    requires (HasChat(s, skipped) && Newest(s, s.running).Some?) || rest == []
    ensures Dispatch(cfg, s) == MakeRoom(s)
  {
    if rest == [] {
      assert skipped + rest == skipped;
      QueueOfCandidates(cfg, s);
      StuckMakesRoom(cfg, s);
    } else {
      StopsEarly(cfg, s, skipped, rest);
    }
  }

  /** The pass has dealt with `skipped`, of which nobody can start, and has `rest` to go. */
  ghost predicate Passing(cfg: Config, s: State, skipped: seq<nat>, rest: seq<nat>, chatWaits: bool) {
    && Refs(s) && AllBelow(skipped, |s.jobs|) && AllBelow(rest, |s.jobs|)
    && Candidates(cfg, s) == skipped + rest
    && NoneAdmissible(cfg, s, skipped) && chatWaits == HasChat(s, skipped)
  }

  lemma PassTakes(cfg: Config, s: State, skipped: seq<nat>, rest: seq<nat>, chatWaits: bool)
    requires Passing(cfg, s, skipped, rest, chatWaits) && rest != [] && Eligible(cfg, s, rest[0])
    requires !(chatWaits && Newest(s, s.running).Some?)
    ensures Passing(cfg, Admit(cfg, s, rest[0]), skipped, rest[1..], chatWaits)
    ensures Dispatch(cfg, s) == Dispatch(cfg, Admit(cfg, s, rest[0]))
  {
    Shift(skipped, rest);
    TakesNext(cfg, s, skipped, rest[0], rest[1..]);
  }

  lemma PassSkips(cfg: Config, s: State, skipped: seq<nat>, rest: seq<nat>, chatWaits: bool)
    requires Passing(cfg, s, skipped, rest, chatWaits) && rest != [] && !Eligible(cfg, s, rest[0])
    ensures Passing(cfg, s, skipped + [rest[0]], rest[1..], chatWaits || IsChat(s.jobs[rest[0]]))
  {
    Shift(skipped, rest);
    ChatAppend(s, skipped, rest[0]);
  }

  lemma {:induction false} OnePassFrom(cfg: Config, s: State, skipped: seq<nat>, rest: seq<nat>, chatWaits: bool)
    requires Passing(cfg, s, skipped, rest, chatWaits)
    ensures Dispatch(cfg, s) == MakeRoom(Admissions(cfg, s, rest, chatWaits))
    decreases |rest|
  {
    if rest == [] || (chatWaits && Newest(s, s.running).Some?) {
      PassEnds(cfg, s, skipped, rest);
    } else if Eligible(cfg, s, rest[0]) {
      PassTakes(cfg, s, skipped, rest, chatWaits);
      OnePassFrom(cfg, Admit(cfg, s, rest[0]), skipped, rest[1..], chatWaits);
    } else {
      PassSkips(cfg, s, skipped, rest, chatWaits);
      OnePassFrom(cfg, s, skipped + [rest[0]], rest[1..], chatWaits || IsChat(s.jobs[rest[0]]));
    }
  }

  /** Sorting once is enough, for every reserve: the loop does what one pass over the sorted queue does, admitting each
      candidate that finds a slot open to it; and where that stops with a chat left, the newest victim is preempted. */
  lemma DispatchIsOnePass(cfg: Config, s: State)
    requires Refs(s)
    ensures Dispatch(cfg, s) == MakeRoom(Admitted(cfg, s))
  {
    OnePassFrom(cfg, s, [], Candidates(cfg, s), false);
  }

  /** Plain admission, for which preemption does not matter. */
  function AdmitAll(cfg: Config, s: State, cands: seq<nat>): (r: State)
    requires Refs(s) && AllBelow(cands, |s.jobs|)
    ensures Refs(r) && r.jobs == s.jobs
    decreases |cands|
  {
    if cands == [] then s
    else
      AdmitAll(cfg, if Admissible(cfg, Free(cfg, s), s.jobs[cands[0]]) then Admit(cfg, s, cands[0]) else s, cands[1..])
  }

  lemma {:induction false} FullAdmitsNothing(cfg: Config, s: State, cands: seq<nat>)
    requires Refs(s) && AllBelow(cands, |s.jobs|) && 0 <= cfg.reserved && Free(cfg, s) < 1
    ensures AdmitAll(cfg, s, cands) == s
    decreases |cands|
  {
    if cands != [] {
      FullAdmitsNothing(cfg, s, cands[1..]);
    }
  }

  /** With a reserve that is not negative, a chat waits only when no slot is left for anyone, so the pass never has to
      stop early: every candidate is looked at once, with nothing but the slots free at that moment. */
  lemma {:induction false} ReserveMakesItPlain(cfg: Config, s: State, cands: seq<nat>, chatWaits: bool)
    requires Refs(s) && AllBelow(cands, |s.jobs|) && 0 <= cfg.reserved && (chatWaits ==> Free(cfg, s) < 1)
    ensures Admissions(cfg, s, cands, chatWaits) == AdmitAll(cfg, s, cands)
    decreases |cands|
  {
    if chatWaits && Newest(s, s.running).Some? {
      FullAdmitsNothing(cfg, s, cands);
    } else if cands != [] {
      if Admissible(cfg, Free(cfg, s), s.jobs[cands[0]]) {
        ReserveMakesItPlain(cfg, Admit(cfg, s, cands[0]), cands[1..], chatWaits);
      } else {
        ReserveMakesItPlain(cfg, s, cands[1..], chatWaits || IsChat(s.jobs[cands[0]]));
      }
    }
  }

  // ---- exactly when a call cancels its own task ----------------------------------------

  /** A slot of `u` that was not in `s`: a task created for a pending job of the queue. */
  predicate NewSlot(s: State, u: State, slot: Slot) {
    && slot.task >= s.tasks && slot.phase == Created && !slot.cancelRequested
    && slot.job < |s.jobs| && s.jobs[slot.job].future == Pending && slot.job in s.queue && slot.job !in u.queue
  }

  ghost predicate StartedIn(s: State, u: State, x: nat) {
    exists i :: |s.running| <= i < |u.running| && u.running[i].job == x
  }

  /** `u` is `s` after some admissions. */
  ghost predicate Grown(s: State, u: State) {
    && u.jobs == s.jobs && u.preempting == s.preempting && u.tasks >= s.tasks
    && s.running <= u.running
    && (forall x :: x in u.queue ==> x in s.queue)
    && (forall i :: |s.running| <= i < |u.running| ==> NewSlot(s, u, u.running[i]))
    && (forall x :: x in s.queue && x !in u.queue && x < |s.jobs| && s.jobs[x].future == Pending ==> StartedIn(s, u, x))
  }

  lemma GrownOn(s: State, t: State, u: State)
    requires Grown(s, t) && Grown(t, u)
    ensures Grown(s, u)
  {
    forall i | |s.running| <= i < |u.running|
      ensures NewSlot(s, u, u.running[i])
    {
      if i < |t.running| {
        assert u.running[i] == t.running[i] && NewSlot(s, t, t.running[i]);
      } else {
        assert NewSlot(t, u, u.running[i]);
      }
    }
    forall x | x in s.queue && x !in u.queue && x < |s.jobs| && s.jobs[x].future == Pending
      ensures StartedIn(s, u, x)
    {
      if x in t.queue {
        assert StartedIn(t, u, x);
        var i :| |t.running| <= i < |u.running| && u.running[i].job == x;
      } else {
        var i :| |s.running| <= i < |t.running| && t.running[i].job == x;
        assert u.running[i] == t.running[i];
      }
    }
  }

  lemma AdmitGrows(cfg: Config, s: State, c: nat)
    requires Refs(s) && Distinct(s.queue) && c in s.queue && c < |s.jobs|
    ensures Grown(s, Admit(cfg, s, c)) && Distinct(Admit(cfg, s, c).queue)
    ensures forall x :: x in s.queue && x != c ==> x in Admit(cfg, s, c).queue
  {
    var t := Admit(cfg, s, c);
    WithoutDistinct(s.queue, c);
    if s.jobs[c].future == Pending {
      assert t.running[|s.running|].job == c;
      assert StartedIn(s, t, c);
    }
  }

  lemma {:induction false} AdmissionsGrow(cfg: Config, s: State, cands: seq<nat>, chatWaits: bool)
    requires Refs(s) && AllBelow(cands, |s.jobs|) && Distinct(s.queue) && Distinct(cands)
    requires forall x :: x in cands ==> x in s.queue
    ensures Grown(s, Admissions(cfg, s, cands, chatWaits))
    decreases |cands|
  {
    if cands != [] && !(chatWaits && Newest(s, s.running).Some?) {
      var c, rest := cands[0], cands[1..];
      if Admissible(cfg, Free(cfg, s), s.jobs[c]) {
        AdmitGrows(cfg, s, c);
        var t := Admit(cfg, s, c);
        AdmissionsGrow(cfg, t, rest, chatWaits);
        GrownOn(s, t, Admissions(cfg, t, rest, chatWaits));
      } else {
        AdmissionsGrow(cfg, s, rest, chatWaits || IsChat(s.jobs[c]));
      }
    }
  }

  lemma AdmittedGrows(cfg: Config, s: State)
    requires Refs(s) && Distinct(s.queue)
    ensures Grown(s, Admitted(cfg, s))
  {
    var cands := Candidates(cfg, s);
    SameMembers(cands, s.queue);
    DistinctByCount(s.queue);
    DistinctByCount(cands);
    AdmissionsGrow(cfg, s, cands, false);
  }

  /** A pending preemptable job that the pass gave a slot, newer than every victim that was running before. */
  predicate OwnVictim(s: State, u: State, x: nat)
    requires Refs(s)
  {
    && x in s.queue && x !in u.queue && x < |s.jobs| && s.jobs[x].future == Pending && Preemptable(s.jobs[x])
    && forall i :: 0 <= i < |s.running| && Victimizable(s, s.running[i]) ==> s.running[i].job < x
  }

  /** What preemption needs to know of the state that the worker dispatches from. */
  ghost predicate Ready(s: State) {
    Placed(s) && forall i :: 0 <= i < |s.running| ==> s.running[i].phase != Finished
  }

  lemma OwnTaskIsVictim(s: State, u: State, k: nat)
    requires Ready(s) && Refs(u) && Grown(s, u) && Newest(u, u.running).Some?
    requires k < |u.running| && u.running[k].task >= s.tasks && u.running[k].job == Newest(u, u.running).value
    ensures OwnVictim(s, u, u.running[k].job)
  {
    assert NewSlot(s, u, u.running[k]);
    forall i | 0 <= i < |s.running| && Victimizable(s, s.running[i])
      ensures s.running[i].job < u.running[k].job
    {
      assert u.running[i] == s.running[i] && Victimizable(u, u.running[i]);
    }
  }

  lemma VictimIsOwnTask(s: State, u: State, x: nat)
    requires Ready(s) && Refs(u) && Grown(s, u) && OwnVictim(s, u, x)
    ensures Newest(u, u.running).Some? && StartedIn(s, u, Newest(u, u.running).value)
  {
    assert StartedIn(s, u, x);
    var i :| |s.running| <= i < |u.running| && u.running[i].job == x;
    assert Victimizable(u, u.running[i]);
    var v := Newest(u, u.running).value;
    var k :| 0 <= k < |u.running| && u.running[k].job == v && Victimizable(u, u.running[k]);
    if k < |s.running| {
      assert Victimizable(s, s.running[k]);
    }
  }

  lemma TouchedOwn(s: State, u: State)
    requires Ready(s) && Refs(u) && Grown(s, u) && !Untouched(MakeRoom(u), s.tasks)
    ensures ChatLeft(u) && exists x :: OwnVictim(s, u, x)
  {
    var r := MakeRoom(u);
    var k :| 0 <= k < |r.running| && r.running[k].task >= s.tasks && r.running[k].cancelRequested;
    assert k >= |s.running|;
    assert NewSlot(s, u, u.running[k]);
    OwnTaskIsVictim(s, u, k);
  }

  lemma OwnTouched(s: State, u: State, x: nat)
    requires Ready(s) && Refs(u) && Grown(s, u) && ChatLeft(u) && OwnVictim(s, u, x)
    ensures !Untouched(MakeRoom(u), s.tasks)
  {
    VictimIsOwnTask(s, u, x);
    var v := Newest(u, u.running).value;
    var k :| |s.running| <= k < |u.running| && u.running[k].job == v;
    assert NewSlot(s, u, u.running[k]);
    assert MakeRoom(u).running[k] == u.running[k].(cancelRequested := true);
  }

  lemma TouchesExactly(cfg: Config, s: State)
    requires Ready(s)
    ensures var u := Admitted(cfg, s);
      Untouched(Dispatch(cfg, s), s.tasks) <==> !(ChatLeft(u) && exists x :: OwnVictim(s, u, x))
  {
    AdmittedGrows(cfg, s);
    DispatchIsOnePass(cfg, s);
    var u := Admitted(cfg, s);
    if !Untouched(MakeRoom(u), s.tasks) {
      TouchedOwn(s, u);
    }
    if x :| ChatLeft(u) && OwnVictim(s, u, x) {
      OwnTouched(s, u, x);
    }
  }

  /** What a turn of the worker dispatches from after the run `steps`. */
  function Waking(cfg: Config, steps: seq<Step>): (s: State)
    ensures Refs(s)
  {
    ReapRefs(Run(cfg, EMPTY, steps));
    Reap(Run(cfg, EMPTY, steps))
  }

  lemma WakingReady(cfg: Config, steps: seq<Step>)
    ensures Ready(Waking(cfg, steps))
  {
    RunPlaced(cfg, EMPTY, steps);
    ReapPlaced(Run(cfg, EMPTY, steps));
  }

  /** In every reachable state and for every reserve, a turn of the worker cancels a task of its own if and only if the
      admission pass leaves a chat after giving a slot to a preemptable job that is newer than every running victim. */
  lemma SelfPreemptionExactly(cfg: Config, steps: seq<Step>)
    ensures var s := Waking(cfg, steps);
      var u := Admitted(cfg, s);
      Untouched(Apply(cfg, Run(cfg, EMPTY, steps), Work), s.tasks)
      <==> !(ChatLeft(u) && exists x :: OwnVictim(s, u, x))
  {
    WakingReady(cfg, steps);
    TouchesExactly(cfg, Waking(cfg, steps));
  }
}
