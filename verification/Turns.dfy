/** The turn manager at await granularity. */
module Turns {
  import opened Prelude

  datatype Status = Active | Done | Cancelled | Errored

  datatype Turn = Turn(id: nat, origin: string, owner: nat, status: Status)

  datatype Event = Started | CancelEvent(reason: string) | DoneEvent(status: Status)

  /** A `turn` message handed to the broadcaster. */
  datatype Notice = Notice(turn: nat, event: Event)

  datatype CancelResult = Refused | NotCurrent | Stopped

  /** The manager's one field, the store behind it (turn counter and status rows) and every notice published. */
  datatype Manager = Manager(current: Option<Turn>, counter: nat, rows: map<nat, Status>, notices: seq<Notice>)

  const FRESH := Manager(None, 0, map[], [])

  predicate IsCurrent(m: Manager, id: nat) { m.current.Some? && m.current.value.id == id }

  predicate IsObsolete(m: Manager, id: nat) { !IsCurrent(m, id) }

  /** The current turn ends: row, field and notice in one go, up to the await in the notification. */
  function End(m: Manager, status: Status, event: Event): Manager
    requires m.current.Some?
  {
    var id := m.current.value.id;
    m.(current := None, rows := m.rows[id := status], notices := m.notices + [Notice(id, event)])
  }

  function Issue(m: Manager, origin: string, owner: nat): Manager {
    var id := m.counter + 1;
    Manager(Some(Turn(id, origin, owner, Active)), id, m.rows[id := Active], m.notices + [Notice(id, Started)])
  }

  /** `bySession` is None for core-internal authority. */
  function Cancel(m: Manager, id: nat, reason: string, bySession: Option<nat>): (Manager, CancelResult) {
    if !IsCurrent(m, id) then (m, NotCurrent)
    else
      var turn := m.current.value;
      if bySession.Some? && bySession.value != turn.owner && turn.origin != "proactive" then (m, Refused)
      else (End(m, Cancelled, CancelEvent(reason)), Stopped)
  }

  function Finish(m: Manager, id: nat, status: Status): Manager {
    if !IsCurrent(m, id) then m else End(m, status, DoneEvent(status))
  }

  /** `begin` up to its first await: it stops there exactly when it has a turn to supersede. */
  function Enter(m: Manager, origin: string, owner: nat): (Manager, bool) {
    if m.current.Some? && m.current.value.status == Active
    then (Cancel(m, m.current.value.id, "superseded", None).0, true)
    else (Issue(m, origin, owner), false)
  }

  class TurnManager {
    var current: Option<Turn>
    var counter: nat
    var rows: map<nat, Status>
    var notices: seq<Notice>

    function View(): Manager
      reads this
    {
      Manager(current, counter, rows, notices)
    }

    constructor ()
      ensures View() == FRESH
    {
      current, counter, rows, notices := None, 0, map[], [];
    }

    predicate Obsolete(id: nat)
      reads this
    {
      !(current.Some? && current.value.id == id)
    }

    /** `begin` from the call to its first await; true when it is suspended in the notification of the turn it
        superseded, and still has to run `BeginRest`. */
    method BeginEnter(origin: string, owner: nat) returns (suspended: bool)
      modifies this
      ensures (View(), suspended) == Enter(old(View()), origin, owner)
    {
      if current.Some? && current.value.status == Active {
        var r := CancelTurn(current.value.id, "superseded", None);
        return true;
      }
      BeginRest(origin, owner);
      return false;
    }

    /** The rest of `begin`, up to the await in the notification of the new turn. */
    method BeginRest(origin: string, owner: nat)
      modifies this
      ensures View() == Issue(old(View()), origin, owner)
    {
      counter := counter + 1;
      var turn := Turn(counter, origin, owner, Active);
      rows := rows[turn.id := Active];
      current := Some(turn);
      notices := notices + [Notice(turn.id, Started)];
    }

    method CancelTurn(id: nat, reason: string, bySession: Option<nat>) returns (r: CancelResult)
      modifies this
      ensures (View(), r) == Cancel(old(View()), id, reason, bySession)
    {
      if current.None? || current.value.id != id { return NotCurrent; }
      var turn := current.value;
      if bySession.Some? && bySession.value != turn.owner && turn.origin != "proactive" { return Refused; }
      turn := turn.(status := Cancelled);
      rows := rows[id := turn.status];
      current := None;
      notices := notices + [Notice(turn.id, CancelEvent(reason))];
      return Stopped;
    }

    method FinishTurn(id: nat, status: Status)
      modifies this
      ensures View() == Finish(old(View()), id, status)
    {
      if current.None? || current.value.id != id { return; }
      var turn := current.value.(status := status);
      rows := rows[id := status];
      current := None;
      notices := notices + [Notice(turn.id, DoneEvent(status))];
    }
  }

  // ---- interleavings -------------------------------------------------------------------

  datatype Request = Request(origin: string, owner: nat)

  /** The manager with the `begin` calls that are suspended after superseding a turn. */
  datatype World = World(mgr: Manager, begins: seq<Request>)

  const START := World(FRESH, [])

  datatype Step =
    | Begin(origin: string, owner: nat)
    | ResumeBegin(i: nat)
    | CancelStep(id: nat, reason: string, bySession: Option<nat>)
    | FinishStep(id: nat, failed: bool)

  function Apply(w: World, step: Step): World {
    match step
    case Begin(origin, owner) =>
      var (mgr, suspended) := Enter(w.mgr, origin, owner);
      w.(mgr := mgr, begins := if suspended then w.begins + [Request(origin, owner)] else w.begins)
    case ResumeBegin(i) =>
      if i >= |w.begins| then w
      else w.(mgr := Issue(w.mgr, w.begins[i].origin, w.begins[i].owner), begins := w.begins[..i] + w.begins[i + 1..])
    case CancelStep(id, reason, bySession) => w.(mgr := Cancel(w.mgr, id, reason, bySession).0)
    case FinishStep(id, failed) => w.(mgr := Finish(w.mgr, id, if failed then Errored else Done))
  }

  function Run(w: World, steps: seq<Step>): World
    decreases |steps|
  {
    if steps == [] then w else Run(Apply(w, steps[0]), steps[1..])
  }

  // ---- what every step keeps -----------------------------------------------------------

  predicate Terminal(event: Event) { !event.Started? }

  /** How many terminal notices the turn `id` has had. */
  function Endings(notices: seq<Notice>, id: nat): nat {
    if notices == [] then 0
    else
      var last := notices[|notices| - 1];
      Endings(notices[..|notices| - 1], id) + if last.turn == id && Terminal(last.event) then 1 else 0
  }

  ghost predicate Inv(w: World) {
    var m := w.mgr;
    && (forall id :: id in m.rows <==> 1 <= id <= m.counter)
    && (m.current.Some? ==> m.current.value.id in m.rows && m.rows[m.current.value.id] == Active
                            && m.current.value.status == Active)
  }

  /** A turn has had one terminal notice if its row is terminal, and none otherwise. */
  ghost predicate Counted(m: Manager) {
    forall id: nat :: Endings(m.notices, id) == if id in m.rows && m.rows[id] != Active then 1 else 0
  }

  lemma EndingsSnoc(notices: seq<Notice>, n: Notice, id: nat)
    ensures Endings(notices + [n], id) == Endings(notices, id) + if n.turn == id && Terminal(n.event) then 1 else 0
  {
    assert (notices + [n])[..|notices|] == notices;
  }

  lemma IssueCounted(m: Manager, origin: string, owner: nat)
    requires Counted(m) && forall id :: id in m.rows <==> 1 <= id <= m.counter
    ensures Counted(Issue(m, origin, owner))
  {
    forall id: nat
      ensures var m' := Issue(m, origin, owner);
        Endings(m'.notices, id) == if id in m'.rows && m'.rows[id] != Active then 1 else 0
    {
      EndingsSnoc(m.notices, Notice(m.counter + 1, Started), id);
    }
  }

  lemma EndCounted(m: Manager, status: Status, event: Event)
    requires Counted(m) && m.current.Some? && Terminal(event) && status != Active
    requires m.current.value.id in m.rows && m.rows[m.current.value.id] == Active
    ensures Counted(End(m, status, event))
  {
    var m' := End(m, status, event);
    forall id: nat
      ensures Endings(m'.notices, id) == if id in m'.rows && m'.rows[id] != Active then 1 else 0
    {
      EndingsSnoc(m.notices, Notice(m.current.value.id, event), id);
    }
  }

  lemma StepKeeps(w: World, step: Step)
    requires Inv(w)
    ensures Inv(Apply(w, step))
  {
  }

  lemma StepCounted(w: World, step: Step)
    requires Inv(w) && Counted(w.mgr)
    ensures Counted(Apply(w, step).mgr)
  {
    var m := w.mgr;
    match step
    case Begin(origin, owner) =>
      if m.current.Some? {
        EndCounted(m, Cancelled, CancelEvent("superseded"));
      } else {
        IssueCounted(m, origin, owner);
      }
    case ResumeBegin(i) =>
      if i < |w.begins| { IssueCounted(m, w.begins[i].origin, w.begins[i].owner); }
    case CancelStep(id, reason, bySession) =>
      if Cancel(m, id, reason, bySession).1.Stopped? { EndCounted(m, Cancelled, CancelEvent(reason)); }
    case FinishStep(id, failed) =>
      var status := if failed then Errored else Done;
      if IsCurrent(m, id) { EndCounted(m, status, DoneEvent(status)); }
  }

  lemma {:induction false} RunKeeps(w: World, steps: seq<Step>)
    requires Inv(w)
    ensures Inv(Run(w, steps))
    ensures Counted(w.mgr) ==> Counted(Run(w, steps).mgr)
    decreases |steps|
  {
    if steps != [] {
      StepKeeps(w, steps[0]);
      if Counted(w.mgr) {
        StepCounted(w, steps[0]);
      }
      RunKeeps(Apply(w, steps[0]), steps[1..]);
    }
  }

  // ---- obsolescence is final -----------------------------------------------------------

  /** Issued, and no longer current. */
  predicate Retired(m: Manager, id: nat) { 1 <= id <= m.counter && IsObsolete(m, id) }

  /** A retired turn stays retired and its row never changes again, whatever interleaves. */
  lemma {:induction false} RetiredForGood(w: World, steps: seq<Step>, id: nat)
    requires Inv(w) && Retired(w.mgr, id)
    ensures var m := Run(w, steps).mgr;
      Retired(m, id) && id in m.rows && m.rows[id] == w.mgr.rows[id]
    decreases |steps|
  {
    if steps != [] {
      StepKeeps(w, steps[0]);
      var w' := Apply(w, steps[0]);
      assert Retired(w'.mgr, id) && w'.mgr.rows[id] == w.mgr.rows[id];
      RetiredForGood(w', steps[1..], id);
    }
  }

  /** In every run each turn has at most one terminal notice: exactly one if its row is terminal, else none. */
  lemma OneEnding(steps: seq<Step>, id: nat)
    ensures var m := Run(START, steps).mgr;
      Endings(m.notices, id) == if id in m.rows && m.rows[id] != Active then 1 else 0
  {
    RunKeeps(START, steps);
  }

  // ---- what a step writes --------------------------------------------------------------

  /** `begin` without a turn to supersede, and the rest of one that had: the next id is current, with the origin and the
      owner given, its row is active, and its start is told. */
  lemma BeginWrites(w: World, origin: string, owner: nat)
    requires Inv(w)
    ensures var m, m' := w.mgr, Apply(w, Begin(origin, owner)).mgr;
      if m.current.None? then HasBegun(m, m', origin, owner) && Apply(w, Begin(origin, owner)).begins == w.begins
      else
        && m'.current == None && m'.counter == m.counter && m'.rows == m.rows[m.current.value.id := Cancelled]
        && m'.notices == m.notices + [Notice(m.current.value.id, CancelEvent("superseded"))]
        && Apply(w, Begin(origin, owner)).begins == w.begins + [Request(origin, owner)]
  {
  }

  predicate HasBegun(m: Manager, m': Manager, origin: string, owner: nat) {
    && m'.counter == m.counter + 1 && m'.current == Some(Turn(m.counter + 1, origin, owner, Active))
    && m'.rows == m.rows[m.counter + 1 := Active] && m'.notices == m.notices + [Notice(m.counter + 1, Started)]
  }

  lemma ResumeWrites(w: World, i: nat)
    requires i < |w.begins|
    ensures var w' := Apply(w, ResumeBegin(i));
      HasBegun(w.mgr, w'.mgr, w.begins[i].origin, w.begins[i].owner) && w'.begins == w.begins[..i] + w.begins[i + 1..]
  {
  }

  /** `finish` of the current turn: the row and the notice say done or error, as it was told; any other is ignored. */
  lemma FinishWrites(w: World, id: nat, failed: bool)
    ensures var m, m' := w.mgr, Apply(w, FinishStep(id, failed)).mgr;
      var status := if failed then Errored else Done;
      if m.current.Some? && m.current.value.id == id
      then m' == Manager(None, m.counter, m.rows[id := status], m.notices + [Notice(id, DoneEvent(status))])
      else m' == m
  {
  }

  /** `cancel` of the current turn by someone who may: the row says cancelled, and the notice gives the reason; any
      other is ignored. */
  lemma CancelWrites(w: World, id: nat, reason: string, bySession: Option<nat>)
    ensures var m, m' := w.mgr, Apply(w, CancelStep(id, reason, bySession)).mgr;
      if MayCancel(m, CancelStep(id, reason, bySession), id)
      then m' == Manager(None, m.counter, m.rows[id := Cancelled], m.notices + [Notice(id, CancelEvent(reason))])
      else m' == m
  {
  }

  ghost predicate KnownOwners(w: World, known: set<(string, nat)>) {
    && (w.mgr.current.Some? ==> (w.mgr.current.value.origin, w.mgr.current.value.owner) in known)
    && forall i :: 0 <= i < |w.begins| ==> (w.begins[i].origin, w.begins[i].owner) in known
  }

  lemma {:induction false} OwnersFrom(w: World, steps: seq<Step>, known: set<(string, nat)>)
    requires KnownOwners(w, known)
    requires forall k :: 0 <= k < |steps| && steps[k].Begin? ==> (steps[k].origin, steps[k].owner) in known
    ensures KnownOwners(Run(w, steps), known)
    decreases |steps|
  {
    if steps != [] {
      assert forall k :: 0 <= k < |steps[1..]| ==> steps[1..][k] == steps[k + 1];
      OwnersFrom(Apply(w, steps[0]), steps[1..], known);
    }
  }

  /** In every run, the origin and the owner of the current turn are those of some `begin`. */
  lemma OwnerIsBeginner(steps: seq<Step>)
    ensures var current := Run(START, steps).mgr.current;
      current.Some? ==> exists k :: 0 <= k < |steps| && steps[k] == Begin(current.value.origin, current.value.owner)
  {
    var known := set k | 0 <= k < |steps| && steps[k].Begin? :: (steps[k].origin, steps[k].owner);
    OwnersFrom(START, steps, known);
    var current := Run(START, steps).mgr.current;
    if current.Some? {
      var k :| 0 <= k < |steps| && steps[k].Begin?
               && (steps[k].origin, steps[k].owner) == (current.value.origin, current.value.owner);
      assert steps[k] == Begin(current.value.origin, current.value.owner);
    }
  }

  // ---- who may cancel ------------------------------------------------------------------

  /** The step takes the current turn `id` away from the user: a new turn supersedes it, or it is cancelled by the
      core, by the session that owns it or, if it is proactive, by any session. */
  predicate MayCancel(m: Manager, step: Step, id: nat) {
    IsCurrent(m, id)
    && (step.Begin?
        || (step.CancelStep? && step.id == id
            && (step.bySession == None || step.bySession == Some(m.current.value.owner)
                || m.current.value.origin == "proactive")))
  }

  predicate EverCancelled(w: World, steps: seq<Step>, id: nat)
    decreases |steps|
  {
    steps != [] && (MayCancel(w.mgr, steps[0], id) || EverCancelled(Apply(w, steps[0]), steps[1..], id))
  }

  lemma {:induction false} RetiredIsLeftAlone(w: World, steps: seq<Step>, id: nat)
    requires Inv(w) && Retired(w.mgr, id)
    ensures !EverCancelled(w, steps, id)
    decreases |steps|
  {
    if steps != [] {
      StepKeeps(w, steps[0]);
      RetiredIsLeftAlone(Apply(w, steps[0]), steps[1..], id);
    }
  }

  /** Over any run, a turn that is current at its start ends as cancelled if and only if, while it was current, a new
      turn superseded it or it was cancelled with authority over it. */
  lemma {:induction false} CancelAuthority(w: World, steps: seq<Step>, id: nat)
    requires Inv(w) && IsCurrent(w.mgr, id)
    ensures var m := Run(w, steps).mgr;
      id in m.rows && (m.rows[id] == Cancelled <==> EverCancelled(w, steps, id))
    decreases |steps|
  {
    if steps != [] {
      var w' := Apply(w, steps[0]);
      StepKeeps(w, steps[0]);
      if IsCurrent(w'.mgr, id) {
        CancelAuthority(w', steps[1..], id);
      } else {
        RetiredForGood(w', steps[1..], id);
        RetiredIsLeftAlone(w', steps[1..], id);
      }
    }
  }

  // ---- one foreground ------------------------------------------------------------------

  function ActiveRows(m: Manager): set<nat> {
    set id | id in m.rows && m.rows[id] == Active
  }

  function Foreground(m: Manager): set<nat> {
    if m.current.Some? then {m.current.value.id} else {}
  }

  /** A suspended `begin` wakes up while another turn is current. */
  predicate Overwrites(w: World, step: Step) {
    step.ResumeBegin? && step.i < |w.begins| && w.mgr.current.Some?
  }

  predicate NeverOverwrites(w: World, steps: seq<Step>)
    decreases |steps|
  {
    steps == [] || (!Overwrites(w, steps[0]) && NeverOverwrites(Apply(w, steps[0]), steps[1..]))
  }

  lemma StepForeground(w: World, step: Step)
    requires Inv(w) && ActiveRows(w.mgr) == Foreground(w.mgr)
    ensures var m := Apply(w, step).mgr;
      if Overwrites(w, step) then Retired(m, w.mgr.current.value.id) && m.rows[w.mgr.current.value.id] == Active
      else ActiveRows(m) == Foreground(m)
  {
    var m := w.mgr;
    match step
    case Begin(origin, owner) =>
      if m.current.Some? { EndRows(m, Cancelled, CancelEvent("superseded")); } else { IssueRows(m, origin, owner); }
    case ResumeBegin(i) =>
      if i < |w.begins| && m.current.None? { IssueRows(m, w.begins[i].origin, w.begins[i].owner); }
    case CancelStep(id, reason, bySession) =>
      if IsCurrent(m, id) { EndRows(m, Cancelled, CancelEvent(reason)); }
    case FinishStep(id, failed) =>
      var status := if failed then Errored else Done;
      if IsCurrent(m, id) { EndRows(m, status, DoneEvent(status)); }
  }

  lemma IssueRows(m: Manager, origin: string, owner: nat)
    requires ActiveRows(m) == {}
    ensures ActiveRows(Issue(m, origin, owner)) == {m.counter + 1}
  {
    var m' := Issue(m, origin, owner);
    forall id | id in ActiveRows(m')
      ensures id == m.counter + 1
    {
      assert id != m.counter + 1 ==> id in ActiveRows(m);
    }
    assert m.counter + 1 in ActiveRows(m');
  }

  lemma EndRows(m: Manager, status: Status, event: Event)
    requires m.current.Some? && ActiveRows(m) == {m.current.value.id} && status != Active
    ensures ActiveRows(End(m, status, event)) == {}
  {
    var m' := End(m, status, event);
    forall id: nat
      ensures id in ActiveRows(m') <==> id in ActiveRows(m) && id != m.current.value.id
    {
      assert id in m'.rows <==> id in m.rows || id == m.current.value.id;
    }
  }

  lemma {:induction false} ForegroundFrom(w: World, steps: seq<Step>)
    requires Inv(w) && ActiveRows(w.mgr) == Foreground(w.mgr)
    ensures ActiveRows(Run(w, steps).mgr) == Foreground(Run(w, steps).mgr) <==> NeverOverwrites(w, steps)
    decreases |steps|
  {
    if steps != [] {
      var w' := Apply(w, steps[0]);
      StepKeeps(w, steps[0]);
      StepForeground(w, steps[0]);
      if Overwrites(w, steps[0]) {
        var orphan := w.mgr.current.value.id;
        RetiredForGood(w', steps[1..], orphan);
        assert orphan in ActiveRows(Run(w', steps[1..]).mgr);
      } else {
        ForegroundFrom(w', steps[1..]);
      }
    }
  }

  /** From an empty store, the rows with status active are exactly the current turn, if any, at the end of a run
      if and only if no suspended `begin` ever woke up over another current turn. */
  lemma OneForeground(steps: seq<Step>)
    ensures ActiveRows(Run(START, steps).mgr) == Foreground(Run(START, steps).mgr) <==> NeverOverwrites(START, steps)
  {
    ForegroundFrom(START, steps);
  }

  /** No `begin` starts while another is suspended. */
  predicate BeginsApart(w: World, steps: seq<Step>)
    decreases |steps|
  {
    steps == [] || ((steps[0].Begin? ==> w.begins == []) && BeginsApart(Apply(w, steps[0]), steps[1..]))
  }

  lemma {:induction false} ApartNeverOverwrites(w: World, steps: seq<Step>)
    requires Inv(w) && BeginsApart(w, steps)
    requires |w.begins| <= 1 && (w.begins != [] ==> w.mgr.current.None?)
    ensures NeverOverwrites(w, steps)
    decreases |steps|
  {
    if steps != [] {
      StepKeeps(w, steps[0]);
      ApartNeverOverwrites(Apply(w, steps[0]), steps[1..]);
    }
  }

  /** In runs where no two `begin` calls overlap, however cancels and finishes interleave, there is one
      foreground: the active rows are the current turn, or none. */
  lemma OneForegroundApart(steps: seq<Step>)
    requires BeginsApart(START, steps)
    ensures ActiveRows(Run(START, steps).mgr) == Foreground(Run(START, steps).mgr)
  {
    ApartNeverOverwrites(START, steps);
    OneForeground(steps);
  }

  /** Two overlapping `begin` calls leave turn 2 active in the store with nobody left to end it. */
  lemma OverlapOrphansATurn()
    ensures var steps := [Begin("balloon", 1), Begin("balloon", 1), Begin("balloon", 2), ResumeBegin(0)];
      var m := Run(START, steps).mgr;
      && ActiveRows(m) == {2, 3} && Foreground(m) == {3}
      && forall more :: Orphaned(Run(Run(START, steps), more).mgr, 2)
  {
    var s0, s1, s2 := Begin("balloon", 1), Begin("balloon", 2), ResumeBegin(0);
    assert [s2][1..] == [] && [s1, s2][1..] == [s2] && [s0, s1, s2][1..] == [s1, s2];
    assert [s0, s0, s1, s2][1..] == [s0, s1, s2];
    var w2 := Apply(Apply(START, s0), s0);
    assert w2 == World(End(Issue(FRESH, "balloon", 1), Cancelled, CancelEvent("superseded")), [Request("balloon", 1)]);
    var w := Apply(Apply(w2, s1), s2);
    assert Run(START, [s0, s0, s1, s2]) == Run(w2, [s1, s2]);
    assert Run(w2, [s1, s2]) == Run(Apply(w2, s1), [s2]) == Run(w, []);
    assert Inv(w) by { RunKeeps(START, [s0, s0, s1, s2]); }
    assert w.mgr.rows == map[1 := Cancelled, 2 := Active, 3 := Active];
    forall more
      ensures Orphaned(Run(w, more).mgr, 2)
    {
      RetiredForGood(w, more, 2);
    }
  }

  /** Active in the store, with no way to end it through the manager. */
  predicate Orphaned(m: Manager, id: nat) {
    Retired(m, id) && id in m.rows && m.rows[id] == Active
  }
}
