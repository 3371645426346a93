/** The token stream of chat turns: `on_delta` at await granularity, interleaved with the turn manager. */
module TokenStream {
  import opened Prelude
  import opened Turns

  /** Where a call of `on_delta` is suspended: in the broadcast of the RESPONDING state, or of its token. */
  datatype Place = InState | InToken

  datatype Call = Call(delta: string, place: Place)

  /** What `on_delta` closes over, for one turn. The model stream awaits each call before it takes the next delta,
      so at most one call is under way; `ended` when its task has been cancelled. */
  datatype Reply = Reply(first: bool, parts: seq<string>, seqNo: nat, call: Option<Call>, ended: bool)

  const UNTOUCHED := Reply(true, [], 0, None, false)

  datatype Emission = Responding(turn: nat) | Token(turn: nat, seqNo: nat, delta: string)

  /** From the entry of `on_delta` to its first await: the reply, and what is broadcast. */
  function Begun(r: Reply, turn: nat, delta: string, obsolete: bool): (Reply, seq<Emission>) {
    if obsolete then (r, [])
    else if r.first then (r.(first := false, call := Some(Call(delta, InState))), [Responding(turn)])
    else (r.(call := Some(Call(delta, InToken))), [Token(turn, r.seqNo, delta)])
  }

  /** From one await of the suspended call to the next, or to its end. */
  function Resumed(r: Reply, turn: nat): (Reply, seq<Emission>)
    requires r.call.Some?
  {
    var delta := r.call.value.delta;
    match r.call.value.place
    case InState => (r.(call := Some(Call(delta, InToken))), [Token(turn, r.seqNo, delta)])
    case InToken => (r.(call := None, parts := r.parts + [delta], seqNo := r.seqNo + 1), [])
  }

  class ReplyStream {
    const turn: nat
    var first: bool
    var parts: seq<string>
    var seqNo: nat
    var call: Option<Call>
    var emitted: seq<Emission>

    function View(): Reply
      reads this
    {
      Reply(first, parts, seqNo, call, false)
    }

    constructor (turn: nat)
      ensures View() == UNTOUCHED && emitted == [] && this.turn == turn
    {
      this.turn := turn;
      first, parts, seqNo, call, emitted := true, [], 0, None, [];
    }

    method OnDelta(delta: string, manager: TurnManager)
      requires call.None?
      modifies this
      ensures (View(), emitted) == (var (r, out) := Begun(old(View()), turn, delta, manager.Obsolete(turn));
                                    (r, old(emitted) + out))
    {
      var obsolete := manager.Obsolete(turn);
      if obsolete {
        assert emitted + [] == emitted;
        return;
      }
      if first {
        first := false;
        emitted := emitted + [Responding(turn)];
        call := Some(Call(delta, InState));
        return;
      }
      emitted := emitted + [Token(turn, seqNo, delta)];
      call := Some(Call(delta, InToken));
    }

    method ResumeCall()
      requires call.Some?
      modifies this
      ensures (View(), emitted) == (var (r, out) := Resumed(old(View()), turn); (r, old(emitted) + out))
    {
      var delta := call.value.delta;
      if call.value.place == InState {
        emitted := emitted + [Token(turn, seqNo, delta)];
        call := Some(Call(delta, InToken));
      } else {
        parts := parts + [delta];
        seqNo := seqNo + 1;
        call := None;
        assert emitted + [] == emitted;
      }
    }
  }

  // ---- interleavings -------------------------------------------------------------------

  datatype World = World(turns: Turns.World, replies: map<nat, Reply>, emitted: seq<Emission>)

  const START := World.World(Turns.START, map[], [])

  datatype Step =
    | TurnStep(step: Turns.Step)
    | Delta(turn: nat, delta: string)
    | Resume(turn: nat)
    | Abort(turn: nat)

  function ReplyOf(w: World, turn: nat): Reply {
    if turn in w.replies then w.replies[turn] else UNTOUCHED
  }

  function Apply(w: World, step: Step): World {
    match step
    case TurnStep(s) => w.(turns := Turns.Apply(w.turns, s))
    case Delta(turn, delta) =>
      var r := ReplyOf(w, turn);
      if r.call.Some? || r.ended then w
      else
        var (r', out) := Begun(r, turn, delta, IsObsolete(w.turns.mgr, turn));
        w.(replies := w.replies[turn := r'], emitted := w.emitted + out)
    case Resume(turn) =>
      var r := ReplyOf(w, turn);
      if r.call.None? then w
      else
        var (r', out) := Resumed(r, turn);
        w.(replies := w.replies[turn := r'], emitted := w.emitted + out)
    case Abort(turn) => w.(replies := w.replies[turn := ReplyOf(w, turn).(call := None, ended := true)])
  }

  function Run(w: World, steps: seq<Step>): World
    decreases |steps|
  {
    if steps == [] then w else Run(Apply(w, steps[0]), steps[1..])
  }

  /** The tokens of one turn, in the order they were broadcast. */
  function Tokens(emitted: seq<Emission>, turn: nat): seq<Emission> {
    if emitted == [] then []
    else Tokens(emitted[..|emitted| - 1], turn) + TokenOf(emitted[|emitted| - 1], turn)
  }

  function TokenOf(e: Emission, turn: nat): seq<Emission> {
    if e.Token? && e.turn == turn then [e] else []
  }

  function Announcements(emitted: seq<Emission>, turn: nat): nat {
    if emitted == [] then 0
    else Announcements(emitted[..|emitted| - 1], turn) + if emitted[|emitted| - 1] == Responding(turn) then 1 else 0
  }

  lemma Snoc(emitted: seq<Emission>, out: seq<Emission>, turn: nat)
    requires |out| <= 1
    ensures Tokens(emitted + out, turn) == Tokens(emitted, turn) + (if out == [] then [] else TokenOf(out[0], turn))
    ensures Announcements(emitted + out, turn)
         == Announcements(emitted, turn) + if out == [Responding(turn)] then 1 else 0
  {
    if out == [] {
      assert emitted + out == emitted;
    } else {
      assert (emitted + out)[..|emitted|] == emitted;
    }
  }

  /** The state of a reply against what clients have been sent of it. */
  predicate Numbered(r: Reply, tokens: seq<Emission>, announcements: nat) {
    && (forall k :: 0 <= k < |tokens| ==> tokens[k].Token? && tokens[k].seqNo == k)
    && |r.parts| == r.seqNo <= |tokens|
    && (forall k :: 0 <= k < |r.parts| ==> tokens[k].Token? && tokens[k].delta == r.parts[k])
    && announcements == (if r.first then 0 else 1)
    && (r.first ==> tokens == [] && r.call.None?)
    && (r.ended ==> r.call.None? && |tokens| <= r.seqNo + 1)
    && (!r.ended ==> |tokens| == r.seqNo + if r.call.Some? && r.call.value.place == InToken then 1 else 0)
    && (r.call.Some? && r.call.value.place == InToken ==>
          |tokens| > 0 && tokens[|tokens| - 1].Token? && tokens[|tokens| - 1].delta == r.call.value.delta)
  }

  ghost predicate AllNumbered(w: World) {
    forall turn: nat :: Numbered(ReplyOf(w, turn), Tokens(w.emitted, turn), Announcements(w.emitted, turn))
  }

  /** `tokens` and `announcements` after one more broadcast, if there was one. */
  function MoreTokens(tokens: seq<Emission>, out: seq<Emission>, turn: nat): seq<Emission>
    requires |out| <= 1
  {
    tokens + if out == [] then [] else TokenOf(out[0], turn)
  }

  function MoreAnnouncements(announcements: nat, out: seq<Emission>, turn: nat): nat {
    announcements + if out == [Responding(turn)] then 1 else 0
  }

  lemma BegunNumbered(r: Reply, turn: nat, delta: string, obsolete: bool, tokens: seq<Emission>, announcements: nat)
    requires Numbered(r, tokens, announcements) && r.call.None? && !r.ended
    ensures var (r', out) := Begun(r, turn, delta, obsolete);
      |out| <= 1 && Numbered(r', MoreTokens(tokens, out, turn), MoreAnnouncements(announcements, out, turn))
  {
    assert tokens + [] == tokens;
  }

  lemma ResumedNumbered(r: Reply, turn: nat, tokens: seq<Emission>, announcements: nat)
    requires Numbered(r, tokens, announcements) && r.call.Some?
    ensures var (r', out) := Resumed(r, turn);
      |out| <= 1 && Numbered(r', MoreTokens(tokens, out, turn), MoreAnnouncements(announcements, out, turn))
  {
    assert tokens + [] == tokens;
  }

  lemma OthersUntouched(w: World, step: Step, turn: nat)
    requires step.TurnStep? || step.turn != turn
    ensures var w' := Apply(w, step);
      && ReplyOf(w', turn) == ReplyOf(w, turn)
      && Tokens(w'.emitted, turn) == Tokens(w.emitted, turn)
      && Announcements(w'.emitted, turn) == Announcements(w.emitted, turn)
  {
    var w' := Apply(w, step);
    if w'.emitted != w.emitted {
      var n := |w.emitted|;
      assert w'.emitted == w.emitted + w'.emitted[n..];
      Snoc(w.emitted, w'.emitted[n..], turn);
    }
  }

  lemma StepNumbered(w: World, step: Step, turn: nat)
    requires Numbered(ReplyOf(w, turn), Tokens(w.emitted, turn), Announcements(w.emitted, turn))
    ensures var w' := Apply(w, step);
      Numbered(ReplyOf(w', turn), Tokens(w'.emitted, turn), Announcements(w'.emitted, turn))
  {
    if step.TurnStep? || step.turn != turn {
      OthersUntouched(w, step, turn);
    } else if step.Delta? {
      DeltaNumbered(w, turn, step.delta);
    } else if step.Resume? {
      ResumeNumbered(w, turn);
    }
  }

  lemma MoreEmitted(emitted: seq<Emission>, out: seq<Emission>, turn: nat)
    requires |out| <= 1
    ensures Tokens(emitted + out, turn) == MoreTokens(Tokens(emitted, turn), out, turn)
    ensures Announcements(emitted + out, turn) == MoreAnnouncements(Announcements(emitted, turn), out, turn)
  {
    Snoc(emitted, out, turn);
  }

  lemma DeltaNumbered(w: World, turn: nat, delta: string)
    requires Numbered(ReplyOf(w, turn), Tokens(w.emitted, turn), Announcements(w.emitted, turn))
    ensures var w' := Apply(w, Delta(turn, delta));
      Numbered(ReplyOf(w', turn), Tokens(w'.emitted, turn), Announcements(w'.emitted, turn))
  {
    var r := ReplyOf(w, turn);
    if r.call.None? && !r.ended {
      var obsolete := IsObsolete(w.turns.mgr, turn);
      BegunNumbered(r, turn, delta, obsolete, Tokens(w.emitted, turn), Announcements(w.emitted, turn));
      MoreEmitted(w.emitted, Begun(r, turn, delta, obsolete).1, turn);
    }
  }

  lemma ResumeNumbered(w: World, turn: nat)
    requires Numbered(ReplyOf(w, turn), Tokens(w.emitted, turn), Announcements(w.emitted, turn))
    ensures var w' := Apply(w, Resume(turn));
      Numbered(ReplyOf(w', turn), Tokens(w'.emitted, turn), Announcements(w'.emitted, turn))
  {
    var r := ReplyOf(w, turn);
    if r.call.Some? {
      ResumedNumbered(r, turn, Tokens(w.emitted, turn), Announcements(w.emitted, turn));
      MoreEmitted(w.emitted, Resumed(r, turn).1, turn);
    }
  }

  lemma {:induction false} RunNumbered(w: World, steps: seq<Step>)
    requires AllNumbered(w)
    ensures AllNumbered(Run(w, steps))
    decreases |steps|
  {
    if steps != [] {
      forall turn: nat
        ensures var w' := Apply(w, steps[0]);
          Numbered(ReplyOf(w', turn), Tokens(w'.emitted, turn), Announcements(w'.emitted, turn))
      {
        StepNumbered(w, steps[0], turn);
      }
      RunNumbered(Apply(w, steps[0]), steps[1..]);
    }
  }

  /** In every run, for every turn: its tokens are numbered 0, 1, 2, ... as broadcast; the text a resync snapshot
      would carry, with its base, is exactly the deltas of the tokens below that base; at most one token is ahead of
      the snapshot; and RESPONDING is announced once, before the first token. */
  lemma StreamNumbered(steps: seq<Step>, turn: nat)
    ensures var w := Run(START, steps);
      Numbered(ReplyOf(w, turn), Tokens(w.emitted, turn), Announcements(w.emitted, turn))
  {
    RunNumbered(START, steps);
  }

  // ---- joining a stream through a snapshot ---------------------------------------------

  /** The text carried by `tokens`, delta by delta. */
  function Deltas(tokens: seq<Emission>): seq<string> {
    if tokens == [] then [] else (if tokens[0].Token? then [tokens[0].delta] else []) + Deltas(tokens[1..])
  }

  lemma {:induction false} DeltasAppend(a: seq<Emission>, b: seq<Emission>)
    ensures Deltas(a + b) == Deltas(a) + Deltas(b)
  {
    if a == [] {
      assert a + b == b;
    } else {
      assert (a + b)[1..] == a[1..] + b;
      DeltasAppend(a[1..], b);
    }
  }

  lemma {:induction false} DeltasLength(tokens: seq<Emission>)
    requires forall k :: 0 <= k < |tokens| ==> tokens[k].Token?
    ensures |Deltas(tokens)| == |tokens|
    ensures forall k :: 0 <= k < |tokens| ==> Deltas(tokens)[k] == tokens[k].delta
  {
    if tokens != [] {
      DeltasLength(tokens[1..]);
    }
  }

  lemma {:induction false} TokensGrow(emitted: seq<Emission>, out: seq<Emission>, turn: nat)
    ensures Tokens(emitted, turn) <= Tokens(emitted + out, turn)
    decreases |out|
  {
    if out == [] {
      assert emitted + out == emitted;
    } else {
      var front, last := out[..|out| - 1], out[|out| - 1];
      TokensGrow(emitted, front, turn);
      assert (emitted + out)[..|emitted + out| - 1] == emitted + front;
    }
  }

  lemma {:induction false} RunEmits(w: World, steps: seq<Step>)
    ensures w.emitted <= Run(w, steps).emitted
    decreases |steps|
  {
    if steps != [] {
      RunEmits(Apply(w, steps[0]), steps[1..]);
    }
  }

  predicate InBroadcast(r: Reply) { r.call.Some? && r.call.value.place == InToken }

  lemma SnapshotText(r: Reply, tokens: seq<Emission>, announcements: nat)
    requires Numbered(r, tokens, announcements) && !r.ended
    ensures Deltas(tokens) == r.parts + if InBroadcast(r) then [r.call.value.delta] else []
  {
    DeltasLength(tokens);
  }

  /** A client that joins a stream gets a snapshot, and then the tokens broadcast from then on. In every run and for
      every continuation that is the full text if and only if no token is being broadcast at that moment; otherwise
      exactly the delta of that token is missing between the two. */
  lemma SnapshotThenTokens(before: seq<Step>, after: seq<Step>, turn: nat)
    requires !ReplyOf(Run(START, before), turn).ended
    ensures var w := Run(START, before);
      var r, seen := ReplyOf(w, turn), |Tokens(w.emitted, turn)|;
      var tokens := Tokens(Run(w, after).emitted, turn);
      && seen <= |tokens|
      && (Deltas(tokens) == r.parts + Deltas(tokens[seen..]) <==> !InBroadcast(r))
      && (InBroadcast(r) ==> Deltas(tokens) == r.parts + [r.call.value.delta] + Deltas(tokens[seen..]))
  {
    var w := Run(START, before);
    var emitted := Run(w, after).emitted;
    StreamNumbered(before, turn);
    RunEmits(w, after);
    assert emitted == w.emitted + emitted[|w.emitted|..];
    TokensGrow(w.emitted, emitted[|w.emitted|..], turn);
    JoinedText(ReplyOf(w, turn), Tokens(w.emitted, turn), Announcements(w.emitted, turn), Tokens(emitted, turn));
  }

  lemma JoinedText(r: Reply, had: seq<Emission>, announcements: nat, tokens: seq<Emission>)
    requires Numbered(r, had, announcements) && !r.ended && had <= tokens
    ensures Deltas(tokens) == r.parts + Deltas(tokens[|had|..]) <==> !InBroadcast(r)
    ensures InBroadcast(r) ==> Deltas(tokens) == r.parts + [r.call.value.delta] + Deltas(tokens[|had|..])
  {
    assert tokens == had + tokens[|had|..];
    DeltasAppend(had, tokens[|had|..]);
    SnapshotText(r, had, announcements);
    assert r.parts + [] == r.parts;
  }

  // ---- the text that goes out is the text that came in ---------------------------------

  /** Where `on_delta` stands for one turn, as far as the steps tell: how many awaits its call under way has still to
      return from, whether a first delta has come, and whether its task has been cancelled. */
  datatype Progress = Progress(awaits: nat, begun: bool, ended: bool)

  const NOT_BEGUN := Progress(0, false, false)

  function Moved(p: Progress, step: Step, turn: nat, current: bool): Progress {
    match step
    case Delta(t, _) =>
      if t == turn && Accepts(p, current) then Progress(if p.begun then 1 else 2, true, false) else p
    case Resume(t) => if t == turn && p.awaits > 0 then p.(awaits := p.awaits - 1) else p
    case Abort(t) => if t == turn then p.(awaits := 0, ended := true) else p
    case TurnStep(_) => p
  }

  /** No call is under way, the task lives, and the turn is current. */
  predicate Accepts(p: Progress, current: bool) { p.awaits == 0 && !p.ended && current }

  /** The deltas that `on_delta` takes in: from the steps and the turn manager alone. */
  function TakenIn(turns: Turns.World, p: Progress, steps: seq<Step>, turn: nat): seq<string>
    decreases |steps|
  {
    if steps == [] then []
    else
      var step, current := steps[0], IsCurrent(turns.mgr, turn);
      var turns' := if step.TurnStep? then Turns.Apply(turns, step.step) else turns;
      (if step.Delta? && step.turn == turn && Accepts(p, current) then [step.delta] else [])
      + TakenIn(turns', Moved(p, step, turn, current), steps[1..], turn)
  }

  predicate Follows(r: Reply, p: Progress) {
    && (p.awaits == if r.call.None? then 0 else if r.call.value.place == InState then 2 else 1)
    && p.begun == !r.first && p.ended == r.ended && (r.ended ==> r.call.None?)
  }

  /** The delta of a call that still awaits the RESPONDING broadcast. */
  function Held(r: Reply): seq<string> {
    if r.call.Some? && r.call.value.place == InState then [r.call.value.delta] else []
  }

  function Text(w: World, turn: nat): seq<string> { Deltas(Tokens(w.emitted, turn)) }

  lemma TextSnoc(w: World, w': World, out: seq<Emission>, turn: nat)
    requires |out| <= 1 && w'.emitted == w.emitted + out
    ensures Text(w', turn) == Text(w, turn) + if out == [] then [] else Deltas(TokenOf(out[0], turn))
  {
    Snoc(w.emitted, out, turn);
    var more := if out == [] then [] else TokenOf(out[0], turn);
    DeltasAppend(Tokens(w.emitted, turn), more);
  }

  lemma OneDelta(turn: nat, seqNo: nat, delta: string)
    ensures Deltas(TokenOf(Token(turn, seqNo, delta), turn)) == [delta]
    ensures Deltas(TokenOf(Responding(turn), turn)) == []
  {
    assert [Token(turn, seqNo, delta)][1..] == [];
  }

  /** What one step adds to the text, sent or held. */
  lemma StepText(w: World, p: Progress, step: Step, turn: nat)
    requires Follows(ReplyOf(w, turn), p)
    ensures var w' := Apply(w, step);
      var r, r' := ReplyOf(w, turn), ReplyOf(w', turn);
      var current := IsCurrent(w.turns.mgr, turn);
      && Follows(r', Moved(p, step, turn, current))
      && Text(w, turn) <= Text(w', turn)
      && (step != Abort(turn) ==>
            Text(w', turn) + Held(r') == Text(w, turn) + Held(r)
              + (if step.Delta? && step.turn == turn && Accepts(p, current) then [step.delta] else []))
      && (step == Abort(turn) ==> Text(w', turn) == Text(w, turn) && Held(r') == [])
  {
    var w' := Apply(w, step);
    var r := ReplyOf(w, turn);
    if step.TurnStep? || step.turn != turn {
      OthersUntouched(w, step, turn);
    } else if step.Delta? && r.call.None? && !r.ended {
      var out := Begun(r, turn, step.delta, IsObsolete(w.turns.mgr, turn)).1;
      OneDelta(turn, r.seqNo, step.delta);
      TextSnoc(w, w', out, turn);
    } else if step.Resume? && r.call.Some? {
      OneDelta(turn, r.seqNo, r.call.value.delta);
      TextSnoc(w, w', Resumed(r, turn).1, turn);
    }
  }

  predicate NeverAborted(steps: seq<Step>, turn: nat) {
    forall t :: t in steps ==> t != Abort(turn)
  }

  lemma {:induction false} TextOnceEnded(w: World, p: Progress, steps: seq<Step>, turn: nat)
    requires Follows(ReplyOf(w, turn), p) && p.ended
    ensures TakenIn(w.turns, p, steps, turn) == [] && Text(Run(w, steps), turn) == Text(w, turn)
    decreases |steps|
  {
    if steps != [] {
      StepText(w, p, steps[0], turn);
      TextOnceEnded(Apply(w, steps[0]), Moved(p, steps[0], turn, IsCurrent(w.turns.mgr, turn)), steps[1..], turn);
    }
  }

  /** What a run adds to `had`, sent or held, when `given` is taken in during it. */
  predicate Adds(had: seq<string>, given: seq<string>, text: seq<string>, held: seq<string>, aborted: bool) {
    && (!aborted ==> text + held == had + given)
    && text <= had + given && |had + given| <= |text| + 1
  }

  lemma AddsFirst(had: seq<string>, now: seq<string>, later: seq<string>, text: seq<string>, held: seq<string>,
                  aborted: bool)
    requires Adds(had + now, later, text, held, aborted)
    ensures Adds(had, now + later, text, held, aborted)
  {
    Assoc(had, now, later);
  }

  lemma {:induction false} TextFrom(w: World, p: Progress, steps: seq<Step>, turn: nat)
    requires Follows(ReplyOf(w, turn), p)
    ensures var last := Run(w, steps);
      Adds(Text(w, turn) + Held(ReplyOf(w, turn)), TakenIn(w.turns, p, steps, turn),
           Text(last, turn), Held(ReplyOf(last, turn)), !NeverAborted(steps, turn))
    decreases |steps|
  {
    var had := Text(w, turn) + Held(ReplyOf(w, turn));
    if steps == [] {
      assert had + [] == had;
    } else {
      var w1 := Apply(w, steps[0]);
      var p1 := Moved(p, steps[0], turn, IsCurrent(w.turns.mgr, turn));
      StepText(w, p, steps[0], turn);
      AbortsHere(steps, turn);
      TakenFirst(w, p, steps, turn);
      if steps[0] == Abort(turn) {
        TextOnceEnded(w1, p1, steps[1..], turn);
        EndsWith(Text(w, turn), Held(ReplyOf(w, turn)));
      } else {
        TextFrom(w1, p1, steps[1..], turn);
        Continues(had, TakenNow(w, p, steps[0], turn), w1, p1, steps[1..], turn);
      }
    }
  }

  function TakenNow(w: World, p: Progress, step: Step, turn: nat): seq<string> {
    if step.Delta? && step.turn == turn && Accepts(p, IsCurrent(w.turns.mgr, turn)) then [step.delta] else []
  }

  lemma TakenFirst(w: World, p: Progress, steps: seq<Step>, turn: nat)
    requires steps != []
    ensures TakenIn(w.turns, p, steps, turn)
         == TakenNow(w, p, steps[0], turn)
            + TakenIn(Apply(w, steps[0]).turns, Moved(p, steps[0], turn, IsCurrent(w.turns.mgr, turn)), steps[1..],
                      turn)
    ensures steps[0] == Abort(turn) ==> TakenNow(w, p, steps[0], turn) == []
  {
  }

  lemma EndsWith(text: seq<string>, held: seq<string>)
    requires |held| <= 1
    ensures Adds(text + held, [], text, [], true)
  {
    assert text + held + [] == text + held;
  }

  lemma Continues(had: seq<string>, now: seq<string>, w: World, p: Progress, steps: seq<Step>, turn: nat)
    requires had + now == Text(w, turn) + Held(ReplyOf(w, turn))
    requires var last := Run(w, steps);
      Adds(Text(w, turn) + Held(ReplyOf(w, turn)), TakenIn(w.turns, p, steps, turn),
           Text(last, turn), Held(ReplyOf(last, turn)), !NeverAborted(steps, turn))
    ensures var last := Run(w, steps);
      Adds(had, now + TakenIn(w.turns, p, steps, turn),
           Text(last, turn), Held(ReplyOf(last, turn)), !NeverAborted(steps, turn))
  {
    var last := Run(w, steps);
    AddsFirst(had, now, TakenIn(w.turns, p, steps, turn), Text(last, turn), Held(ReplyOf(last, turn)),
              !NeverAborted(steps, turn));
  }

  lemma AbortsHere(steps: seq<Step>, turn: nat)
    requires steps != []
    ensures NeverAborted(steps, turn) <==> steps[0] != Abort(turn) && NeverAborted(steps[1..], turn)
  {
    assert steps[0] in steps && forall t :: t in steps[1..] ==> t in steps;
    assert forall t :: t in steps ==> t == steps[0] || t in steps[1..];
  }

  /** In every run, the text broadcast of a turn is the text that its `on_delta` was given. Without a cancellation of
      its task, the tokens and the delta of a call that still awaits the RESPONDING broadcast are exactly the deltas
      that met an idle call of the current turn, in order; with one, at most the last of them is missing. */
  lemma TextIsWhatWasGiven(steps: seq<Step>, turn: nat)
    ensures var w := Run(START, steps);
      var given := TakenIn(Turns.START, NOT_BEGUN, steps, turn);
      && (NeverAborted(steps, turn) ==> Deltas(Tokens(w.emitted, turn)) + Held(ReplyOf(w, turn)) == given)
      && Deltas(Tokens(w.emitted, turn)) <= given && |given| <= |Deltas(Tokens(w.emitted, turn))| + 1
  {
    TextFrom(START, NOT_BEGUN, steps, turn);
    assert [] + [] + TakenIn(Turns.START, NOT_BEGUN, steps, turn) == TakenIn(Turns.START, NOT_BEGUN, steps, turn);
  }

  // ---- silence after retirement --------------------------------------------------------

  /** What a reply can still broadcast once its turn is obsolete: the token of a call that was suspended in the
      RESPONDING broadcast, and nothing else. */
  function Leak(r: Reply): nat {
    if r.call.Some? && r.call.value.place == InState then 1 else 0
  }

  function Count(emitted: seq<Emission>, turn: nat): nat {
    |Tokens(emitted, turn)| + Announcements(emitted, turn)
  }

  /** The call that is under way for `turn` is resumed before its task is cancelled, if ever. */
  predicate ResumedFirst(steps: seq<Step>, turn: nat) {
    steps != [] && !(steps[0].Abort? && steps[0].turn == turn)
    && ((steps[0].Resume? && steps[0].turn == turn) || ResumedFirst(steps[1..], turn))
  }

  lemma StepLeaks(w: World, step: Step, turn: nat)
    requires Turns.Inv(w.turns) && Retired(w.turns.mgr, turn)
    ensures var w' := Apply(w, step);
      var leak, leak' := Leak(ReplyOf(w, turn)), Leak(ReplyOf(w', turn));
      && Turns.Inv(w'.turns) && Retired(w'.turns.mgr, turn)
      && Count(w'.emitted, turn) == Count(w.emitted, turn) + (if step == Resume(turn) then leak else 0)
      && leak' == if step == Resume(turn) || step == Abort(turn) then 0 else leak
  {
    if step.TurnStep? {
      Turns.StepKeeps(w.turns, step.step);
      OthersUntouched(w, step, turn);
    } else if step.turn != turn {
      OthersUntouched(w, step, turn);
    } else if step.Delta? {
      assert w.emitted + [] == w.emitted;
    } else if step.Resume? {
      ResumeLeaks(w, turn);
    }
  }

  lemma ResumeLeaks(w: World, turn: nat)
    ensures var w' := Apply(w, Resume(turn));
      && Count(w'.emitted, turn) == Count(w.emitted, turn) + Leak(ReplyOf(w, turn)) && Leak(ReplyOf(w', turn)) == 0
  {
    var r := ReplyOf(w, turn);
    if r.call.Some? {
      MoreEmitted(w.emitted, Resumed(r, turn).1, turn);
      ResumedLeak(r, turn, Tokens(w.emitted, turn), Announcements(w.emitted, turn));
    }
  }

  lemma ResumedLeak(r: Reply, turn: nat, tokens: seq<Emission>, announcements: nat)
    requires r.call.Some?
    ensures var (r', out) := Resumed(r, turn);
      && |out| <= 1 && Leak(r') == 0
      && |MoreTokens(tokens, out, turn)| == |tokens| + Leak(r)
      && MoreAnnouncements(announcements, out, turn) == announcements
  {
  }

  lemma {:induction false} LeaksFrom(w: World, steps: seq<Step>, turn: nat)
    requires Turns.Inv(w.turns) && Retired(w.turns.mgr, turn)
    ensures Count(Run(w, steps).emitted, turn)
         == Count(w.emitted, turn) + if Leak(ReplyOf(w, turn)) == 1 && ResumedFirst(steps, turn) then 1 else 0
    decreases |steps|
  {
    if steps != [] {
      StepLeaks(w, steps[0], turn);
      LeaksFrom(Apply(w, steps[0]), steps[1..], turn);
    }
  }

  lemma {:induction false} RunKeepsTurns(w: World, steps: seq<Step>)
    requires Turns.Inv(w.turns)
    ensures Turns.Inv(Run(w, steps).turns)
    decreases |steps|
  {
    if steps != [] {
      if steps[0].TurnStep? {
        Turns.StepKeeps(w.turns, steps[0].step);
      }
      RunKeepsTurns(Apply(w, steps[0]), steps[1..]);
    }
  }

  /** What is still broadcast of a retired turn, in every run and whatever interleaves: exactly one token if, when the
      turn was retired, a call was suspended in the broadcast of RESPONDING and it is resumed before its task is
      cancelled; and otherwise nothing. `on_delta` does not look again after that await. */
  lemma SilentOnceRetired(before: seq<Step>, after: seq<Step>, turn: nat)
    requires Retired(Run(START, before).turns.mgr, turn)
    ensures var w := Run(START, before);
      Count(Run(w, after).emitted, turn)
      == Count(w.emitted, turn) + if Leak(ReplyOf(w, turn)) == 1 && ResumedFirst(after, turn) then 1 else 0
  {
    RunKeepsTurns(START, before);
    LeaksFrom(Run(START, before), after, turn);
  }

  lemma RunStep(w: World, step: Step, rest: seq<Step>)
    ensures Run(w, [step] + rest) == Run(Apply(w, step), rest)
  {
    assert ([step] + rest)[1..] == rest;
  }

  /** A turn begins, its first delta announces RESPONDING, and the turn is cancelled during that broadcast. */
  function CancelledInState(delta: string): seq<Step> {
    [TurnStep(Begin("balloon", 1))] + ([Delta(1, delta)] + ([TurnStep(CancelStep(1, "user_cancel", Some(1)))] + []))
  }

  /** The token does leak: the turn is cancelled, and then its first token goes out. */
  lemma LeakHappens(delta: string)
    ensures var w := Run(START, CancelledInState(delta));
      && Retired(w.turns.mgr, 1) && 1 in w.turns.mgr.rows && w.turns.mgr.rows[1] == Cancelled
      && w.emitted == [Responding(1)]
      && Apply(w, Resume(1)).emitted == [Responding(1), Token(1, 0, delta)]
  {
    var begin, cancel := TurnStep(Begin("balloon", 1)), TurnStep(CancelStep(1, "user_cancel", Some(1)));
    var w1 := Apply(START, begin);
    var w2 := Apply(w1, Delta(1, delta));
    RunStep(START, begin, [Delta(1, delta)] + ([cancel] + []));
    RunStep(w1, Delta(1, delta), [cancel] + []);
    RunStep(w2, cancel, []);
    assert w2.emitted == [Responding(1)];
  }
}
