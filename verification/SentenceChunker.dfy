/** The streaming sentence splitter, against a one-shot splitter of the whole text. */
module SentenceChunker {
  import opened Prelude

  const MAX_SENTENCE_CHARS := 200

  // 。 ！ ？ ! ? … newline
  const TERMINATORS := {'\U{3002}', '\U{FF01}', '\U{FF1F}', '!', '?', '\U{2026}', '\n'}
  // 」 』 ） ) 】 ＞ > " ' ’ ”
  const CLOSERS :=
    {'\U{300D}', '\U{300F}', '\U{FF09}', ')', '\U{3011}', '\U{FF1E}', '>', '"', '\'', '\U{2019}', '\U{201D}'}
  // 「 『 （ ( 【 ＜ < ‘ “ space, tab, ideographic space
  const OPENERS_AND_BLANKS :=
    {'\U{300C}', '\U{300E}', '\U{FF08}', '(', '\U{3010}', '\U{FF1C}', '<',
     '\U{2018}', '\U{201C}', ' ', '\t', '\U{3000}'}

  predicate Terminator(ch: char) { ch in TERMINATORS }

  predicate Glue(ch: char) { ch in CLOSERS || Terminator(ch) }

  predicate ContentFree(ch: char) { Glue(ch) || ch in OPENERS_AND_BLANKS }

  predicate Speakable(sentence: string) {
    sentence != "" && (!ContentFree(sentence[0]) || Speakable(sentence[1..]))
  }

  // ---- `str.strip`, for any notion of white space --------------------------------------

  function StripLeft(isSpace: char -> bool, s: string): string {
    if s != "" && isSpace(s[0]) then StripLeft(isSpace, s[1..]) else s
  }

  function StripRight(isSpace: char -> bool, s: string): string {
    if s != "" && isSpace(s[|s| - 1]) then StripRight(isSpace, s[..|s| - 1]) else s
  }

  function Strip(isSpace: char -> bool, s: string): string {
    StripRight(isSpace, StripLeft(isSpace, s))
  }

  /** What the pipeline gets to hear of a list of raw segments. */
  function Spoken(isSpace: char -> bool, raw: seq<string>): seq<string> {
    if raw == [] then [] else Utterance(Strip(isSpace, raw[0])) + Spoken(isSpace, raw[1..])
  }

  function Utterance(sentence: string): seq<string> {
    if Speakable(sentence) then [sentence] else []
  }

  lemma {:induction false} SpokenAppend(isSpace: char -> bool, a: seq<string>, b: seq<string>)
    ensures Spoken(isSpace, a + b) == Spoken(isSpace, a) + Spoken(isSpace, b)
  {
    if a == [] {
      assert a + b == b;
    } else {
      assert (a + b)[1..] == a[1..] + b;
      SpokenAppend(isSpace, a[1..], b);
      Assoc(Utterance(Strip(isSpace, a[0])), Spoken(isSpace, a[1..]), Spoken(isSpace, b));
    }
  }

  // ---- the one-shot splitter -----------------------------------------------------------

  /** Length of the core of a segment: up to the first terminator or the 200th character. `n` characters
      of the core come before `text`. */
  function CoreLength(text: string, n: nat): (k: nat)
    ensures k <= |text| && (text != "" ==> k > 0)
  {
    if text == "" then 0
    else if Terminator(text[0]) || n + 1 >= MAX_SENTENCE_CHARS then 1
    else 1 + CoreLength(text[1..], n + 1)
  }

  predicate Finished(core: string) {
    core != "" && (Terminator(core[|core| - 1]) || |core| >= MAX_SENTENCE_CHARS)
  }

  /** Length of the maximal run of glue at the start of `text`. */
  function GlueLength(text: string): (k: nat)
    ensures k <= |text|
    ensures forall i :: 0 <= i < k ==> Glue(text[i])
    ensures k < |text| ==> !Glue(text[k])
  {
    if text != "" && Glue(text[0]) then 1 + GlueLength(text[1..]) else 0
  }

  /** Length of the first segment: a finished core takes the glue that follows it. */
  function SegmentLength(text: string): (n: nat)
    ensures n <= |text| && (text != "" ==> n > 0)
  {
    var k := CoreLength(text, 0);
    if Finished(text[..k]) then k + GlueLength(text[k..]) else |text|
  }

  function Segments(text: string): seq<string>
    decreases |text|
  {
    if text == "" then [] else [text[..SegmentLength(text)]] + Segments(text[SegmentLength(text)..])
  }

  // ---- the streaming state machine -----------------------------------------------------

  /** `buf` is the sentence in progress, `done` a finished one that may still gain glue. */
  datatype State = State(buf: string, done: Option<string>)

  const INITIAL := State("", None)

  /** One character: the next state and the raw segments that it completes. */
  function Push(st: State, ch: char): (State, seq<string>) {
    if st.done.Some? && Glue(ch) then (st.(done := Some(st.done.value + [ch])), [])
    else
      var buf := st.buf + [ch];
      (if Terminator(ch) || |buf| >= MAX_SENTENCE_CHARS then State("", Some(buf)) else State(buf, None),
       if st.done.Some? then [st.done.value] else [])
  }

  function Take(st: State, text: string): (State, seq<string>)
    decreases |text|
  {
    if text == "" then (st, [])
    else
      var (st1, raw1) := Push(st, text[0]);
      var (st2, raw2) := Take(st1, text[1..]);
      (st2, raw1 + raw2)
  }

  function Pending(st: State): seq<string> {
    (if st.done.Some? then [st.done.value] else []) + (if st.buf == "" then [] else [st.buf])
  }

  lemma {:induction false} TakeAppend(st: State, a: string, b: string)
    ensures Take(st, a + b).0 == Take(Take(st, a).0, b).0
    ensures Take(st, a + b).1 == Take(st, a).1 + Take(Take(st, a).0, b).1
    decreases |a|
  {
    if a == "" {
      assert a + b == b;
      assert [] + Take(st, b).1 == Take(st, b).1;
    } else {
      var (st0, raw0) := Push(st, a[0]);
      assert (a + b)[1..] == a[1..] + b;
      TakeAppend(st0, a[1..], b);
      var (st1, raw1) := Take(st0, a[1..]);
      Assoc(raw0, raw1, Take(st1, b).1);
    }
  }

  lemma TakeNext(st: State, delta: string, i: nat)
    requires i < |delta|
    ensures var (st1, raw1) := Take(st, delta[..i]);
      var (st2, raw2) := Push(st1, delta[i]);
      Take(st, delta[..i + 1]) == (st2, raw1 + raw2)
  {
    assert delta[..i + 1] == delta[..i] + [delta[i]];
    TakeAppend(st, delta[..i], [delta[i]]);
    var st1 := Take(st, delta[..i]).0;
    assert [delta[i]][1..] == "";
    assert Push(st1, delta[i]).1 + [] == Push(st1, delta[i]).1;
  }

  class Chunker {
    const isSpace: char -> bool
    var buf: string
    var done: Option<string>

    function View(): State
      reads this
    {
      State(buf, done)
    }

    constructor (isSpace: char -> bool)
      ensures View() == INITIAL && this.isSpace == isSpace
    {
      this.isSpace := isSpace;
      buf, done := "", None;
    }

    method Feed(delta: string) returns (sentences: seq<string>)
      modifies this
      ensures View() == Take(old(View()), delta).0
      ensures sentences == Spoken(isSpace, Take(old(View()), delta).1)
    {
      sentences := [];
      ghost var st0 := View();
      ghost var raw: seq<string> := [];
      for i := 0 to |delta|
        invariant sentences == Spoken(isSpace, raw)
        invariant Take(st0, delta[..i]) == (View(), raw)
      {
        TakeNext(st0, delta, i);
        SpokenAppend(isSpace, raw, Push(View(), delta[i]).1);
        raw := raw + Push(View(), delta[i]).1;
        sentences := Accept(delta[i], sentences);
      }
      assert delta[..|delta|] == delta;
    }

    /** The body of the loop of `feed`. */
    method Accept(ch: char, into: seq<string>) returns (sentences: seq<string>)
      modifies this
      ensures View() == Push(old(View()), ch).0
      ensures sentences == into + Spoken(isSpace, Push(old(View()), ch).1)
    {
      sentences := into;
      if done.Some? {
        if Glue(ch) {
          done := Some(done.value + [ch]);
          return;
        }
        sentences := Emit(sentences);
      }
      buf := buf + [ch];
      if Terminator(ch) || |buf| >= MAX_SENTENCE_CHARS {
        done := Some(buf);
        buf := "";
      }
    }

    method Flush() returns (sentences: seq<string>)
      modifies this
      ensures View() == INITIAL
      ensures sentences == Spoken(isSpace, Pending(old(View())))
    {
      ghost var first: seq<string> := if done.Some? then [done.value] else [];
      ghost var second: seq<string> := if buf == "" then [] else [buf];
      SpokenAppend(isSpace, first, second);
      sentences := Emit([]);
      var remainder := Strip(isSpace, buf);
      buf := "";
      if Speakable(remainder) {
        sentences := sentences + [remainder];
      }
    }

    /** `_emit`: the held sentence, if it says anything, joins `into`. */
    method Emit(into: seq<string>) returns (sentences: seq<string>)
      modifies this`done
      ensures done == None
      ensures sentences == into + Spoken(isSpace, if old(done).Some? then [old(done).value] else [])
    {
      if done.None? { return into; }
      var sentence := Strip(isSpace, done.value);
      done := None;
      if Speakable(sentence) { return into + [sentence]; }
      return into;
    }
  }

  // ---- refinement ----------------------------------------------------------------------

  predicate Unfinished(buf: string) {
    |buf| < MAX_SENTENCE_CHARS && forall i :: 0 <= i < |buf| ==> !Terminator(buf[i])
  }

  /** What every reachable state looks like. */
  predicate Consistent(st: State) {
    if st.done.Some? then st.buf == "" else Unfinished(st.buf)
  }

  /** The raw segments still to come from `st` when `text` and then the end of the stream follow. */
  function Remaining(st: State, text: string): seq<string> {
    match st.done
    case None => Segments(st.buf + text)
    case Some(d) => [d + text[..GlueLength(text)]] + Segments(text[GlueLength(text)..])
  }

  lemma {:induction false} CorePastUnfinished(buf: string, rest: string, n: nat)
    requires n + |buf| < MAX_SENTENCE_CHARS && forall i :: 0 <= i < |buf| ==> !Terminator(buf[i])
    ensures CoreLength(buf + rest, n) == |buf| + CoreLength(rest, n + |buf|)
    decreases |buf|
  {
    if buf == "" {
      assert buf + rest == rest;
    } else {
      assert (buf + rest)[1..] == buf[1..] + rest;
      CorePastUnfinished(buf[1..], rest, n + 1);
    }
  }

  lemma PendingIsRemaining(st: State)
    requires Consistent(st)
    ensures Pending(st) == Remaining(st, "")
  {
    match st.done
    case None =>
      CorePastUnfinished(st.buf, "", 0);
      assert st.buf + "" == st.buf;
      assert st.buf != "" ==> Segments(st.buf) == [st.buf];
    case Some(d) => assert d + "" == d;
  }

  /** A character that joins the held sentence. */
  lemma HeldGlue(held: string, ch: char, rest: string)
    requires Glue(ch)
    ensures Remaining(State("", Some(held)), [ch] + rest) == Remaining(State("", Some(held + [ch])), rest)
  {
    var text := [ch] + rest;
    var g := GlueLength(rest);
    assert text[1..] == rest;
    assert GlueLength(text) == 1 + g;
    assert held + text[..1 + g] == held + [ch] + rest[..g];
    assert text[1 + g..] == rest[g..];
  }

  /** A character that joins the sentence in progress. */
  lemma InProgress(buf: string, ch: char, rest: string)
    requires Unfinished(buf)
    ensures var st' := Push(State(buf, None), ch).0;
      Consistent(st') && Segments(buf + ([ch] + rest)) == Remaining(st', rest)
  {
    var core := buf + [ch];
    Assoc(buf, [ch], rest);
    if Terminator(ch) || |core| >= MAX_SENTENCE_CHARS {
      CorePastUnfinished(buf, [ch] + rest, 0);
      FinishedFirst(core, rest);
    }
  }

  lemma FinishedFirst(core: string, rest: string)
    requires Finished(core) && CoreLength(core + rest, 0) == |core|
    ensures Segments(core + rest) == [core + rest[..GlueLength(rest)]] + Segments(rest[GlueLength(rest)..])
  {
    FinishedLength(core, rest);
    Cut(core, rest, GlueLength(rest));
    FirstAndRest(core + rest, core + rest[..GlueLength(rest)], rest[GlueLength(rest)..]);
  }

  lemma FirstAndRest(text: string, first: string, rest: string)
    requires text != "" && first == text[..SegmentLength(text)] && rest == text[SegmentLength(text)..]
    ensures Segments(text) == [first] + Segments(rest)
  {
  }

  lemma FinishedLength(core: string, rest: string)
    requires Finished(core) && CoreLength(core + rest, 0) == |core|
    ensures SegmentLength(core + rest) == |core| + GlueLength(rest)
  {
    CutBetween(core, rest);
  }

  lemma PushKeepsRemaining(st: State, text: string)
    requires Consistent(st) && text != ""
    ensures Consistent(Push(st, text[0]).0)
    ensures Remaining(st, text) == Push(st, text[0]).1 + Remaining(Push(st, text[0]).0, text[1..])
  {
    var ch, rest := text[0], text[1..];
    assert text == [ch] + rest;
    if st.done.Some? && Glue(ch) {
      HeldGlue(st.done.value, ch, rest);
    } else {
      InProgress(st.buf, ch, rest);
      if st.done.Some? {
        assert "" + text == text;
        assert GlueLength(text) == 0;
        assert st.done.value + text[..0] == st.done.value && text[0..] == text;
      }
    }
  }

  lemma {:induction false} TakeKeepsRemaining(st: State, text: string)
    requires Consistent(st)
    ensures Consistent(Take(st, text).0)
    ensures Take(st, text).1 + Pending(Take(st, text).0) == Remaining(st, text)
    decreases |text|
  {
    if text == "" {
      PendingIsRemaining(st);
    } else {
      var (st1, raw1) := Push(st, text[0]);
      PushKeepsRemaining(st, text);
      TakeKeepsRemaining(st1, text[1..]);
      var (st2, raw2) := Take(st1, text[1..]);
      Assoc(raw1, raw2, Pending(st2));
    }
  }

  /** All `feed` results for a stream of deltas, in order, followed by that of `flush`. */
  function Stream(isSpace: char -> bool, st: State, deltas: seq<string>): seq<string>
    decreases |deltas|
  {
    if deltas == [] then Spoken(isSpace, Pending(st))
    else
      var (st', raw) := Take(st, deltas[0]);
      Spoken(isSpace, raw) + Stream(isSpace, st', deltas[1..])
  }

  lemma {:induction false} StreamFrom(isSpace: char -> bool, st: State, deltas: seq<string>)
    requires Consistent(st)
    ensures Stream(isSpace, st, deltas) == Spoken(isSpace, Remaining(st, Flatten(deltas)))
    decreases |deltas|
  {
    if deltas == [] {
      PendingIsRemaining(st);
    } else {
      var text := Flatten(deltas[1..]);
      var (st1, raw1) := Take(st, deltas[0]);
      TakeKeepsRemaining(st, deltas[0]);
      StreamFrom(isSpace, st1, deltas[1..]);
      TakeAppend(st, deltas[0], text);
      TakeKeepsRemaining(st, deltas[0] + text);
      TakeKeepsRemaining(st1, text);
      var (st2, raw2) := Take(st1, text);
      Assoc(raw1, raw2, Pending(st2));
      SpokenAppend(isSpace, raw1, raw2 + Pending(st2));
    }
  }

  /** Whatever the token boundaries, the stream speaks the segments of the whole text. */
  lemma StreamRefinesSplitter(isSpace: char -> bool, deltas: seq<string>)
    ensures Stream(isSpace, INITIAL, deltas) == Spoken(isSpace, Segments(Flatten(deltas)))
  {
    StreamFrom(isSpace, INITIAL, deltas);
    assert "" + Flatten(deltas) == Flatten(deltas);
  }

  // ---- nothing speakable is lost, and segments are bounded -----------------------------

  lemma {:induction false} SegmentsPartition(text: string)
    ensures Flatten(Segments(text)) == text
    decreases |text|
  {
    if text != "" {
      var n := SegmentLength(text);
      SegmentsPartition(text[n..]);
      assert text == text[..n] + text[n..];
    }
  }

  /** The characters that carry speech. */
  function Content(isSpace: char -> bool, s: string): string {
    if s == "" then "" else Heard(isSpace, s[0]) + Content(isSpace, s[1..])
  }

  function Heard(isSpace: char -> bool, ch: char): string {
    if ContentFree(ch) || isSpace(ch) then "" else [ch]
  }

  lemma {:induction false} ContentAppend(isSpace: char -> bool, a: string, b: string)
    ensures Content(isSpace, a + b) == Content(isSpace, a) + Content(isSpace, b)
  {
    if a == "" {
      assert a + b == b;
    } else {
      ContentAppend(isSpace, a[1..], b);
      assert (a + b)[1..] == a[1..] + b;
      Assoc(Heard(isSpace, a[0]), Content(isSpace, a[1..]), Content(isSpace, b));
    }
  }

  lemma {:induction false} ContentOfStripLeft(isSpace: char -> bool, s: string)
    ensures Content(isSpace, StripLeft(isSpace, s)) == Content(isSpace, s)
  {
    if s != "" {
      ContentOfStripLeft(isSpace, s[1..]);
    }
  }

  lemma {:induction false} ContentOfStripRight(isSpace: char -> bool, s: string)
    ensures Content(isSpace, StripRight(isSpace, s)) == Content(isSpace, s)
    decreases |s|
  {
    if s != "" && isSpace(s[|s| - 1]) {
      var front, last := s[..|s| - 1], s[|s| - 1];
      ContentOfStripRight(isSpace, front);
      assert s == front + [last];
      ContentAppend(isSpace, front, [last]);
      assert Content(isSpace, [last]) == "";
    }
  }

  lemma {:induction false} UnspeakableHasNoContent(isSpace: char -> bool, s: string)
    requires !Speakable(s)
    ensures Content(isSpace, s) == ""
  {
    if s != "" {
      UnspeakableHasNoContent(isSpace, s[1..]);
    }
  }

  lemma {:induction false} SpokenKeepsContent(isSpace: char -> bool, raw: seq<string>)
    ensures Content(isSpace, Flatten(Spoken(isSpace, raw))) == Content(isSpace, Flatten(raw))
  {
    if raw != [] {
      var sentence := Strip(isSpace, raw[0]);
      var rest := Spoken(isSpace, raw[1..]);
      SpokenKeepsContent(isSpace, raw[1..]);
      ContentOfStripLeft(isSpace, raw[0]);
      ContentOfStripRight(isSpace, StripLeft(isSpace, raw[0]));
      ContentAppend(isSpace, raw[0], Flatten(raw[1..]));
      ContentAppend(isSpace, sentence, Flatten(rest));
      if Speakable(sentence) {
        assert ([sentence] + rest)[1..] == rest;
      } else {
        UnspeakableHasNoContent(isSpace, sentence);
        assert [] + rest == rest;
      }
    }
  }

  /** The speech-carrying characters of the emitted sentences are those of the input, in order. */
  lemma NothingSpeakableLost(isSpace: char -> bool, deltas: seq<string>)
    ensures Content(isSpace, Flatten(Stream(isSpace, INITIAL, deltas))) == Content(isSpace, Flatten(deltas))
  {
    StreamRefinesSplitter(isSpace, deltas);
    SegmentsPartition(Flatten(deltas));
    SpokenKeepsContent(isSpace, Segments(Flatten(deltas)));
  }

  /** A core of at most 200 characters with no terminator before its last one, then nothing but glue. */
  predicate Shaped(segment: string, k: nat) {
    && 0 < k <= |segment| && k <= MAX_SENTENCE_CHARS
    && (forall i :: 0 <= i < k - 1 ==> !Terminator(segment[i]))
    && (forall i :: k <= i < |segment| ==> Glue(segment[i]))
  }

  ghost predicate Bounded(segment: string) {
    exists k: nat :: Shaped(segment, k)
  }

  ghost predicate BoundedAndFinished(segment: string) {
    exists k: nat :: Shaped(segment, k) && Finished(segment[..k])
  }

  predicate StartsWithGlue(segment: string) {
    segment != "" && Glue(segment[0])
  }

  lemma {:induction false} CoreBound(text: string, n: nat)
    requires text != "" && n < MAX_SENTENCE_CHARS
    ensures var k := CoreLength(text, n);
      && n + k <= MAX_SENTENCE_CHARS
      && (forall i :: 0 <= i < k - 1 ==> !Terminator(text[i]))
      && (k == |text| || Terminator(text[k - 1]) || n + k == MAX_SENTENCE_CHARS)
    decreases |text|
  {
    if text[1..] != "" && !Terminator(text[0]) && n + 1 < MAX_SENTENCE_CHARS {
      CoreBound(text[1..], n + 1);
      var k := CoreLength(text, n);
      assert forall i :: 0 < i < |text| ==> text[i] == text[1..][i - 1];
    }
  }

  /** Every raw segment is bounded, all but the last are finished, and only the first may start with glue. */
  ghost predicate WellCut(raw: seq<string>) {
    && (forall i :: 0 <= i < |raw| ==> Bounded(raw[i]))
    && (forall i :: 0 <= i < |raw| - 1 ==> BoundedAndFinished(raw[i]))
    && (forall i :: 0 < i < |raw| ==> !StartsWithGlue(raw[i]))
  }

  lemma WellCutFrom(first: string, rest: seq<string>)
    requires Bounded(first) && WellCut(rest)
    requires rest != [] ==> BoundedAndFinished(first) && !StartsWithGlue(rest[0])
    ensures WellCut([first] + rest)
  {
    var raw := [first] + rest;
    assert forall i :: 0 < i < |raw| ==> raw[i] == rest[i - 1];
  }

  lemma {:induction false} SegmentsShaped(text: string)
    ensures WellCut(Segments(text))
    decreases |text|
  {
    if text != "" {
      var n := SegmentLength(text);
      FirstSegment(text);
      FirstCharacter(text[n..]);
      SegmentsShaped(text[n..]);
      WellCutFrom(text[..n], Segments(text[n..]));
    }
  }

  lemma FirstCharacter(text: string)
    ensures Segments(text) == [] <==> text == ""
    ensures text != "" ==> StartsWithGlue(Segments(text)[0]) == StartsWithGlue(text)
  {
    if text != "" {
      var first := Segments(text)[0];
      assert first != "" && first[0] == text[0];
    }
  }

  lemma FirstSegment(text: string)
    requires text != ""
    ensures var n := SegmentLength(text);
      && Bounded(text[..n])
      && (n < |text| ==> BoundedAndFinished(text[..n]) && !StartsWithGlue(text[n..]))
  {
    CoreBound(text, 0);
    var k, n := CoreLength(text, 0), SegmentLength(text);
    var first, after := text[..n], text[k..];
    assert forall i :: k <= i < n ==> text[i] == after[i - k];
    assert first[..k] == text[..k];
    assert Shaped(first, k);
    if n < |text| {
      assert text[n..][0] == after[GlueLength(after)];
    }
  }

  // ---- what is emitted of a segment ----------------------------------------------------

  /** The characters that end a sentence: ideographic full stop, the wide and the plain exclamation and question marks,
      ellipsis, newline. */
  lemma TerminatorsAre(ch: char)
    ensures Terminator(ch) <==> ch as int in {0x3002, 0xFF01, 0xFF1F, 0x21, 0x3F, 0x2026, 0x0A}
  {
  }

  /** The characters that glue on are these, and the closing brackets and quotes. */
  lemma GlueIs(ch: char)
    ensures Glue(ch) <==>
      ch as int in {0x3002, 0xFF01, 0xFF1F, 0x21, 0x3F, 0x2026, 0x0A,
                    0x300D, 0x300F, 0xFF09, 0x29, 0x3011, 0xFF1E, 0x3E, 0x22, 0x27, 0x2019, 0x201D}
  {
  }

  /** The characters that say nothing are these, the opening brackets and quotes, and space, tab and wide space. */
  lemma ContentFreeIs(ch: char)
    ensures ContentFree(ch) <==>
      Glue(ch) || ch as int in {0x300C, 0x300E, 0xFF08, 0x28, 0x3010, 0xFF1C, 0x3C, 0x2018, 0x201C, 0x20, 0x09, 0x3000}
  {
  }

  /** `sentence` is `segment` without the white space at its ends. */
  ghost predicate Trims(isSpace: char -> bool, segment: string, sentence: string) {
    exists i, j | 0 <= i <= j <= |segment| ::
      && sentence == segment[i..j]
      && (forall k :: 0 <= k < i || j <= k < |segment| ==> isSpace(segment[k]))
      && (i < j ==> !isSpace(segment[i]) && !isSpace(segment[j - 1]))
      && (i == j ==> forall k :: 0 <= k < |segment| ==> isSpace(segment[k]))
  }

  lemma {:induction false} StripsLeft(isSpace: char -> bool, s: string) returns (i: nat)
    ensures i <= |s| && StripLeft(isSpace, s) == s[i..]
    ensures (forall k :: 0 <= k < i ==> isSpace(s[k])) && (i < |s| ==> !isSpace(s[i]))
  {
    if s != "" && isSpace(s[0]) {
      var m := StripsLeft(isSpace, s[1..]);
      i := m + 1;
      assert s[1..][m..] == s[i..];
    } else {
      i := 0;
    }
  }

  lemma {:induction false} StripsRight(isSpace: char -> bool, s: string) returns (j: nat)
    ensures j <= |s| && StripRight(isSpace, s) == s[..j]
    ensures (forall k :: j <= k < |s| ==> isSpace(s[k])) && (j > 0 ==> !isSpace(s[j - 1]))
    decreases |s|
  {
    if s != "" && isSpace(s[|s| - 1]) {
      j := StripsRight(isSpace, s[..|s| - 1]);
      assert s[..|s| - 1][..j] == s[..j];
    } else {
      j := |s|;
    }
  }

  lemma StripTrims(isSpace: char -> bool, s: string)
    ensures Trims(isSpace, s, Strip(isSpace, s))
  {
    var i := StripsLeft(isSpace, s);
    var j := StripsRight(isSpace, s[i..]);
    assert s[i..][..j] == s[i..i + j];
    assert forall k :: i + j <= k < |s| ==> s[k] == s[i..][k - i];
    if j > 0 {
      assert s[i..][j - 1] == s[i + j - 1];
      assert s[i] == s[i..][0];
    }
  }

  ghost predicate SaysSomething(sentence: string) {
    exists k :: 0 <= k < |sentence| && !ContentFree(sentence[k])
  }

  lemma {:induction false} SpeakableSaysSomething(sentence: string)
    ensures Speakable(sentence) <==> SaysSomething(sentence)
  {
    if sentence != "" {
      SpeakableSaysSomething(sentence[1..]);
      if SaysSomething(sentence) {
        var k :| 0 <= k < |sentence| && !ContentFree(sentence[k]);
        assert k > 0 ==> sentence[1..][k - 1] == sentence[k];
      }
      if SaysSomething(sentence[1..]) {
        var k :| 0 <= k < |sentence[1..]| && !ContentFree(sentence[1..][k]);
        assert sentence[k + 1] == sentence[1..][k];
      }
    }
  }

  /** One raw segment is emitted without the white space at its ends if anything in it can be spoken, and otherwise
      dropped. */
  lemma SegmentIsSpoken(isSpace: char -> bool, raw: seq<string>, i: nat) returns (sentence: string)
    requires i < |raw|
    ensures Trims(isSpace, raw[i], sentence)
    ensures Spoken(isSpace, raw[..i + 1])
         == Spoken(isSpace, raw[..i]) + if SaysSomething(sentence) then [sentence] else []
  {
    sentence := Strip(isSpace, raw[i]);
    StripTrims(isSpace, raw[i]);
    SpeakableSaysSomething(sentence);
    assert raw[..i + 1] == raw[..i] + [raw[i]];
    SpokenAppend(isSpace, raw[..i], [raw[i]]);
    OneSpoken(isSpace, raw[i]);
  }

  lemma OneSpoken(isSpace: char -> bool, segment: string)
    ensures Spoken(isSpace, [segment]) == Utterance(Strip(isSpace, segment))
  {
    assert [segment][1..] == [];
    assert Utterance(Strip(isSpace, segment)) + [] == Utterance(Strip(isSpace, segment));
  }

  /** Says something, and has no white space at its ends. */
  ghost predicate FitToSpeak(isSpace: char -> bool, sentence: string) {
    SaysSomething(sentence) && !isSpace(sentence[0]) && !isSpace(sentence[|sentence| - 1])
  }

  lemma UtteranceIsFit(isSpace: char -> bool, segment: string)
    ensures forall s :: s in Utterance(Strip(isSpace, segment)) ==> FitToSpeak(isSpace, s)
  {
    var sentence := Strip(isSpace, segment);
    SpeakableSaysSomething(sentence);
    if Speakable(sentence) {
      StripTrims(isSpace, segment);
    }
  }

  lemma {:induction false} EmittedFrom(isSpace: char -> bool, raw: seq<string>)
    ensures forall s :: s in Spoken(isSpace, raw) ==> FitToSpeak(isSpace, s)
  {
    if raw != [] {
      EmittedFrom(isSpace, raw[1..]);
      UtteranceIsFit(isSpace, raw[0]);
    }
  }

  /** Whatever the deltas, every emitted sentence says something and has no white space at its ends. */
  lemma EmittedIsTrimmedAndSpeakable(isSpace: char -> bool, deltas: seq<string>)
    ensures forall s :: s in Stream(isSpace, INITIAL, deltas) ==> FitToSpeak(isSpace, s)
  {
    StreamRefinesSplitter(isSpace, deltas);
    EmittedFrom(isSpace, Segments(Flatten(deltas)));
  }

  /** The bound in numbers: no raw segment has more than 200 characters before its glue, and one that another follows
      ends its core at a terminator or at the 200th character. */
  lemma CoresAreBounded(text: string, i: nat) returns (k: nat)
    requires i < |Segments(text)|
    ensures var segment := Segments(text)[i];
      && 0 < k <= 200 && k <= |segment|
      && (forall m :: 0 <= m < k - 1 ==> !Terminator(segment[m]))
      && (forall m :: k <= m < |segment| ==> Glue(segment[m]))
      && (i + 1 < |Segments(text)| ==> Terminator(segment[k - 1]) || k == 200)
  {
    SegmentsShaped(text);
    var segment := Segments(text)[i];
    if i + 1 < |Segments(text)| {
      k :| Shaped(segment, k) && Finished(segment[..k]);
    } else {
      k :| Shaped(segment, k);
    }
  }
}
