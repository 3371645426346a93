/** Speech of one turn: sentences in, one framed PCM stream out. */
module TurnSpeech {
  import opened Prelude
  import BinFrame
  import C = SentenceChunker
  import T = TtsClient

  const PCM_FRAME_BYTES := 65_536

  /** What a turn broadcasts: `audio_meta` envelopes and encoded binary frames. */
  datatype Out = Meta(stream: nat, sampleRate: nat, last: bool) | Bin(frame: bytes)

  datatype Fault = Synthesis(error: T.SynthError) | Framing(encoding: BinFrame.EncodeError)

  /** The worker's own state, with everything broadcast so far. */
  datatype Voice = Voice(trace: seq<Out>, seqNo: nat, isOpen: bool)

  const SILENT := Voice([], 0, false)

  /** `pcm` cut into frames' worth, in order. */
  function Slices(pcm: bytes): seq<bytes>
    decreases |pcm|
  {
    if pcm == [] then []
    else if |pcm| <= PCM_FRAME_BYTES then [pcm]
    else [pcm[..PCM_FRAME_BYTES]] + Slices(pcm[PCM_FRAME_BYTES..])
  }

  function SendSlices(sid: nat, v: Voice, payloads: seq<bytes>): (Voice, Option<Fault>)
    decreases |payloads|
  {
    if payloads == [] then (v, None)
    else
      match BinFrame.Encode(BinFrame.KIND_TTS_PCM, sid, v.seqNo, payloads[0])
      case Err(e) => (v, Some(Framing(e)))
      case Ok(frame) => SendSlices(sid, v.(trace := v.trace + [Bin(frame)], seqNo := v.seqNo + 1), payloads[1..])
  }

  function Open(sid: nat, rate: nat, v: Voice): Voice {
    if v.isOpen then v else v.(trace := v.trace + [Meta(sid, rate, false)], isOpen := true)
  }

  function SendPieces(sid: nat, rate: nat, v: Voice, pieces: seq<bytes>): (Voice, Option<Fault>)
    decreases |pieces|
  {
    if pieces == [] then (v, None)
    else
      var (v', fault) := SendSlices(sid, Open(sid, rate, v), Slices(pieces[0]));
      if fault.Some? then (v', fault) else SendPieces(sid, rate, v', pieces[1..])
  }

  /** One sentence: its pieces as they are yielded, then whatever synthesis raises at the end. */
  function SpeakOne(sid: nat, rate: nat, v: Voice, text: string, reply: T.Reply): (Voice, Option<Fault>) {
    var (pieces, raised) := T.Synth(text, true, reply);
    var (v', fault) := SendPieces(sid, rate, v, pieces);
    (v', if fault.Some? then fault else if raised.Some? then Some(Synthesis(raised.value)) else None)
  }

  /** Sentences in turn, up to the first fault; `replies[i]` answers `sentences[i]`. */
  function SpeakAll(sid: nat, rate: nat, v: Voice, sentences: seq<string>, replies: seq<T.Reply>)
    : (Voice, Option<Fault>)
    requires |replies| == |sentences|
    decreases |sentences|
  {
    if sentences == [] then (v, None)
    else
      var (v', fault) := SpeakOne(sid, rate, v, sentences[0], replies[0]);
      if fault.Some? then (v', fault) else SpeakAll(sid, rate, v', sentences[1..], replies[1..])
  }

  /** The worker from its first sentence to the end of the queue, where it closes what it opened. */
  function Drain(sid: nat, rate: nat, v: Voice, sentences: seq<string>, replies: seq<T.Reply>): (Voice, Option<Fault>)
    requires |replies| == |sentences|
  {
    var (v', fault) := SpeakAll(sid, rate, v, sentences, replies);
    (if fault.None? && v'.isOpen then v'.(trace := v'.trace + [Meta(sid, rate, true)]) else v', fault)
  }

  lemma {:induction false} SpeakAllAppend(sid: nat, rate: nat, v: Voice, a: seq<string>, ra: seq<T.Reply>,
                                          b: seq<string>, rb: seq<T.Reply>)
    requires |ra| == |a| && |rb| == |b|
    ensures var (v', fault) := SpeakAll(sid, rate, v, a, ra);
      SpeakAll(sid, rate, v, a + b, ra + rb)
      == if fault.Some? then (v', fault) else SpeakAll(sid, rate, v', b, rb)
    decreases |a|
  {
    if a == [] {
      assert a + b == b && ra + rb == rb;
    } else {
      assert (a + b)[1..] == a[1..] + b && (ra + rb)[1..] == ra[1..] + rb;
      SpeakAllAppend(sid, rate, SpeakOne(sid, rate, v, a[0], ra[0]).0, a[1..], ra[1..], b, rb);
    }
  }

  // ---- the object ----------------------------------------------------------------------

  class TurnSpeech {
    const sid: nat
    const sampleRate: nat
    const chunker: C.Chunker
    var queue: seq<string>
    var voice: Voice
    var fault: Option<Fault>     // what ended the worker before its time
    ghost var text: string       // all deltas fed so far
    ghost var taken: seq<string> // the sentences the worker has taken, with the replies they got
    ghost var used: seq<T.Reply>

    ghost predicate Valid()
      reads this, chunker
    {
      Queued() && Spoke()
    }

    /** What was fed is with the chunker, in the queue, or taken. */
    ghost predicate Queued()
      reads this`queue, this`text, this`taken, chunker
    {
      var (st, raw) := C.Take(C.INITIAL, text);
      chunker.View() == st && taken + queue == C.Spoken(chunker.isSpace, raw)
    }

    /** The worker has spoken what it has taken. */
    ghost predicate Spoke()
      reads this`voice, this`fault, this`taken, this`used
    {
      |used| == |taken| && (voice, fault) == SpeakAll(sid, sampleRate, SILENT, taken, used)
    }

    constructor (sid: nat, sampleRate: nat, isSpace: char -> bool)
      ensures Valid() && fresh(chunker) && chunker.isSpace == isSpace
      ensures text == "" && taken == [] && this.sid == sid && this.sampleRate == sampleRate
    {
      this.sid, this.sampleRate := sid, sampleRate;
      chunker := new C.Chunker(isSpace);
      queue, voice, fault, text, taken, used := [], SILENT, None, "", [], [];
    }

    method Feed(delta: string)
      requires Valid()
      modifies this`queue, this`text, chunker
      ensures Valid() && text == old(text) + delta
    {
      FeedQueue(delta);
      assert Spoke();
    }

    method FeedQueue(delta: string)
      requires Queued()
      modifies this`queue, this`text, chunker
      ensures Queued() && text == old(text) + delta
    {
      SpokenSoFar(chunker.isSpace, text, delta);
      var sentences := chunker.Feed(delta);
      Assoc(taken, queue, sentences);
      text := text + delta;
      Enqueue(sentences);
    }

    method Enqueue(sentences: seq<string>)
      modifies this`queue
      ensures queue == old(queue) + sentences
    {
      for i := 0 to |sentences|
        modifies this`queue
        invariant queue == old(queue) + sentences[..i]
      {
        queue := queue + [sentences[i]];
      }
      assert sentences[..|sentences|] == sentences;
    }

    /** One turn of the worker, at any time while it lives: the next sentence, with the reply it gets. */
    method WorkOne(reply: T.Reply)
      requires Valid() && queue != [] && fault.None?
      modifies this`queue, this`voice, this`fault, this`taken, this`used
      ensures Valid() && text == old(text)
      ensures taken == old(taken) + [old(queue)[0]] && used == old(used) + [reply]
    {
      var sentence := queue[0];
      Shift(taken, queue);
      OneMore(sid, sampleRate, taken, used, sentence, reply);
      queue := queue[1..];
      fault := Speak(sentence, reply);
      taken := taken + [sentence];
      used := used + [reply];
    }

    /** `finish`: the rest of the text is queued, the worker drains the queue, and its fault is raised here.
        However far the worker had come before, the outcome is that of draining all sentences of the text. */
    method Finish(replies: seq<T.Reply>)
      requires Valid()
      requires |used| + |replies| == |C.Spoken(chunker.isSpace, C.Segments(text))|
      modifies this, chunker
      ensures (voice, fault) == Drain(sid, sampleRate, SILENT, C.Spoken(chunker.isSpace, C.Segments(old(text))),
                                      old(used) + replies)
      ensures chunker.View() == C.INITIAL
    {
      SpokenInAll(chunker.isSpace, text);
      var sentences := chunker.Flush();
      Assoc(taken, queue, sentences);
      Enqueue(sentences);
      SpeakAllAppend(sid, sampleRate, SILENT, taken, used, queue, replies);
      if fault.None? {
        Run(replies);
      }
    }

    /** What is left of the worker's loop once the end of the text is queued. */
    method Run(replies: seq<T.Reply>)
      requires |replies| == |queue| && fault.None?
      modifies this`queue, this`voice, this`fault
      ensures (voice, fault) == Drain(sid, sampleRate, old(voice), old(queue), replies)
    {
      ghost var goal := Drain(sid, sampleRate, voice, queue, replies);
      var i := 0;
      while queue != []
        invariant fault.None? && i + |queue| == |replies|
        invariant Drain(sid, sampleRate, voice, queue, replies[i..]) == goal
        decreases |queue|
      {
        var sentence := queue[0];
        queue := queue[1..];
        assert replies[i..][0] == replies[i] && replies[i..][1..] == replies[i + 1..];
        fault := Speak(sentence, replies[i]);
        if fault.Some? { return; }
        i := i + 1;
      }
      if voice.isOpen {
        voice := voice.(trace := voice.trace + [Meta(sid, sampleRate, true)]);
      }
    }

    method Speak(sentence: string, reply: T.Reply) returns (fault: Option<Fault>)
      modifies this`voice
      ensures (voice, fault) == SpeakOne(sid, sampleRate, old(voice), sentence, reply)
    {
      var pieces, raised := T.SynthStream(sentence, true, reply);
      ghost var goal := SendPieces(sid, sampleRate, voice, pieces);
      for i := 0 to |pieces|
        invariant SendPieces(sid, sampleRate, voice, pieces[i..]) == goal
      {
        assert pieces[i..][0] == pieces[i] && pieces[i..][1..] == pieces[i + 1..];
        if !voice.isOpen {
          voice := voice.(trace := voice.trace + [Meta(sid, sampleRate, false)], isOpen := true);
        }
        fault := SendPiece(pieces[i]);
        if fault.Some? { return; }
      }
      return if raised.Some? then Some(Synthesis(raised.value)) else None;
    }

    method SendPiece(pcm: bytes) returns (fault: Option<Fault>)
      modifies this`voice
      ensures (voice, fault) == SendSlices(sid, old(voice), Slices(pcm))
    {
      var off := 0;
      while off < |pcm|
        invariant 0 <= off && (off <= |pcm| || off < |pcm| + PCM_FRAME_BYTES)
        invariant SendSlices(sid, old(voice), Slices(pcm))
               == SendSlices(sid, voice, Slices(pcm[if off <= |pcm| then off else |pcm|..]))
        decreases |pcm| - off
      {
        var end := if off + PCM_FRAME_BYTES <= |pcm| then off + PCM_FRAME_BYTES else |pcm|;
        var rest := pcm[off..];
        assert Slices(rest)[0] == pcm[off..end];
        assert Slices(rest)[1..] == Slices(pcm[end..]) by {
          if |rest| > PCM_FRAME_BYTES { assert rest[PCM_FRAME_BYTES..] == pcm[end..]; }
        }
        var frame := BinFrame.Encode(BinFrame.KIND_TTS_PCM, sid, voice.seqNo, pcm[off..end]);
        if frame.Err? { return Some(Framing(frame.error)); }
        voice := voice.(trace := voice.trace + [Bin(frame.value)], seqNo := voice.seqNo + 1);
        off := off + PCM_FRAME_BYTES;
      }
      return None;
    }
  }

  lemma SpokenSoFar(isSpace: char -> bool, text: string, delta: string)
    ensures var (st, raw) := C.Take(C.INITIAL, text);
      var (st', raw') := C.Take(st, delta);
      && C.Take(C.INITIAL, text + delta) == (st', raw + raw')
      && C.Spoken(isSpace, raw + raw') == C.Spoken(isSpace, raw) + C.Spoken(isSpace, raw')
  {
    var (st, raw) := C.Take(C.INITIAL, text);
    C.TakeAppend(C.INITIAL, text, delta);
    C.SpokenAppend(isSpace, raw, C.Take(st, delta).1);
  }

  lemma SpokenInAll(isSpace: char -> bool, text: string)
    ensures var (st, raw) := C.Take(C.INITIAL, text);
      C.Spoken(isSpace, raw) + C.Spoken(isSpace, C.Pending(st)) == C.Spoken(isSpace, C.Segments(text))
  {
    var (st, raw) := C.Take(C.INITIAL, text);
    C.TakeKeepsRemaining(C.INITIAL, text);
    assert "" + text == text;
    C.SpokenAppend(isSpace, raw, C.Pending(st));
  }

  lemma OneMore(sid: nat, rate: nat, taken: seq<string>, used: seq<T.Reply>, sentence: string, reply: T.Reply)
    requires |used| == |taken|
    ensures var (v, fault) := SpeakAll(sid, rate, SILENT, taken, used);
      SpeakAll(sid, rate, SILENT, taken + [sentence], used + [reply])
      == if fault.Some? then (v, fault) else SpeakOne(sid, rate, v, sentence, reply)
  {
    SpeakAllAppend(sid, rate, SILENT, taken, used, [sentence], [reply]);
  }

  // ---- end-to-end identity -------------------------------------------------------------

  predicate GoodPayload(p: bytes) {
    p != [] && |p| % 2 == 0 && |p| <= PCM_FRAME_BYTES
  }

  lemma {:induction false} SlicesAreGood(pcm: bytes)
    requires |pcm| % 2 == 0
    ensures forall p :: p in Slices(pcm) ==> GoodPayload(p)
    ensures Flatten(Slices(pcm)) == pcm
    decreases |pcm|
  {
    if |pcm| > PCM_FRAME_BYTES {
      SlicesAreGood(pcm[PCM_FRAME_BYTES..]);
      assert pcm == pcm[..PCM_FRAME_BYTES] + pcm[PCM_FRAME_BYTES..];
    } else if pcm != [] {
      assert Flatten([pcm]) == pcm + Flatten([]);
    }
  }

  /** All slices of a piece but the last have exactly 65536 bytes. */
  lemma {:induction false} SlicesAreFull(pcm: bytes, i: nat)
    requires i < |Slices(pcm)|
    ensures |Slices(pcm)[i]| == (if i + 1 < |Slices(pcm)| then 65536 else |pcm| - 65536 * i)
    ensures 0 < |Slices(pcm)[i]| <= 65536
    decreases |pcm|
  {
    if |pcm| > PCM_FRAME_BYTES && i > 0 {
      SlicesAreFull(pcm[PCM_FRAME_BYTES..], i - 1);
    }
  }

  /** What a listener reads in the bytes of a frame of the stream: version 1, kind 1, the stream id and the number. */
  lemma FrameOnTheWire(out: Out, sid: nat, seqNo: nat, payload: bytes)
    requires IsFrame(out, sid, seqNo, payload)
    ensures var w := out.frame;
      && |w| == 18 + |payload| && w[0] == 1 && w[1] == 1 && w[18..] == payload
      && BinFrame.U64At(w, 2) == sid && BinFrame.U32At(w, 10) == seqNo
  {
    BinFrame.Layout(out.frame);
  }

  /** All payloads cut from `pieces`. */
  function Payloads(pieces: seq<bytes>): seq<bytes> {
    if pieces == [] then [] else Slices(pieces[0]) + Payloads(pieces[1..])
  }

  lemma {:induction false} PayloadsAppend(a: seq<bytes>, b: seq<bytes>)
    ensures Payloads(a + b) == Payloads(a) + Payloads(b)
  {
    if a == [] {
      assert a + b == b;
    } else {
      assert (a + b)[1..] == a[1..] + b;
      PayloadsAppend(a[1..], b);
      assert Slices(a[0]) + (Payloads(a[1..]) + Payloads(b)) == Slices(a[0]) + Payloads(a[1..]) + Payloads(b);
    }
  }

  lemma {:induction false} PayloadsAreGood(pieces: seq<bytes>)
    requires forall p :: p in pieces ==> T.SampleAligned(p)
    ensures forall p :: p in Payloads(pieces) ==> GoodPayload(p)
    ensures Flatten(Payloads(pieces)) == Flatten(pieces)
    ensures |Payloads(pieces)| >= |pieces|
  {
    if pieces != [] {
      assert T.SampleAligned(pieces[0]);
      SlicesAreGood(pieces[0]);
      PayloadsAreGood(pieces[1..]);
      FlattenAppend(Slices(pieces[0]), Payloads(pieces[1..]));
      assert Slices(pieces[0]) != [];
    }
  }

  /** What a listener has decoded from `trace` so far: the opening meta once there is audio, then one frame
      for each payload, numbered from 0. */
  predicate Carries(sid: nat, rate: nat, v: Voice, payloads: seq<bytes>) {
    && v.seqNo == |payloads|
    && (v.isOpen <==> payloads != [])
    && |v.trace| == (if v.isOpen then |payloads| + 1 else 0)
    && (v.isOpen ==> v.trace[0] == Meta(sid, rate, false))
    && forall i :: 0 <= i < |payloads| ==> IsFrame(v.trace[i + 1], sid, i, payloads[i])
  }

  predicate IsFrame(out: Out, sid: nat, seqNo: nat, payload: bytes) {
    out.Bin? && BinFrame.Decode(out.frame) == Ok(BinFrame.Frame(BinFrame.KIND_TTS_PCM, sid, seqNo, payload))
  }

  /** Right after the opening meta, before the first frame. */
  predicate JustOpened(sid: nat, rate: nat, v: Voice) {
    v == Voice([Meta(sid, rate, false)], 0, true)
  }

  /** `payloads` are sent up to the first that the frame counter cannot number: the first `k`. */
  lemma {:induction false} SlicesCarried(sid: nat, rate: nat, v: Voice, before: seq<bytes>, payloads: seq<bytes>)
    returns (k: nat)
    requires sid <= BinFrame.U64_MAX
    requires Carries(sid, rate, v, before) || (JustOpened(sid, rate, v) && before == [])
    requires v.isOpen
    requires forall p :: p in payloads ==> GoodPayload(p)
    ensures var (v', fault) := SendSlices(sid, v, payloads);
      && k <= |payloads| && (fault == None <==> k == |payloads|)
      && (fault == None <==> payloads == [] || |before| + |payloads| <= BinFrame.U32_MAX + 1)
      && (payloads != [] ==> Carries(sid, rate, v', before + payloads[..k]))
    decreases |payloads|
  {
    k := 0;
    if payloads != [] {
      var p := payloads[0];
      assert GoodPayload(p);
      var f := BinFrame.Frame(BinFrame.KIND_TTS_PCM, sid, v.seqNo, p);
      BinFrame.DecodeEncode(f);
      if v.seqNo <= BinFrame.U32_MAX {
        var wire := BinFrame.Encode(f.kind, f.streamId, f.seqNo, f.payload).value;
        var v' := v.(trace := v.trace + [Bin(wire)], seqNo := v.seqNo + 1);
        FrameCarried(sid, rate, v, before, p, wire);
        k := SlicesCarried(sid, rate, v', before + [p], payloads[1..]);
        NextSent(before, payloads, k);
        k := k + 1;
      } else {
        assert before + payloads[..0] == before;
      }
    }
  }

  lemma FrameCarried(sid: nat, rate: nat, v: Voice, before: seq<bytes>, p: bytes, wire: bytes)
    requires Carries(sid, rate, v, before) || (JustOpened(sid, rate, v) && before == [])
    requires v.isOpen && IsFrame(Bin(wire), sid, v.seqNo, p)
    ensures Carries(sid, rate, v.(trace := v.trace + [Bin(wire)], seqNo := v.seqNo + 1), before + [p])
  {
  }

  lemma NextSent(before: seq<bytes>, payloads: seq<bytes>, k: nat)
    requires payloads != [] && k <= |payloads[1..]|
    ensures before + [payloads[0]] + payloads[1..][..k] == before + payloads[..k + 1]
    ensures k == 0 ==> before + [payloads[0]] == before + payloads[..k + 1]
  {
    assert payloads[..k + 1] == [payloads[0]] + payloads[1..][..k];
  }

  /** Of the payloads of `pieces`, `sent` go out; all of them, if there is no fault. */
  lemma {:induction false} PiecesCarried(sid: nat, rate: nat, v: Voice, before: seq<bytes>, pieces: seq<bytes>)
    returns (sent: seq<bytes>)
    requires sid <= BinFrame.U64_MAX && Carries(sid, rate, v, before)
    requires forall p :: p in pieces ==> T.SampleAligned(p)
    ensures var (v', fault) := SendPieces(sid, rate, v, pieces);
      && sent <= Payloads(pieces) && (fault == None ==> sent == Payloads(pieces))
      && (fault == None <==> pieces == [] || |before| + |Payloads(pieces)| <= BinFrame.U32_MAX + 1)
      && Carries(sid, rate, v', before + sent)
    decreases |pieces|
  {
    if pieces == [] {
      assert before + [] == before;
      sent := [];
    } else {
      assert T.SampleAligned(pieces[0]);
      sent := PieceCarried(sid, rate, v, before, pieces[0]);
      var (v', fault) := SendSlices(sid, Open(sid, rate, v), Slices(pieces[0]));
      PayloadsAreGood(pieces[1..]);
      if fault.None? {
        var more := PiecesCarried(sid, rate, v', before + sent, pieces[1..]);
        Assoc(before, sent, more);
        sent := sent + more;
      }
    }
  }

  lemma PieceCarried(sid: nat, rate: nat, v: Voice, before: seq<bytes>, piece: bytes) returns (sent: seq<bytes>)
    requires sid <= BinFrame.U64_MAX && Carries(sid, rate, v, before) && T.SampleAligned(piece)
    ensures var (v', fault) := SendSlices(sid, Open(sid, rate, v), Slices(piece));
      && Slices(piece) != [] && sent <= Slices(piece) && (fault == None ==> sent == Slices(piece))
      && (fault == None <==> |before| + |Slices(piece)| <= BinFrame.U32_MAX + 1)
      && Carries(sid, rate, v', before + sent)
  {
    SlicesAreGood(piece);
    var begun := Open(sid, rate, v);
    assert Carries(sid, rate, begun, before) || (JustOpened(sid, rate, begun) && before == []);
    var k := SlicesCarried(sid, rate, begun, before, Slices(piece));
    sent := Slices(piece)[..k];
  }

  /** A reply that synthesis accepts. */
  predicate Clean(reply: T.Reply) {
    reply.status == 200 && T.Verdict(reply) == None
  }

  /** Every piece that the client yields for the replies, in order. */
  function AllPieces(replies: seq<T.Reply>): seq<bytes> {
    if replies == [] then [] else T.Yielded([], replies[0].pieces) + AllPieces(replies[1..])
  }

  function Bodies(replies: seq<T.Reply>): bytes {
    if replies == [] then [] else replies[0].Body() + Bodies(replies[1..])
  }

  lemma {:induction false} AllPiecesAreBodies(replies: seq<T.Reply>)
    requires forall r :: r in replies ==> Clean(r)
    ensures forall p :: p in AllPieces(replies) ==> T.SampleAligned(p)
    ensures Flatten(AllPieces(replies)) == Bodies(replies)
    ensures |AllPieces(replies)| >= |replies|
  {
    if replies != [] {
      AllPiecesAreBodies(replies[1..]);
      assert Clean(replies[0]);
      T.CleanSynthIsWhole("x", true, replies[0]);
      FlattenAppend(T.Yielded([], replies[0].pieces), AllPieces(replies[1..]));
    }
  }

  /** Exactly one opening and one closing meta with the numbered frames between them. */
  predicate Broadcasts(sid: nat, rate: nat, trace: seq<Out>, payloads: seq<bytes>) {
    && |trace| == |payloads| + 2
    && trace[0] == Meta(sid, rate, false)
    && trace[|payloads| + 1] == Meta(sid, rate, true)
    && forall i :: 0 <= i < |payloads| ==> IsFrame(trace[i + 1], sid, i, payloads[i])
  }

  lemma SentenceCarried(sid: nat, rate: nat, v: Voice, before: seq<bytes>, text: string, reply: T.Reply)
    requires sid <= BinFrame.U64_MAX && Carries(sid, rate, v, before) && text != "" && Clean(reply)
    ensures var (v', fault) := SpeakOne(sid, rate, v, text, reply);
      var payloads := before + Payloads(T.Yielded([], reply.pieces));
      && Payloads(T.Yielded([], reply.pieces)) != []
      && (fault == None <==> |payloads| <= BinFrame.U32_MAX + 1)
      && (fault == None ==> Carries(sid, rate, v', payloads))
  {
    var pieces := T.Yielded([], reply.pieces);
    T.CleanSynthIsWhole(text, true, reply);
    var sent := PiecesCarried(sid, rate, v, before, pieces);
    PayloadsAreGood(pieces);
    assert pieces != [];
  }

  lemma PayloadsOfReplies(before: seq<bytes>, replies: seq<T.Reply>)
    requires replies != []
    ensures before + Payloads(T.Yielded([], replies[0].pieces)) + Payloads(AllPieces(replies[1..]))
         == before + Payloads(AllPieces(replies))
  {
    var first, rest := T.Yielded([], replies[0].pieces), AllPieces(replies[1..]);
    PayloadsAppend(first, rest);
    Assoc(before, Payloads(first), Payloads(rest));
    assert AllPieces(replies) == first + rest;
  }

  lemma {:induction false} SentencesCarried(sid: nat, rate: nat, v: Voice, before: seq<bytes>,
                                            sentences: seq<string>, replies: seq<T.Reply>)
    requires sid <= BinFrame.U64_MAX && Carries(sid, rate, v, before)
    requires |replies| == |sentences| && forall s :: s in sentences ==> s != ""
    requires forall r :: r in replies ==> Clean(r)
    ensures var (v', fault) := SpeakAll(sid, rate, v, sentences, replies);
      var payloads := before + Payloads(AllPieces(replies));
      && (fault == None <==> sentences == [] || |payloads| <= BinFrame.U32_MAX + 1)
      && (fault == None ==> Carries(sid, rate, v', payloads))
    decreases |sentences|
  {
    if sentences == [] {
      assert before + Payloads(AllPieces(replies)) == before;
    } else {
      assert Clean(replies[0]) && sentences[0] in sentences;
      SentenceCarried(sid, rate, v, before, sentences[0], replies[0]);
      PayloadsOfReplies(before, replies);
      var (v', fault) := SpeakOne(sid, rate, v, sentences[0], replies[0]);
      if fault.None? {
        assert forall s :: s in sentences[1..] ==> s in sentences;
        var payloads := before + Payloads(T.Yielded([], replies[0].pieces));
        SentencesCarried(sid, rate, v', payloads, sentences[1..], replies[1..]);
      }
    }
  }

  lemma {:induction false} SpokenIsNotEmpty(isSpace: char -> bool, raw: seq<string>)
    ensures forall s :: s in C.Spoken(isSpace, raw) ==> s != ""
  {
    if raw != [] {
      SpokenIsNotEmpty(isSpace, raw[1..]);
    }
  }

  /** From deltas and HTTP bytes to the wire: when every reply is sound, the worker ends without a fault exactly
      if the frames fit the 32-bit counter, and then a listener decodes frames 0, 1, 2, ... of one stream, each
      payload whole samples of at most 65536 bytes, that join to exactly the reply bytes, between one opening
      and one closing meta. Nothing at all goes out when nothing is spoken. */
  lemma AudioIdentity(sid: nat, rate: nat, isSpace: char -> bool, deltas: seq<string>, replies: seq<T.Reply>)
    requires sid <= BinFrame.U64_MAX
    requires |replies| == |C.Stream(isSpace, C.INITIAL, deltas)|
    requires forall r :: r in replies ==> Clean(r)
    ensures var (v, fault) := Drain(sid, rate, SILENT, C.Stream(isSpace, C.INITIAL, deltas), replies);
      var payloads := Payloads(AllPieces(replies));
      && (forall p :: p in payloads ==> GoodPayload(p))
      && Flatten(payloads) == Bodies(replies)
      && (payloads == [] <==> C.Stream(isSpace, C.INITIAL, deltas) == [])
      && (fault == None <==> |payloads| <= BinFrame.U32_MAX + 1)
      && (fault == None ==> if payloads == [] then v.trace == [] else Broadcasts(sid, rate, v.trace, payloads))
  {
    var sentences := C.Stream(isSpace, C.INITIAL, deltas);
    C.StreamRefinesSplitter(isSpace, deltas);
    SpokenIsNotEmpty(isSpace, C.Segments(Flatten(deltas)));
    AllPiecesAreBodies(replies);
    PayloadsAreGood(AllPieces(replies));
    SentencesCarried(sid, rate, SILENT, [], sentences, replies);
    assert [] + Payloads(AllPieces(replies)) == Payloads(AllPieces(replies));
  }

  // ---- a failed reply is never closed --------------------------------------------------

  predicate Unclosed(trace: seq<Out>) {
    forall i :: 0 <= i < |trace| ==> !(trace[i].Meta? && trace[i].last)
  }

  lemma {:induction false} SlicesStayUnclosed(sid: nat, v: Voice, payloads: seq<bytes>)
    requires Unclosed(v.trace)
    ensures Unclosed(SendSlices(sid, v, payloads).0.trace)
    ensures SendSlices(sid, v, payloads).0.isOpen == v.isOpen
    decreases |payloads|
  {
    if payloads != [] {
      var frame := BinFrame.Encode(BinFrame.KIND_TTS_PCM, sid, v.seqNo, payloads[0]);
      if frame.Ok? {
        SlicesStayUnclosed(sid, v.(trace := v.trace + [Bin(frame.value)], seqNo := v.seqNo + 1), payloads[1..]);
      }
    }
  }

  lemma {:induction false} PiecesStayUnclosed(sid: nat, rate: nat, v: Voice, pieces: seq<bytes>)
    requires Unclosed(v.trace)
    ensures Unclosed(SendPieces(sid, rate, v, pieces).0.trace)
    ensures pieces == [] ==> SendPieces(sid, rate, v, pieces).0 == v
    decreases |pieces|
  {
    if pieces != [] {
      SlicesStayUnclosed(sid, Open(sid, rate, v), Slices(pieces[0]));
      var (v', fault) := SendSlices(sid, Open(sid, rate, v), Slices(pieces[0]));
      if fault.None? {
        PiecesStayUnclosed(sid, rate, v', pieces[1..]);
      }
    }
  }

  predicate BringsNothing(text: string, reply: T.Reply) {
    T.Synth(text, true, reply).0 == [] && T.Synth(text, true, reply).1.Some?
  }

  lemma {:induction false} SentencesStayUnclosed(sid: nat, rate: nat, v: Voice, sentences: seq<string>,
                                                 replies: seq<T.Reply>)
    requires |replies| == |sentences| && Unclosed(v.trace)
    ensures Unclosed(SpeakAll(sid, rate, v, sentences, replies).0.trace)
    decreases |sentences|
  {
    if sentences != [] {
      PiecesStayUnclosed(sid, rate, v, T.Synth(sentences[0], true, replies[0]).0);
      var (v', fault) := SpeakOne(sid, rate, v, sentences[0], replies[0]);
      if fault.None? {
        SentencesStayUnclosed(sid, rate, v', sentences[1..], replies[1..]);
      }
    }
  }

  lemma FlattenPrefix(a: seq<bytes>, b: seq<bytes>)
    requires a <= b
    ensures Flatten(a) <= Flatten(b)
  {
    FlattenAppend(a, b[|a|..]);
    assert b == a + b[|a|..];
  }

  lemma PartOfBody(sent: seq<bytes>, pieces: seq<bytes>, body: bytes)
    requires (forall p :: p in pieces ==> T.SampleAligned(p)) && sent <= Payloads(pieces) && Flatten(pieces) <= body
    ensures Flatten(sent) <= body && forall p :: p in sent ==> GoodPayload(p)
  {
    PayloadsAreGood(pieces);
    FlattenPrefix(sent, Payloads(pieces));
  }

  /** One sentence, sound reply or not: what goes out is whole payloads from the front of the reply's body, and all of
      the body if there is no fault. */
  lemma SentencePart(sid: nat, rate: nat, v: Voice, before: seq<bytes>, text: string, reply: T.Reply)
    returns (sent: seq<bytes>)
    requires sid <= BinFrame.U64_MAX && Carries(sid, rate, v, before)
    ensures var (v', fault) := SpeakOne(sid, rate, v, text, reply);
      && Carries(sid, rate, v', before + sent) && (forall p :: p in sent ==> GoodPayload(p))
      && Flatten(sent) <= reply.Body() && (fault == None ==> Flatten(sent) == reply.Body())
  {
    var pieces := T.Synth(text, true, reply).0;
    T.SynthIsPart(text, true, reply);
    sent := PiecesCarried(sid, rate, v, before, pieces);
    PartOfBody(sent, pieces, reply.Body());
    if SpeakOne(sid, rate, v, text, reply).1 == None {
      T.CleanSynthIsWhole(text, true, reply);
      PayloadsAreGood(pieces);
    }
  }

  lemma WithTheRest(sent: seq<bytes>, more: seq<bytes>, body: bytes, rest: bytes)
    requires Flatten(sent) == body && Flatten(more) <= rest
    ensures Flatten(sent + more) <= body + rest
  {
    FlattenAppend(sent, more);
  }

  lemma PrefixOfMore(part: bytes, body: bytes, rest: bytes)
    requires part <= body
    ensures part <= body + rest
  {
  }

  lemma {:induction false} SentencesPart(sid: nat, rate: nat, v: Voice, before: seq<bytes>,
                                         sentences: seq<string>, replies: seq<T.Reply>) returns (sent: seq<bytes>)
    requires sid <= BinFrame.U64_MAX && Carries(sid, rate, v, before) && |replies| == |sentences|
    ensures Carries(sid, rate, SpeakAll(sid, rate, v, sentences, replies).0, before + sent)
    ensures (forall p :: p in sent ==> GoodPayload(p)) && Flatten(sent) <= Bodies(replies)
    decreases |sentences|
  {
    if sentences == [] {
      assert before + [] == before;
      sent := [];
    } else {
      sent := SentencePart(sid, rate, v, before, sentences[0], replies[0]);
      var (v', fault) := SpeakOne(sid, rate, v, sentences[0], replies[0]);
      if fault.None? {
        var more := SentencesPart(sid, rate, v', before + sent, sentences[1..], replies[1..]);
        Assoc(before, sent, more);
        WithTheRest(sent, more, replies[0].Body(), Bodies(replies[1..]));
        sent := sent + more;
      } else {
        PrefixOfMore(Flatten(sent), replies[0].Body(), Bodies(replies[1..]));
      }
    }
  }

  /** A failed stream as listeners have it: nothing, or the opening meta and then frames 0, 1, 2, ... with whole samples
      that join to the front of what the replies held. */
  ghost predicate BrokenOff(sid: nat, rate: nat, v: Voice, wire: bytes) {
    exists payloads :: Carries(sid, rate, v, payloads) && (forall p :: p in payloads ==> GoodPayload(p))
                       && Flatten(payloads) <= wire
  }

  /** Whatever goes wrong and wherever, what has gone out by then is the opening meta and consecutive frames with the
      front of the reply bytes, and no meta ever closes it; and a turn whose first reply brings no whole sample before
      failing broadcasts nothing. */
  lemma FailureNeverCloses(sid: nat, rate: nat, sentences: seq<string>, replies: seq<T.Reply>)
    requires |replies| == |sentences|
    ensures var (v, fault) := Drain(sid, rate, SILENT, sentences, replies);
      && (fault.Some? ==> Unclosed(v.trace) && (sid <= BinFrame.U64_MAX ==> BrokenOff(sid, rate, v, Bodies(replies))))
      && (sentences != [] && BringsNothing(sentences[0], replies[0]) ==> fault.Some? && v.trace == [])
  {
    SentencesStayUnclosed(sid, rate, SILENT, sentences, replies);
    if sid <= BinFrame.U64_MAX {
      var sent := SentencesPart(sid, rate, SILENT, [], sentences, replies);
      assert [] + sent == sent;
    }
    if sentences != [] {
      PiecesStayUnclosed(sid, rate, SILENT, T.Synth(sentences[0], true, replies[0]).0);
    }
  }
}
