/** `TtsClient.synth_stream`: headerless PCM out of an arbitrarily cut HTTP reply, in whole samples. */
module TtsClient {
  import opened Prelude

  datatype SynthError = EmptyText | NotProbed | BadStatus(status: int) | RequestFailed | OddTrailingByte | NoAudio

  /** An HTTP reply as the client meets it: status, body pieces in arrival order, and whether the
      transport breaks after delivering them (in a reply with another status than 200, while its body is read
      for the message). */
  datatype Reply = Reply(status: int, pieces: seq<bytes>, broken: bool) {
    function Body(): bytes { Flatten(pieces) }
  }

  /** The longest prefix of `s` that is whole samples, and the byte that is left over, if any. */
  function Whole(s: bytes): bytes { s[..|s| - |s| % 2] }

  function Left(s: bytes): bytes { s[|s| - |s| % 2..] }

  /** The chunks yielded while `pieces` arrive, when the bytes `carry` are left over from before. */
  function Yielded(carry: bytes, pieces: seq<bytes>): seq<bytes>
    decreases |pieces|
  {
    if pieces == [] then []
    else
      var aligned := carry + pieces[0];
      Emitted(aligned) + Yielded(Left(aligned), pieces[1..])
  }

  function Emitted(aligned: bytes): seq<bytes> {
    if Whole(aligned) == [] then [] else [Whole(aligned)]
  }

  predicate SampleAligned(chunk: bytes) {
    chunk != [] && |chunk| % 2 == 0
  }

  lemma WholeAndLeftStep(a: bytes, b: bytes)
    ensures Whole(a + b) == Whole(a) + Whole(Left(a) + b)
    ensures Left(a + b) == Left(Left(a) + b)
  {
    assert a == Whole(a) + Left(a);
    var rest := Left(a) + b;
    assert a + b == Whole(a) + rest;
    assert |a + b| % 2 == |rest| % 2;
  }

  lemma {:induction false} YieldedAligned(carry: bytes, pieces: seq<bytes>)
    ensures forall y :: y in Yielded(carry, pieces) ==> SampleAligned(y)
    decreases |pieces|
  {
    if pieces != [] {
      YieldedAligned(Left(carry + pieces[0]), pieces[1..]);
    }
  }

  /** Joined, the yielded chunks are the body up to its last whole sample. */
  lemma {:induction false} YieldedIsBody(carry: bytes, pieces: seq<bytes>)
    requires |carry| <= 1
    ensures Flatten(Yielded(carry, pieces)) == Whole(carry + Flatten(pieces))
    decreases |pieces|
  {
    if pieces == [] {
      assert carry + Flatten(pieces) == carry;
    } else {
      var aligned := carry + pieces[0];
      var rest := Flatten(pieces[1..]);
      var later := Yielded(Left(aligned), pieces[1..]);
      assert Flatten(later) == Whole(Left(aligned) + rest) by { YieldedIsBody(Left(aligned), pieces[1..]); }
      assert Flatten(Emitted(aligned) + later) == Whole(aligned) + Flatten(later) by {
        FlattenAppend(Emitted(aligned), later);
        assert Flatten(Emitted(aligned)) == Whole(aligned);
      }
      WholeAndLeftStep(aligned, rest);
      assert carry + Flatten(pieces) == aligned + rest;
    }
  }

  lemma NothingYielded(pieces: seq<bytes>)
    ensures Yielded([], pieces) == [] <==> Whole(Flatten(pieces)) == []
  {
    YieldedIsBody([], pieces);
    YieldedAligned([], pieces);
    assert [] + Flatten(pieces) == Flatten(pieces);
    var out := Yielded([], pieces);
    if out != [] {
      assert out[0] in out;
    }
  }

  /** What a started generator raises in the end, if anything: a matter of the whole body alone. */
  function Verdict(reply: Reply): Option<SynthError> {
    if reply.broken then Some(RequestFailed)
    else if |reply.Body()| % 2 == 1 then Some(OddTrailingByte)
    else if reply.Body() == [] then Some(NoAudio)
    else None
  }

  /** Everything `synth_stream` yields, and what it raises after that. */
  function Synth(text: string, probed: bool, reply: Reply): (seq<bytes>, Option<SynthError>) {
    if text == "" then ([], Some(EmptyText))
    else if !probed then ([], Some(NotProbed))
    else if reply.status != 200 then ([], Some(if reply.broken then RequestFailed else BadStatus(reply.status)))
    else (Yielded([], reply.pieces), Verdict(reply))
  }

  lemma LeftOfFirst(carry: bytes, pieces: seq<bytes>)
    requires pieces != []
    ensures Left(carry + Flatten(pieces)) == Left(Left(carry + pieces[0]) + Flatten(pieces[1..]))
  {
    Assoc(carry, pieces[0], Flatten(pieces[1..]));
    WholeAndLeftStep(carry + pieces[0], Flatten(pieces[1..]));
  }

  lemma LeftOfShort(carry: bytes)
    requires |carry| <= 1
    ensures Left(carry) == carry
  {
  }

  lemma YieldedOne(carry: bytes, next: bytes)
    ensures Yielded(carry, [next]) == Emitted(carry + next) + []
  {
    var one := [next];
    assert one[1..] == [];
  }

  lemma {:induction false} YieldedSnoc(carry: bytes, pieces: seq<bytes>, next: bytes)
    requires |carry| <= 1
    ensures Yielded(carry, pieces + [next]) == Yielded(carry, pieces) + Emitted(Left(carry + Flatten(pieces)) + next)
    decreases |pieces|
  {
    if pieces == [] {
      assert pieces + [next] == [next];
      assert carry + Flatten(pieces) == carry;
      LeftOfShort(carry);
      YieldedOne(carry, next);
    } else {
      var aligned, rest := carry + pieces[0], pieces[1..];
      assert (pieces + [next])[1..] == rest + [next];
      YieldedSnoc(Left(aligned), rest, next);
      LeftOfFirst(carry, pieces);
      Assoc(Emitted(aligned), Yielded(Left(aligned), rest), Emitted(Left(carry + Flatten(pieces)) + next));
    }
  }

  /** The variables of the loop after the first `i` pieces. */
  predicate Streamed(pieces: seq<bytes>, i: nat, out: seq<bytes>, carry: bytes, gotAudio: bool)
    requires i <= |pieces|
  {
    && out == Yielded([], pieces[..i])
    && carry == Left(Flatten(pieces[..i]))
    && (gotAudio <==> out != [])
  }

  lemma NoPieceYet(pieces: seq<bytes>)
    ensures Streamed(pieces, 0, [], [], false)
  {
    assert pieces[..0] == [];
  }

  /** One more piece: what it adds to the output, and what is left over after it. */
  lemma NextPiece(pieces: seq<bytes>, i: nat, out: seq<bytes>, carry: bytes, gotAudio: bool)
    requires i < |pieces| && Streamed(pieces, i, out, carry, gotAudio)
    ensures var aligned := carry + pieces[i];
      var n := |aligned| - |aligned| % 2;
      Streamed(pieces, i + 1, if n > 0 then out + [aligned[..n]] else out, aligned[n..], gotAudio || n > 0)
  {
    assert out + [] == out;
    var seen := pieces[..i];
    assert pieces[..i + 1] == seen + [pieces[i]];
    YieldedSnoc([], seen, pieces[i]);
    assert [] + Flatten(seen) == Flatten(seen);
    FlattenSnoc(seen, pieces[i]);
    WholeAndLeftStep(Flatten(seen), pieces[i]);
  }

  lemma EndOfBody(body: bytes)
    ensures Left(body) != [] <==> |body| % 2 == 1
    ensures Left(body) == [] ==> (Whole(body) == [] <==> body == [])
  {
  }

  /** What the loop's variables say about the whole reply. */
  lemma EndOfReply(reply: Reply, out: seq<bytes>, carry: bytes, gotAudio: bool)
    requires Streamed(reply.pieces, |reply.pieces|, out, carry, gotAudio)
    ensures out == Yielded([], reply.pieces)
    ensures Verdict(reply) == if reply.broken then Some(RequestFailed)
                              else if carry != [] then Some(OddTrailingByte)
                              else if !gotAudio then Some(NoAudio)
                              else None
  {
    assert reply.pieces[..|reply.pieces|] == reply.pieces;
    NothingYielded(reply.pieces);
    EndOfBody(reply.Body());
  }

  /** The carry loop over the pieces of the body. */
  method Align(pieces: seq<bytes>) returns (out: seq<bytes>, carry: bytes, gotAudio: bool)
    ensures Streamed(pieces, |pieces|, out, carry, gotAudio)
  {
    out, carry, gotAudio := [], [], false;
    NoPieceYet(pieces);
    for i := 0 to |pieces|
      invariant Streamed(pieces, i, out, carry, gotAudio)
    {
      NextPiece(pieces, i, out, carry, gotAudio);
      var aligned := carry + pieces[i];
      var alignedLength := |aligned| - |aligned| % 2;
      if alignedLength > 0 {
        gotAudio := true;
        out := out + [aligned[..alignedLength]];
      }
      carry := aligned[alignedLength..];
    }
  }

  method SynthStream(text: string, probed: bool, reply: Reply) returns (out: seq<bytes>, raised: Option<SynthError>)
    ensures (out, raised) == Synth(text, probed, reply)
  {
    if text == "" { return [], Some(EmptyText); }
    if !probed { return [], Some(NotProbed); }
    if reply.status != 200 {
      return [], Some(if reply.broken then RequestFailed else BadStatus(reply.status));
    }
    var carry, gotAudio;
    out, carry, gotAudio := Align(reply.pieces);
    EndOfReply(reply, out, carry, gotAudio);
    if reply.broken { return out, Some(RequestFailed); }
    if carry != [] { return out, Some(OddTrailingByte); }
    if !gotAudio { return out, Some(NoAudio); }
    return out, None;
  }

  /** Whatever a call raises in the end, what it has yielded is non-empty runs of whole samples from the front of the
      body. */
  lemma SynthIsPart(text: string, probed: bool, reply: Reply)
    ensures Flatten(Synth(text, probed, reply).0) <= reply.Body()
    ensures forall y :: y in Synth(text, probed, reply).0 ==> SampleAligned(y)
  {
    YieldedIsPart(reply.pieces);
  }

  lemma YieldedIsPart(pieces: seq<bytes>)
    ensures Flatten(Yielded([], pieces)) <= Flatten(pieces)
    ensures forall y :: y in Yielded([], pieces) ==> SampleAligned(y)
  {
    YieldedIsBody([], pieces);
    YieldedAligned([], pieces);
    assert [] + Flatten(pieces) == Flatten(pieces);
    WholeIsPart(Flatten(pieces));
  }

  lemma WholeIsPart(body: bytes)
    ensures Whole(body) <= body
  {
  }

  /** A call that raises nothing has yielded the whole body, in non-empty runs of whole samples. */
  lemma CleanSynthIsWhole(text: string, probed: bool, reply: Reply)
    requires Synth(text, probed, reply).1 == None
    ensures Flatten(Synth(text, probed, reply).0) == reply.Body() != []
    ensures |reply.Body()| % 2 == 0
    ensures forall y :: y in Synth(text, probed, reply).0 ==> SampleAligned(y)
  {
    YieldedIsBody([], reply.pieces);
    YieldedAligned([], reply.pieces);
    assert [] + reply.Body() == reply.Body();
    assert Left(reply.Body()) == [];
  }

  /** Every error has its cause, in the order in which they are noticed: no text, no probe, a transport that breaks, a
      status other than 200, an odd byte at the end, no audio; and only a reply with status 200 yields anything. */
  lemma ErrorsByCause(text: string, probed: bool, reply: Reply)
    ensures Synth(text, probed, reply).1
         == if text == "" then Some(EmptyText)
            else if !probed then Some(NotProbed)
            else if reply.broken then Some(RequestFailed)
            else if reply.status != 200 then Some(BadStatus(reply.status))
            else if |Flatten(reply.pieces)| % 2 == 1 then Some(OddTrailingByte)
            else if Flatten(reply.pieces) == [] then Some(NoAudio)
            else None
    ensures text == "" || !probed || reply.status != 200 ==> Synth(text, probed, reply).0 == []
    ensures text != "" && probed && reply.status == 200 ==>
      var body := Flatten(reply.pieces);
      Flatten(Synth(text, probed, reply).0) == body[..|body| - |body| % 2]
  {
    YieldedIsBody([], reply.pieces);
    assert [] + Flatten(reply.pieces) == Flatten(reply.pieces);
  }
}
