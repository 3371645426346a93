/** Binary WebSocket frames: an 18-byte little-endian header, then the payload. */
module BinFrame {
  import opened Prelude
  import LE = LittleEndian

  const HDR_VER: byte := 1
  const KIND_TTS_PCM := 0x01
  const KIND_MIC_PCM := 0x02
  const KIND_PERCEPTION := 0x03
  const HEADER_SIZE := 18
  const U32_MAX := 0xFFFF_FFFF
  const U64_MAX := 0xFFFF_FFFF_FFFF_FFFF

  predicate KnownKind(kind: int) { kind in {KIND_TTS_PCM, KIND_MIC_PCM, KIND_PERCEPTION} }

  datatype EncodeError = UnknownKind | StreamIdRange | SeqRange | EmptyPayload | PayloadTooLong

  datatype FrameError = Short | ForeignVersion(ver: byte) | ForeignKind(kind: byte) | LengthMismatch(declared: nat)

  datatype Frame = Frame(kind: int, streamId: int, seqNo: int, payload: bytes)

  /** Range violations are caller errors; the length field is written by `struct`, which rejects 2^32 and above. */
  function Encode(kind: int, streamId: int, seqNo: int, payload: bytes): Result<bytes, EncodeError> {
    if !KnownKind(kind) then Err(UnknownKind)
    else if !(0 <= streamId <= U64_MAX) then Err(StreamIdRange)
    else if !(0 <= seqNo <= U32_MAX) then Err(SeqRange)
    else if payload == [] then Err(EmptyPayload)
    else if |payload| > U32_MAX then Err(PayloadTooLong)
    else Ok([HDR_VER, kind] + LE.Put(streamId, 8) + LE.Put(seqNo, 4) + LE.Put(|payload|, 4) + payload)
  }

  function Decode(frame: bytes): Result<Frame, FrameError> {
    if |frame| < HEADER_SIZE then Err(Short)
    else if frame[0] != HDR_VER then Err(ForeignVersion(frame[0]))
    else if !KnownKind(frame[1]) then Err(ForeignKind(frame[1]))
    else
      var payload := frame[HEADER_SIZE..];
      var declared := LE.Get(frame[14..18]);
      if declared != |payload| then Err(LengthMismatch(declared))
      else Ok(Frame(frame[1], LE.Get(frame[2..10]), LE.Get(frame[10..14]), payload))
  }

  /** Exactly which arguments encode. */
  predicate Encodable(f: Frame) {
    KnownKind(f.kind) && 0 <= f.streamId <= U64_MAX && 0 <= f.seqNo <= U32_MAX && 1 <= |f.payload| <= U32_MAX
  }

  /** Decoding inverts encoding, and encoding succeeds on exactly the encodable frames. */
  lemma DecodeEncode(f: Frame)
    ensures Encode(f.kind, f.streamId, f.seqNo, f.payload).Ok? <==> Encodable(f)
    ensures Encodable(f) ==> Decode(Encode(f.kind, f.streamId, f.seqNo, f.payload).value) == Ok(f)
    ensures Encodable(f) ==> |Encode(f.kind, f.streamId, f.seqNo, f.payload).value| == HEADER_SIZE + |f.payload|
  {
    if Encodable(f) {
      LE.Widths();
      var wire := Encode(f.kind, f.streamId, f.seqNo, f.payload).value;
      assert wire[2..10] == LE.Put(f.streamId, 8);
      assert wire[10..14] == LE.Put(f.seqNo, 4);
      assert wire[14..18] == LE.Put(|f.payload|, 4);
      assert wire[18..] == f.payload;
      LE.GetPut(f.streamId, 8);
      LE.GetPut(f.seqNo, 4);
      LE.GetPut(|f.payload|, 4);
    }
  }

  /** Whatever decodes to a frame with a payload is the encoding of that frame, byte for byte. */
  lemma EncodeDecode(wire: bytes)
    requires Decode(wire).Ok?
    ensures var f := Decode(wire).value;
      if f.payload == [] then |wire| == HEADER_SIZE
      else Encodable(f) && Encode(f.kind, f.streamId, f.seqNo, f.payload) == Ok(wire)
  {
    var f := Decode(wire).value;
    LE.Widths();
    if f.payload != [] {
      LE.PutGet(wire[2..10]);
      LE.PutGet(wire[10..14]);
      LE.PutGet(wire[14..18]);
      assert wire == [wire[0], wire[1]] + wire[2..10] + wire[10..14] + wire[14..18] + wire[18..];
    }
  }

  /** Two accepted wires with the same meaning are the same wire, so no frame has two spellings. */
  lemma DecodeInjective(a: bytes, b: bytes)
    requires Decode(a).Ok? && Decode(b) == Decode(a)
    ensures a == b
  {
    LE.Widths();
    LE.PutGet(a[2..10]); LE.PutGet(b[2..10]);
    LE.PutGet(a[10..14]); LE.PutGet(b[10..14]);
    LE.PutGet(a[14..18]); LE.PutGet(b[14..18]);
    assert a == [a[0], a[1]] + a[2..10] + a[10..14] + a[14..18] + a[18..];
    assert b == [b[0], b[1]] + b[2..10] + b[10..14] + b[14..18] + b[18..];
  }

  /** No proper prefix of an accepted wire, and no extension of it, is accepted. */
  lemma PrefixFree(wire: bytes, more: bytes)
    requires Decode(wire).Ok? && more != []
    ensures Decode(wire + more).Err?
  {
    assert (wire + more)[14..18] == wire[14..18];
  }

  /** Four and eight bytes from `at` on, least significant first. */
  function U32At(w: bytes, at: nat): int
    requires at + 4 <= |w|
  {
    w[at] as int + 256 * (w[at + 1] as int + 256 * (w[at + 2] as int + 256 * (w[at + 3] as int)))
  }

  function U64At(w: bytes, at: nat): int
    requires at + 8 <= |w|
  {
    w[at] as int + 256 * (w[at + 1] as int + 256 * (w[at + 2] as int + 256 * (w[at + 3] as int
      + 256 * U32At(w, at + 4))))
  }

  lemma GetFour(s: bytes)
    requires |s| == 4
    ensures LE.Get(s) == U32At(s, 0)
  {
    var a, b, c := s[1..], s[1..][1..], s[1..][1..][1..];
    assert c[1..] == [] && c[0] == s[3] && b[0] == s[2] && a[0] == s[1];
    assert LE.Get(c) == s[3] && LE.Get(b) == s[2] + 256 * LE.Get(c) && LE.Get(a) == s[1] + 256 * LE.Get(b);
  }

  lemma GetEight(s: bytes)
    requires |s| == 8
    ensures LE.Get(s) == U64At(s, 0)
  {
    var a, b, c, d := s[1..], s[2..], s[3..], s[4..];
    assert s[1..] == a && a[1..] == b && b[1..] == c && c[1..] == d;
    GetFour(d);
    assert LE.Get(c) == s[3] + 256 * LE.Get(d) && LE.Get(b) == s[2] + 256 * LE.Get(c);
    assert LE.Get(a) == s[1] + 256 * LE.Get(b) && LE.Get(s) == s[0] + 256 * LE.Get(a);
  }

  /** The layout, byte by byte, of everything that is accepted: version 1 at 0, a kind of 1, 2 or 3 at 1, the stream id
      at 2 to 9, the seq at 10 to 13, the payload length at 14 to 17, and then exactly that many payload bytes. */
  lemma Layout(wire: bytes)
    ensures Decode(wire).Ok? <==>
      |wire| >= 18 && wire[0] == 1 && wire[1] in {1, 2, 3} && U32At(wire, 14) == |wire| - 18
    ensures Decode(wire).Ok? ==>
      Decode(wire).value == Frame(wire[1], U64At(wire, 2), U32At(wire, 10), wire[18..])
  {
    if |wire| >= 18 {
      GetEight(wire[2..10]);
      GetFour(wire[10..14]);
      GetFour(wire[14..18]);
    }
  }

  /** Exactly which arguments encode, and which error each of the others gets, in the order of the tests. */
  lemma EncodeVerdict(kind: int, streamId: int, seqNo: int, payload: bytes)
    ensures var r := Encode(kind, streamId, seqNo, payload);
      if kind != 1 && kind != 2 && kind != 3 then r == Err(UnknownKind)
      else if streamId < 0 || streamId > 0xFFFF_FFFF_FFFF_FFFF then r == Err(StreamIdRange)
      else if seqNo < 0 || seqNo > 0xFFFF_FFFF then r == Err(SeqRange)
      else if payload == [] then r == Err(EmptyPayload)
      else if |payload| > 0xFFFF_FFFF then r == Err(PayloadTooLong)
      else r.Ok? && Decode(r.value) == Ok(Frame(kind, streamId, seqNo, payload))
  {
    DecodeEncode(Frame(kind, streamId, seqNo, payload));
  }

  /** Which error each refused frame gets, in the order of the tests. */
  lemma DecodeVerdict(wire: bytes)
    ensures var r := Decode(wire);
      if |wire| < 18 then r == Err(Short)
      else if wire[0] != 1 then r == Err(ForeignVersion(wire[0]))
      else if wire[1] !in {1, 2, 3} then r == Err(ForeignKind(wire[1]))
      else if U32At(wire, 14) != |wire| - 18 then r == Err(LengthMismatch(U32At(wire, 14)))
      else r.Ok?
  {
    if |wire| >= 18 {
      GetFour(wire[14..18]);
    }
  }
}
