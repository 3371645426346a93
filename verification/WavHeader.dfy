/** The incremental RIFF/WAVE header walker of the TTS client. */
module WavHeader {
  import opened Prelude
  import LE = LittleEndian

  const RIFF: bytes := [0x52, 0x49, 0x46, 0x46]
  const WAVE: bytes := [0x57, 0x41, 0x56, 0x45]
  const FMT: bytes := [0x66, 0x6D, 0x74, 0x20]
  const DATA: bytes := [0x64, 0x61, 0x74, 0x61]

  datatype Error =
    | BadRiffMagic
    | BadWaveMagic
    | FmtMissing
    | FmtTooSmall(size: nat)
    | BadAudioFormat(format: nat)
    | BadBits(bits: nat)
    | BadChannels(channels: nat)
    | EndedEarly

  /** What the walker knows about the bytes so far. */
  datatype Verdict = NeedMore | Fail(error: Error) | Found(pcmStart: nat, rate: nat)

  function FmtFault(data: bytes, at: nat): Option<Error>
    requires at + 16 <= |data|
  {
    var format := LE.Get(data[at..at + 2]);
    var channels := LE.Get(data[at + 2..at + 4]);
    var bits := LE.Get(data[at + 14..at + 16]);
    if format != 1 then Some(BadAudioFormat(format))
    else if bits != 16 then Some(BadBits(bits))
    else if channels != 1 then Some(BadChannels(channels))
    else None
  }

  function FmtRate(data: bytes, at: nat): nat
    requires at + 16 <= |data|
  {
    LE.Get(data[at + 4..at + 8])
  }

  /** What one turn of the walk does at `offset`: stop with a verdict, or step over the chunk there. */
  datatype Step = Stop(verdict: Verdict) | Next(offset: nat, rate: Option<nat>)

  function ReadChunk(data: bytes, offset: nat, rate: Option<nat>): (s: Step)
    ensures s.Next? ==> offset + 8 <= s.offset <= |data|
    ensures s.Stop? && s.verdict.Found? ==> s.verdict.pcmStart == offset + 8 <= |data|
  {
    if |data| < offset + 8 then Stop(NeedMore)
    else
      var id := data[offset..offset + 4];
      var size := LE.Get(data[offset + 4..offset + 8]);
      var start := offset + 8;
      if id == DATA then
        Stop(if rate.None? then Fail(FmtMissing) else Found(start, rate.value))
      else if id == FMT && size < 16 then Stop(Fail(FmtTooSmall(size)))
      else
        var padded := start + size + size % 2;
        if |data| < padded then Stop(NeedMore)
        else if id == FMT then
          match FmtFault(data, start)
          case Some(e) => Stop(Fail(e))
          case None => Next(padded, Some(FmtRate(data, start)))
        else Next(padded, rate)
  }

  /** The chunk walk from `offset`, with the rate of the last fmt chunk seen. */
  function Walk(data: bytes, offset: nat, rate: Option<nat>): (v: Verdict)
    ensures v.Found? ==> offset + 8 <= v.pcmStart <= |data|
    decreases |data| - offset
  {
    match ReadChunk(data, offset, rate)
    case Stop(verdict) => verdict
    case Next(offset', rate') => Walk(data, offset', rate')
  }

  function FindPcmStart(data: bytes): (v: Verdict)
    ensures v.Found? ==> 20 <= v.pcmStart <= |data|
  {
    if |data| >= 4 && data[..4] != RIFF then Fail(BadRiffMagic)
    else if |data| < 12 then NeedMore
    else if data[8..12] != WAVE then Fail(BadWaveMagic)
    else Walk(data, 12, None)
  }

  // ---- a verdict once reached is final -------------------------------------------------

  lemma ReadStable(data: bytes, more: bytes, offset: nat, rate: Option<nat>)
    requires ReadChunk(data, offset, rate) != Stop(NeedMore)
    ensures ReadChunk(data + more, offset, rate) == ReadChunk(data, offset, rate)
  {
    var all := data + more;
    assert all[offset..offset + 4] == data[offset..offset + 4];
    assert all[offset + 4..offset + 8] == data[offset + 4..offset + 8];
    var size := LE.Get(data[offset + 4..offset + 8]);
    var start := offset + 8;
    if data[offset..offset + 4] == FMT && size >= 16 {
      FmtFieldsMove(data, data[start..start + size], start);
      FmtFieldsMove(all, data[start..start + size], start);
    }
  }

  lemma {:induction false} WalkStable(data: bytes, more: bytes, offset: nat, rate: Option<nat>)
    requires Walk(data, offset, rate) != NeedMore
    ensures Walk(data + more, offset, rate) == Walk(data, offset, rate)
    decreases |data| - offset
  {
    ReadStable(data, more, offset, rate);
    match ReadChunk(data, offset, rate)
    case Stop(_) =>
    case Next(offset', rate') => WalkStable(data, more, offset', rate');
  }

  /** An error or a found header on a prefix is unchanged by any bytes that follow. */
  lemma VerdictStable(data: bytes, more: bytes)
    requires FindPcmStart(data) != NeedMore
    ensures FindPcmStart(data + more) == FindPcmStart(data)
  {
    var all := data + more;
    assert all[..4] == data[..4];
    if data[..4] == RIFF {
      assert all[8..12] == data[8..12];
      if data[8..12] == WAVE {
        WalkStable(data, more, 12, None);
      }
    }
  }

  // ---- the parser object ---------------------------------------------------------------

  datatype Parser = Parser(buffer: bytes, headerComplete: bool, sampleRate: Option<nat>)

  const FRESH := Parser([], false, None)

  /** One `feed`: what it returns or raises, and the parser it leaves behind. */
  function FeedStep(p: Parser, chunk: bytes): (Result<bytes, Error>, Parser) {
    if p.headerComplete then (Ok(chunk), p)
    else
      var data := p.buffer + chunk;
      match FindPcmStart(data)
      case NeedMore => (Ok([]), p.(buffer := data))
      case Fail(e) => (Err(e), p.(buffer := data))
      case Found(start, rate) =>
        (Ok(data[start..]), Parser([], true, Some(rate)))
  }

  class WavHeaderParser {
    var buffer: bytes
    var headerComplete: bool
    var sampleRate: Option<nat>

    function View(): Parser
      reads this
    {
      Parser(buffer, headerComplete, sampleRate)
    }

    constructor ()
      ensures View() == FRESH
    {
      buffer, headerComplete, sampleRate := [], false, None;
    }

    method FindStart() returns (verdict: Verdict)
      ensures verdict == FindPcmStart(buffer)
    {
      var data := buffer;
      if |data| >= 4 && data[..4] != RIFF { return Fail(BadRiffMagic); }
      if |data| < 12 { return NeedMore; }
      if data[8..12] != WAVE { return Fail(BadWaveMagic); }
      var offset: nat := 12;
      var rate: Option<nat> := None;
      while true
        invariant FindPcmStart(data) == Walk(data, offset, rate)
        decreases |data| - offset
      {
        if |data| < offset + 8 { return NeedMore; }
        var id := data[offset..offset + 4];
        var size := LE.Get(data[offset + 4..offset + 8]);
        var start := offset + 8;
        if id == DATA {
          if rate.None? { return Fail(FmtMissing); }
          return Found(start, rate.value);
        }
        if id == FMT && size < 16 { return Fail(FmtTooSmall(size)); }
        var padded := start + size + size % 2;
        if |data| < padded { return NeedMore; }
        if id == FMT {
          var format := LE.Get(data[start..start + 2]);
          var channels := LE.Get(data[start + 2..start + 4]);
          var bits := LE.Get(data[start + 14..start + 16]);
          if format != 1 { return Fail(BadAudioFormat(format)); }
          if bits != 16 { return Fail(BadBits(bits)); }
          if channels != 1 { return Fail(BadChannels(channels)); }
          rate := Some(LE.Get(data[start + 4..start + 8]));
        }
        offset := padded;
      }
    }

    method Feed(chunk: bytes) returns (r: Result<bytes, Error>)
      modifies this
      ensures (r, View()) == FeedStep(old(View()), chunk)
    {
      if headerComplete { return Ok(chunk); }
      buffer := buffer + chunk;
      var parsed := FindStart();
      if parsed.NeedMore? { return Ok([]); }
      if parsed.Fail? { return Err(parsed.error); }
      var pcm := buffer[parsed.pcmStart..];
      buffer := [];
      sampleRate := Some(parsed.rate);
      headerComplete := true;
      return Ok(pcm);
    }

    method Finish() returns (r: Result<(), Error>)
      ensures r == if headerComplete then Ok(()) else Err(EndedEarly)
    {
      if !headerComplete { return Err(EndedEarly); }
      return Ok(());
    }
  }

  /** One feed in full: after the header bytes pass through and nothing changes; before, the bytes are kept while more
      are needed and when an error is raised, and cleared when the header is found. */
  lemma FeedIs(p: Parser, chunk: bytes)
    ensures var (r, p') := FeedStep(p, chunk);
      if p.headerComplete then r == Ok(chunk) && p' == p
      else
        var v := FindPcmStart(p.buffer + chunk);
        && (v.NeedMore? ==> r == Ok([]) && p' == Parser(p.buffer + chunk, false, p.sampleRate))
        && (v.Fail? ==> r == Err(v.error) && p' == Parser(p.buffer + chunk, false, p.sampleRate))
        && (v.Found? ==> r == Ok((p.buffer + chunk)[v.pcmStart..]) && p' == Parser([], true, Some(v.rate)))
  {
  }

  // ---- fragmentation invariance --------------------------------------------------------

  /** All that a caller can observe of a series of feeds: the first error raised, or the
      joined output together with the rate and completion flag it ends with. */
  datatype Outcome = Raised(error: Error) | Played(pcm: bytes, complete: bool, rate: Option<nat>)

  function FeedAll(p: Parser, chunks: seq<bytes>): Outcome
    decreases |chunks|
  {
    if chunks == [] then Played([], p.headerComplete, p.sampleRate)
    else
      var (r, p') := FeedStep(p, chunks[0]);
      match r
      case Err(e) => Raised(e)
      case Ok(out) =>
        match FeedAll(p', chunks[1..])
        case Raised(e) => Raised(e)
        case Played(pcm, complete, rate) => Played(out + pcm, complete, rate)
  }

  /** The meaning of a whole response, with no reference to how it was cut. */
  function OneShot(wire: bytes): Outcome {
    match FindPcmStart(wire)
    case NeedMore => Played([], false, None)
    case Fail(e) => Raised(e)
    case Found(start, rate) => Played(wire[start..], true, Some(rate))
  }

  lemma {:induction false} FeedAllComplete(p: Parser, chunks: seq<bytes>)
    requires p.headerComplete
    ensures FeedAll(p, chunks) == Played(Flatten(chunks), true, p.sampleRate)
  {
    if chunks != [] {
      FeedAllComplete(p, chunks[1..]);
    }
  }

  lemma {:induction false} FeedAllFrom(p: Parser, chunks: seq<bytes>)
    requires !p.headerComplete && p.sampleRate == None
    requires FindPcmStart(p.buffer) == NeedMore
    ensures FeedAll(p, chunks) == OneShot(p.buffer + Flatten(chunks))
    decreases |chunks|
  {
    if chunks == [] {
      assert p.buffer + Flatten(chunks) == p.buffer;
    } else {
      var data := p.buffer + chunks[0];
      var rest := Flatten(chunks[1..]);
      assert p.buffer + Flatten(chunks) == data + rest;
      if FindPcmStart(data) == NeedMore {
        var p' := p.(buffer := data);
        FeedAllFrom(p', chunks[1..]);
        assert FeedStep(p, chunks[0]) == (Ok([]), p');
      } else {
        VerdictStable(data, rest);
        if FindPcmStart(data).Found? {
          var start := FindPcmStart(data).pcmStart;
          FeedAllComplete(FeedStep(p, chunks[0]).1, chunks[1..]);
          assert (data + rest)[start..] == data[start..] + rest;
        }
      }
    }
  }

  /** However the network cuts the bytes, the parser reports the same thing as for the uncut response. */
  lemma FragmentationInvariant(chunks: seq<bytes>)
    ensures FeedAll(FRESH, chunks) == FeedAll(FRESH, [Flatten(chunks)]) == OneShot(Flatten(chunks))
  {
    FeedAllFrom(FRESH, chunks);
    assert [] + Flatten(chunks) == Flatten(chunks);
    FeedAllFrom(FRESH, [Flatten(chunks)]);
    assert Flatten([Flatten(chunks)]) == Flatten(chunks);
  }

  // ---- the accepted language -----------------------------------------------------------

  /** A RIFF chunk; `pad` is the word-alignment byte, present after an odd payload. */
  datatype Chunk = Chunk(id: bytes, payload: bytes, pad: bytes)

  predicate WellFormed(c: Chunk) {
    |c.id| == 4 && c.id != DATA && |c.payload| <= 0xFFFF_FFFF && |c.pad| == |c.payload| % 2
  }

  /** A chunk the walker steps over: a fmt chunk has to describe 16-bit mono PCM. */
  predicate Acceptable(c: Chunk) {
    WellFormed(c) && (c.id == FMT ==> MonoPcm16(c.payload))
  }

  /** At least 16 bytes, with format 1, one channel and 16 bits in the fields at 0, 2 and 14. */
  predicate MonoPcm16(payload: bytes) {
    |payload| >= 16 && payload[0..2] == [1, 0] && payload[2..4] == [1, 0] && payload[14..16] == [16, 0]
  }

  /** Fields of two and four bytes, byte by byte. */
  function U16(data: bytes, at: nat): nat
    requires at + 2 <= |data|
  {
    data[at] as int + 256 * (data[at + 1] as int)
  }

  function U32(data: bytes, at: nat): nat
    requires at + 4 <= |data|
  {
    U16(data, at) + 65536 * (data[at + 2] as int) + 16777216 * (data[at + 3] as int)
  }

  lemma TwoBytes(field: bytes)
    requires |field| == 2
    ensures LE.Get(field) == U16(field, 0)
    ensures LE.Get(field) == 1 <==> field == [1, 0]
    ensures LE.Get(field) == 16 <==> field == [16, 0]
  {
    assert field[1..][1..] == [];
    assert field == [field[0], field[1]];
  }

  /** A fmt payload passes exactly if it is that of 16-bit mono PCM; otherwise the first test that fails names the
      fault: the format, then the bits, then the channels. */
  lemma FmtFaultIs(payload: bytes)
    requires |payload| >= 16
    ensures FmtFault(payload, 0)
         == if payload[0..2] != [1, 0] then Some(BadAudioFormat(U16(payload, 0)))
            else if payload[14..16] != [16, 0] then Some(BadBits(U16(payload, 14)))
            else if payload[2..4] != [1, 0] then Some(BadChannels(U16(payload, 2)))
            else None
  {
    TwoBytes(payload[0..2]);
    TwoBytes(payload[2..4]);
    TwoBytes(payload[14..16]);
  }

  lemma FourBytes(field: bytes)
    requires |field| == 4
    ensures LE.Get(field) == U32(field, 0)
  {
    var a, b, c := field[1..], field[1..][1..], field[1..][1..][1..];
    assert c[1..] == [] && c[0] == field[3] && b[0] == field[2] && a[0] == field[1];
    assert LE.Get(c) == field[3] && LE.Get(b) == field[2] + 256 * LE.Get(c) && LE.Get(a) == field[1] + 256 * LE.Get(b);
  }

  /** What one turn of the walk says of the bytes at `offset`: more is needed, or which error is raised, in the order in
      which the tests are made. */
  lemma ChunkVerdict(data: bytes, offset: nat, rate: Option<nat>)
    ensures var s := ReadChunk(data, offset, rate);
      if |data| < offset + 8 then s == Stop(NeedMore)
      else
        var id, size, start := data[offset..offset + 4], U32(data, offset + 4), offset + 8;
        var end := start + size + (if size % 2 == 1 then 1 else 0);
        if id == [0x64, 0x61, 0x74, 0x61] then
          s == Stop(if rate == None then Fail(FmtMissing) else Found(start, rate.value))
        else if id == [0x66, 0x6D, 0x74, 0x20] && size < 16 then s == Stop(Fail(FmtTooSmall(size)))
        else if |data| < end then s == Stop(NeedMore)
        else if id != [0x66, 0x6D, 0x74, 0x20] then s == Next(end, rate)
        else
          var p := data[start..start + 16];
          if p[0..2] != [1, 0] then s == Stop(Fail(BadAudioFormat(U16(p, 0))))
          else if p[14..16] != [16, 0] then s == Stop(Fail(BadBits(U16(p, 14))))
          else if p[2..4] != [1, 0] then s == Stop(Fail(BadChannels(U16(p, 2))))
          else s == Next(end, Some(U32(p, 4)))
  {
    if |data| >= offset + 8 {
      FourBytes(data[offset + 4..offset + 8]);
      var start := offset + 8;
      if |data| >= start + 16 {
        var p := data[start..start + 16];
        FmtFieldsMove(data, p, start);
        FmtFaultIs(p);
        FourBytes(p[4..8]);
      }
    }
  }

  /** Which magic is missed, and when more bytes are needed before the walk. */
  lemma MagicVerdict(data: bytes)
    ensures |data| >= 4 && data[..4] != [0x52, 0x49, 0x46, 0x46] ==> FindPcmStart(data) == Fail(BadRiffMagic)
    ensures |data| < 12 && (|data| >= 4 ==> data[..4] == [0x52, 0x49, 0x46, 0x46]) ==> FindPcmStart(data) == NeedMore
    ensures |data| >= 12 && data[..4] == [0x52, 0x49, 0x46, 0x46] ==>
              FindPcmStart(data)
              == if data[8..12] != [0x57, 0x41, 0x56, 0x45] then Fail(BadWaveMagic) else Walk(data, 12, None)
  {
  }

  function Print(c: Chunk): bytes {
    c.id + LE.Put(|c.payload|, 4) + c.payload + c.pad
  }

  function PrintAll(chunks: seq<Chunk>): bytes {
    if chunks == [] then [] else Print(chunks[0]) + PrintAll(chunks[1..])
  }

  function RateWith(c: Chunk, rate: Option<nat>): Option<nat> {
    if c.id == FMT && |c.payload| >= 16 then Some(FmtRate(c.payload, 0)) else rate
  }

  /** The rate in force after `chunks`: that of the last fmt chunk, if there is one. */
  function RateAfter(chunks: seq<Chunk>, rate: Option<nat>): Option<nat> {
    if chunks == [] then rate else RateAfter(chunks[1..], RateWith(chunks[0], rate))
  }

  function Header(riffSize: bytes, chunks: seq<Chunk>, dataSize: bytes): bytes {
    RIFF + riffSize + WAVE + PrintAll(chunks) + DATA + dataSize
  }

  lemma SubSlice(data: bytes, at: nat, len: nat, i: nat, j: nat)
    requires at + len <= |data| && i <= j <= len
    ensures data[at..at + len][i..j] == data[at + i..at + j]
  {
    var part := data[at..at + len];
    assert forall k :: i <= k < j ==> part[k] == data[at + k];
    assert part[i..j] == data[at + i..at + j];
  }

  lemma SplitAt(data: bytes, i: nat, j: nat, k: nat)
    requires i <= j <= k <= |data|
    ensures data[i..k] == data[i..j] + data[j..k]
  {
  }

  lemma FmtFieldsMove(data: bytes, payload: bytes, at: nat)
    requires at + |payload| <= |data| && data[at..at + |payload|] == payload && |payload| >= 16
    ensures FmtFault(data, at) == FmtFault(payload, 0)
    ensures FmtRate(data, at) == FmtRate(payload, 0)
  {
    SubSlice(data, at, |payload|, 0, 2);
    SubSlice(data, at, |payload|, 2, 4);
    SubSlice(data, at, |payload|, 4, 8);
    SubSlice(data, at, |payload|, 14, 16);
  }

  /** A printed chunk in place: the four fields are where the walker looks for them. */
  lemma FieldsInPlace(pre: bytes, c: Chunk, after: bytes)
    requires WellFormed(c)
    ensures var data := pre + Print(c) + after;
      var o := |pre|;
      var end := o + 8 + |c.payload|;
      && end + |c.pad| == o + |Print(c)| <= |data|
      && data[o..o + 4] == c.id
      && data[o + 4..o + 8] == LE.Put(|c.payload|, 4)
      && data[o + 8..end] == c.payload
  {
    var data := pre + Print(c) + after;
    var p := Print(c);
    assert data[|pre|..|pre| + |p|] == p;
    SubSlice(data, |pre|, |p|, 0, 4);
    SubSlice(data, |pre|, |p|, 4, 8);
    SubSlice(data, |pre|, |p|, 8, 8 + |c.payload|);
    assert p[0..4] == c.id;
    assert p[4..8] == LE.Put(|c.payload|, 4);
    assert p[8..8 + |c.payload|] == c.payload;
  }

  lemma ReadPrinted(pre: bytes, c: Chunk, after: bytes, rate: Option<nat>)
    requires Acceptable(c)
    ensures ReadChunk(pre + Print(c) + after, |pre|, rate) == Next(|pre + Print(c)|, RateWith(c, rate))
  {
    FieldsInPlace(pre, c, after);
    LE.Widths();
    LE.GetPut(|c.payload|, 4);
    if c.id == FMT {
      FmtFieldsMove(pre + Print(c) + after, c.payload, |pre| + 8);
      FmtFaultIs(c.payload);
    }
  }

  lemma {:induction false} WalkPrinted(pre: bytes, chunks: seq<Chunk>, tail: bytes, rate: Option<nat>)
    requires |tail| >= 8 && tail[..4] == DATA
    requires forall c :: c in chunks ==> Acceptable(c)
    ensures Walk(pre + PrintAll(chunks) + tail, |pre|, rate)
         == match RateAfter(chunks, rate)
            case None => Fail(FmtMissing)
            case Some(r) => Found(|pre| + |PrintAll(chunks)| + 8, r)
    decreases |chunks|
  {
    if chunks == [] {
      assert pre + PrintAll(chunks) == pre;
      CutBetween(pre, tail);
      assert (pre + tail)[|pre|..|pre| + 4] == tail[..4];
    } else {
      var c, rest := chunks[0], PrintAll(chunks[1..]);
      ReadPrinted(pre, c, rest + tail, rate);
      Assoc(pre, Print(c), rest);
      Assoc(pre + Print(c), rest, tail);
      WalkPrinted(pre + Print(c), chunks[1..], tail, RateWith(c, rate));
    }
  }

  /** Every header built from acceptable chunks is found, at its own length, with the last fmt chunk's rate. */
  lemma PrintedIsFound(riffSize: bytes, chunks: seq<Chunk>, dataSize: bytes, pcm: bytes)
    requires |riffSize| == |dataSize| == 4
    requires forall c :: c in chunks ==> Acceptable(c)
    ensures FindPcmStart(Header(riffSize, chunks, dataSize) + pcm)
         == match RateAfter(chunks, None)
            case None => Fail(FmtMissing)
            case Some(r) => Found(|Header(riffSize, chunks, dataSize)|, r)
  {
    var pre, tail := RIFF + riffSize + WAVE, DATA + dataSize + pcm;
    var data := Header(riffSize, chunks, dataSize) + pcm;
    HeaderParts(pre, PrintAll(chunks), DATA, dataSize, pcm);
    assert data[..4] == RIFF;
    assert data[8..12] == WAVE;
    assert tail[..4] == DATA;
    WalkPrinted(pre, chunks, tail, None);
  }

  lemma HeaderParts(pre: bytes, printed: bytes, id: bytes, size: bytes, pcm: bytes)
    ensures pre + printed + id + size + pcm == pre + printed + (id + size + pcm)
  {
  }

  /** The chunk that the walk steps over at `offset`, ending at `next`. */
  function ChunkAt(data: bytes, offset: nat, next: nat): Chunk
    requires offset + 8 <= next <= |data|
  {
    var end := offset + 8 + LE.Get(data[offset + 4..offset + 8]);
    if end <= next then Chunk(data[offset..offset + 4], data[offset + 8..end], data[end..next])
    else Chunk([], [], [])
  }

  lemma ReadIsPrinted(data: bytes, offset: nat, rate: Option<nat>)
    requires ReadChunk(data, offset, rate).Next?
    ensures var next := ReadChunk(data, offset, rate);
      var c := ChunkAt(data, offset, next.offset);
      Acceptable(c) && next.rate == RateWith(c, rate) && data[offset..next.offset] == Print(c)
  {
    var next := ReadChunk(data, offset, rate).offset;
    var c := ChunkAt(data, offset, next);
    var sizeField := data[offset + 4..offset + 8];
    var end := offset + 8 + LE.Get(sizeField);
    assert LE.Get(sizeField) <= 0xFFFF_FFFF by { LE.Widths(); }
    assert sizeField == LE.Put(|c.payload|, 4) by { LE.PutGet(sizeField); }
    if c.id == FMT {
      FmtFieldsMove(data, c.payload, offset + 8);
      FmtFaultIs(c.payload);
    }
    assert data[offset..next] == c.id + sizeField + c.payload + c.pad by {
      SplitAt(data, offset, end, next);
      SplitAt(data, offset, offset + 8, end);
      SplitAt(data, offset, offset + 4, offset + 8);
    }
  }

  /** The chunks a successful walk stepped over. */
  function ChunksFrom(data: bytes, offset: nat, rate: Option<nat>): seq<Chunk>
    requires Walk(data, offset, rate).Found?
    decreases |data| - offset
  {
    match ReadChunk(data, offset, rate)
    case Stop(_) => []
    case Next(offset', rate') => [ChunkAt(data, offset, offset')] + ChunksFrom(data, offset', rate')
  }

  lemma {:induction false} WalkChunksAcceptable(data: bytes, offset: nat, rate: Option<nat>)
    requires Walk(data, offset, rate).Found?
    ensures forall c :: c in ChunksFrom(data, offset, rate) ==> Acceptable(c)
    ensures RateAfter(ChunksFrom(data, offset, rate), rate) == Some(Walk(data, offset, rate).rate)
    decreases |data| - offset
  {
    match ReadChunk(data, offset, rate)
    case Stop(_) =>
    case Next(offset', rate') =>
      ReadIsPrinted(data, offset, rate);
      WalkChunksAcceptable(data, offset', rate');
      assert ChunksFrom(data, offset, rate)[1..] == ChunksFrom(data, offset', rate');
  }

  /** A successful walk stops behind a data chunk header. */
  lemma {:induction false} WalkStopsAtData(data: bytes, offset: nat, rate: Option<nat>)
    requires Walk(data, offset, rate).Found?
    ensures var stop := Walk(data, offset, rate).pcmStart;
      data[stop - 8..stop] == DATA + data[stop - 4..stop]
    decreases |data| - offset
  {
    match ReadChunk(data, offset, rate)
    case Stop(_) => SplitAt(data, offset, offset + 4, offset + 8);
    case Next(offset', rate') => WalkStopsAtData(data, offset', rate');
  }

  lemma {:induction false} WalkIsPrinted(data: bytes, offset: nat, rate: Option<nat>)
    requires Walk(data, offset, rate).Found?
    ensures var stop := Walk(data, offset, rate).pcmStart;
      data[offset..stop] == PrintAll(ChunksFrom(data, offset, rate)) + data[stop - 8..stop]
    decreases |data| - offset
  {
    var stop := Walk(data, offset, rate).pcmStart;
    match ReadChunk(data, offset, rate)
    case Stop(_) =>
    case Next(offset', rate') =>
      var rest := ChunksFrom(data, offset', rate');
      var c := ChunkAt(data, offset, offset');
      ReadIsPrinted(data, offset, rate);
      WalkIsPrinted(data, offset', rate');
      SplitAt(data, offset, offset', stop);
      PrintedThen(c, rest, data[stop - 8..stop]);
  }

  lemma PrintedThen(c: Chunk, rest: seq<Chunk>, tail: bytes)
    ensures PrintAll([c] + rest) + tail == Print(c) + (PrintAll(rest) + tail)
  {
    assert ([c] + rest)[1..] == rest;
    Assoc(Print(c), PrintAll(rest), tail);
  }

  lemma FoundIsHeader(data: bytes)
    requires FindPcmStart(data).Found?
    ensures var start := FindPcmStart(data).pcmStart;
      data[..start] == Header(data[4..8], ChunksFrom(data, 12, None), data[start - 4..start])
  {
    var start := FindPcmStart(data).pcmStart;
    WalkStopsAtData(data, 12, None);
    WalkIsPrinted(data, 12, None);
    SplitAt(data, 0, 12, start);
    SplitAt(data, 0, 8, 12);
    SplitAt(data, 0, 4, 8);
    var chunks := ChunksFrom(data, 12, None);
    Assoc(RIFF + data[4..8] + WAVE + PrintAll(chunks), DATA, data[start - 4..start]);
    Assoc(RIFF + data[4..8] + WAVE, PrintAll(chunks), data[start - 8..start]);
  }

  /** A header is found exactly when the bytes start with a printed list of acceptable chunks, one of them
      a fmt chunk, closed by a data chunk header; the PCM starts right there. */
  lemma FoundIffPrinted(data: bytes, start: nat, rate: nat)
    ensures FindPcmStart(data) == Found(start, rate)
       <==> exists riffSize: bytes, chunks: seq<Chunk>, dataSize: bytes ::
              IsHeader(data, start, rate, riffSize, chunks, dataSize)
  {
    if FindPcmStart(data) == Found(start, rate) {
      FoundIsHeader(data);
      WalkChunksAcceptable(data, 12, None);
      assert IsHeader(data, start, rate, data[4..8], ChunksFrom(data, 12, None), data[start - 4..start]);
    }
    forall riffSize, chunks, dataSize | IsHeader(data, start, rate, riffSize, chunks, dataSize)
      ensures FindPcmStart(data) == Found(start, rate)
    {
      HeaderIsFound(data, start, rate, riffSize, chunks, dataSize);
    }
  }

  lemma HeaderIsFound(data: bytes, start: nat, rate: nat, riffSize: bytes, chunks: seq<Chunk>, dataSize: bytes)
    requires IsHeader(data, start, rate, riffSize, chunks, dataSize)
    ensures FindPcmStart(data) == Found(start, rate)
  {
    PrintedIsFound(riffSize, chunks, dataSize, data[start..]);
    assert data == data[..start] + data[start..];
  }

  predicate IsHeader(data: bytes, start: nat, rate: nat, riffSize: bytes, chunks: seq<Chunk>, dataSize: bytes) {
    && |riffSize| == |dataSize| == 4
    && (forall c :: c in chunks ==> Acceptable(c))
    && RateAfter(chunks, None) == Some(rate)
    && start <= |data|
    && data[..start] == Header(riffSize, chunks, dataSize)
  }

  // ---- round trip with a PCM16 mono printer --------------------------------------------

  /** The fmt chunk of 16-bit mono PCM at `rate`. */
  function PcmFmt(rate: nat): Chunk {
    Chunk(FMT,
          LE.Put(1, 2) + LE.Put(1, 2) + LE.Put(rate, 4) + LE.Put(2 * rate, 4) + LE.Put(2, 2) + LE.Put(16, 2),
          [])
  }

  lemma PcmFmtAcceptable(rate: nat)
    requires rate <= 0xFFFF_FFFF
    ensures Acceptable(PcmFmt(rate)) && FmtRate(PcmFmt(rate).payload, 0) == rate
  {
    var p := PcmFmt(rate).payload;
    assert p[0..2] == LE.Put(1, 2);
    assert p[2..4] == LE.Put(1, 2);
    assert p[4..8] == LE.Put(rate, 4);
    assert p[14..16] == LE.Put(16, 2);
    LE.Widths();
    LE.GetPut(1, 2);
    LE.GetPut(16, 2);
    LE.GetPut(rate, 4);
    TwoBytes(p[0..2]);
    TwoBytes(p[14..16]);
  }

  lemma {:induction false} RateAfterPlain(chunks: seq<Chunk>, rate: Option<nat>)
    requires forall c :: c in chunks ==> c.id != FMT
    ensures RateAfter(chunks, rate) == rate
  {
    if chunks != [] {
      RateAfterPlain(chunks[1..], rate);
    }
  }

  lemma {:induction false} RateAfterAppend(a: seq<Chunk>, b: seq<Chunk>, rate: Option<nat>)
    ensures RateAfter(a + b, rate) == RateAfter(b, RateAfter(a, rate))
  {
    if a == [] {
      assert a + b == b;
    } else {
      assert (a + b)[1..] == a[1..] + b;
      RateAfterAppend(a[1..], b, RateWith(a[0], rate));
    }
  }

  /** Round trip: a printed PCM16 mono header with any other chunks around its fmt chunk, followed by any PCM,
      gives back that rate and exactly that PCM, however the bytes are cut. */
  lemma HeaderRoundTrip(rate: nat, before: seq<Chunk>, after: seq<Chunk>, riffSize: bytes, dataSize: bytes,
                        pcm: bytes, cuts: seq<bytes>)
    requires rate <= 0xFFFF_FFFF && |riffSize| == |dataSize| == 4
    requires forall c :: c in before || c in after ==> WellFormed(c) && c.id != FMT
    requires Flatten(cuts) == Header(riffSize, before + [PcmFmt(rate)] + after, dataSize) + pcm
    ensures FeedAll(FRESH, cuts) == Played(pcm, true, Some(rate))
  {
    var fmt := PcmFmt(rate);
    var chunks := before + [fmt] + after;
    PcmFmtAcceptable(rate);
    RateAfterAppend(before + [fmt], after, None);
    RateAfterAppend(before, [fmt], None);
    RateAfterPlain(before, None);
    assert RateAfter([fmt], None) == Some(rate);
    RateAfterPlain(after, Some(rate));
    PrintedIsFound(riffSize, chunks, dataSize, pcm);
    FragmentationInvariant(cuts);
  }
}
