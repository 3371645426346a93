/** Runs of the resume protocol, seen by one client that reconnects any number of times. */
module Resume {
  import opened Prelude
  import opened Envelopes
  import opened Sessions
  import R = ReplayLog

  /** A client reads the socket `link` in order and has handled its first `cursor` messages. `received` is
      every seq-bearing envelope it got since its session was created, `key` the resume key it was given. */
  datatype Client = Client(link: Option<nat>, cursor: nat, received: seq<Envelope>, key: Option<nat>)

  /** `history` is every envelope ever appended to the replay log. */
  datatype World = World(srv: Server, history: seq<Envelope>, client: Client)

  const START := World(EMPTY, [], Client(None, 0, [], None))

  /** Broadcast and attach are single steps. A socket may die with messages still on it (`Lose`), and the server
      may notice at any time, on a send or otherwise, or never. Other clients attach with any credentials. */
  datatype Step =
    | Publish(env: Envelope, nowMs: int, pruneMs: int, broken: set<nat>)
    | Unhook(sid: nat)
    | OtherAttach(ws: nat, resume: Option<Credentials>, sid: nat, key: nat, t: Times)
    | Reconnect(ws: nat, sid: nat, key: nat, t: Times)
    | Deliver
    | Lose

  /** New sockets and freshly drawn tokens are new; `KeysOk` is what the dictionary lookups need, and every
      reachable server has it. */
  ghost predicate Enabled(w: World, step: Step) {
    match step
    case Publish(env, _, _, _) => env.seqNo.None?
    case Unhook(_) => true
    case OtherAttach(ws, _, sid, key, _) => CanAttach(w.srv, ws, sid, key)
    case Reconnect(ws, sid, key, _) => CanAttach(w.srv, ws, sid, key)
    case Deliver => w.client.link.Some? && w.client.link.value in w.srv.sent
                    && w.client.cursor < |w.srv.sent[w.client.link.value]|
    case Lose => true
  }

  ghost predicate CanAttach(srv: Server, ws: nat, sid: nat, key: nat) {
    KeysOk(srv) && ws !in srv.sent && sid !in srv.sessions && key !in srv.byKey
  }

  function Hear(received: seq<Envelope>, msg: Msg): seq<Envelope> {
    match msg
    case Ack(_, _, replay) => if replay then received else []
    case Note(env) => if env.seqNo.Some? then received + [env] else received
  }

  function Handle(c: Client, msg: Msg): Client {
    c.(cursor := c.cursor + 1, received := Hear(c.received, msg), key := if msg.Ack? then Some(msg.key) else c.key)
  }

  /** What an honest client presents: its key, with the last seq it received. */
  function Presented(c: Client): Option<Credentials> {
    if c.key.None? then None else Some(Credentials(c.key.value, LastSeq(c.received)))
  }

  ghost function Apply(w: World, step: Step): World {
    if !Enabled(w, step) then w
    else
      match step
      case Publish(env, nowMs, pruneMs, broken) =>
        World(Broadcast(w.srv, env, nowMs, pruneMs, broken),
              if Durable(env) then w.history + [Sequenced(w.srv, env, nowMs)] else w.history, w.client)
      case Unhook(sid) => w.(srv := Detach(w.srv, sid))
      case OtherAttach(ws, resume, sid, key, t) => w.(srv := Attach(w.srv, ws, resume, sid, key, t))
      case Reconnect(ws, sid, key, t) =>
        w.(srv := Attach(w.srv, ws, Presented(w.client), sid, key, t),
           client := w.client.(link := Some(ws), cursor := 0))
      case Deliver => w.(client := Handle(w.client, w.srv.sent[w.client.link.value][w.client.cursor]))
      case Lose => w.(client := w.client.(link := None))
  }

  ghost function Run(w: World, steps: seq<Step>): World
    decreases |steps|
  {
    if steps == [] then w else Run(Apply(w, steps[0]), steps[1..])
  }

  // ---- what is kept --------------------------------------------------------------------

  /** `stream` is strictly increasing and has every logged envelope between its first and its last one. */
  predicate Covers(stream: seq<Envelope>, history: seq<Envelope>) {
    && Increasing(stream)
    && forall e :: e in history && stream != [] && stream[0].Seq() < e.Seq() <= LastSeq(stream) ==> e in stream
  }

  /** ... and every later one too. */
  predicate UpToDate(stream: seq<Envelope>, history: seq<Envelope>) {
    forall e :: e in history && stream != [] && stream[0].Seq() < e.Seq() ==> e in stream
  }

  /** A socket carries one handshake answer, then envelopes. */
  predicate Shape(msgs: seq<Msg>) {
    msgs != [] && msgs[0].Ack? && forall i :: 0 < i < |msgs| ==> msgs[i].Note?
  }

  function Heard(received: seq<Envelope>, msgs: seq<Msg>): seq<Envelope>
    decreases |msgs|
  {
    if msgs == [] then received else Heard(Hear(received, msgs[0]), msgs[1..])
  }

  /** All that the client will have received once it has handled what is on its socket. */
  function Ahead(srv: Server, c: Client): seq<Envelope>
    requires c.link.Some? && c.link.value in srv.sent && c.cursor <= |srv.sent[c.link.value]|
  {
    Heard(c.received, srv.sent[c.link.value][c.cursor..])
  }

  ghost predicate ServerOk(srv: Server, history: seq<Envelope>) {
    KeysOk(srv) && SocketsOk(srv) && R.Faithful(srv.log, history) && srv.log.lastSeq <= srv.seqNo
  }

  ghost predicate ClientOk(srv: Server, history: seq<Envelope>, c: Client) {
    && Covers(c.received, history) && LastSeq(c.received) <= srv.seqNo
    && (c.link.Some? ==>
          && c.link.value in srv.sent && c.cursor <= |srv.sent[c.link.value]|
          && Shape(srv.sent[c.link.value])
          && Covers(Ahead(srv, c), history) && LastSeq(Ahead(srv, c)) <= srv.seqNo
          && (Live(srv, c.link.value) ==> UpToDate(Ahead(srv, c), history)))
  }

  ghost predicate Inv(w: World) {
    ServerOk(w.srv, w.history) && ClientOk(w.srv, w.history, w.client)
  }

  // ---- streams -------------------------------------------------------------------------

  lemma {:induction false} HeardAppend(received: seq<Envelope>, a: seq<Msg>, b: seq<Msg>)
    ensures Heard(received, a + b) == Heard(Heard(received, a), b)
    decreases |a|
  {
    if a == [] {
      assert a + b == b;
    } else {
      assert (a + b)[1..] == a[1..] + b;
      HeardAppend(Hear(received, a[0]), a[1..], b);
    }
  }

  lemma {:induction false} HeardNotes(received: seq<Envelope>, envs: seq<Envelope>)
    requires forall e :: e in envs ==> e.seqNo.Some?
    ensures Heard(received, Notes(envs)) == received + envs
    decreases |envs|
  {
    if envs == [] {
      assert received + envs == received;
    } else {
      assert envs[0] in envs;
      HeardNotes(received + [envs[0]], envs[1..]);
      assert received + [envs[0]] + envs[1..] == received + envs;
    }
  }

  lemma {:induction false} HeardExtends(received: seq<Envelope>, msgs: seq<Msg>)
    requires forall i :: 0 <= i < |msgs| ==> msgs[i].Note?
    ensures received <= Heard(received, msgs)
    decreases |msgs|
  {
    if msgs != [] {
      assert msgs[0].Note?;
      HeardExtends(Hear(received, msgs[0]), msgs[1..]);
    }
  }

  lemma PrefixCovers(part: seq<Envelope>, stream: seq<Envelope>, history: seq<Envelope>)
    requires Covers(stream, history) && part <= stream
    ensures Covers(part, history) && LastSeq(part) <= LastSeq(stream)
  {
    assert forall i :: 0 <= i < |part| ==> part[i] == stream[i];
    assert part != [] ==> forall i :: |part| <= i < |stream| ==> LastSeq(part) < stream[i].Seq();
    forall e | e in history && part != [] && part[0].Seq() < e.Seq() <= LastSeq(part)
      ensures e in part
    {
      assert e in stream;
      var i :| 0 <= i < |stream| && stream[i] == e;
      assert i < |part| && part[i] == e;
    }
  }

  lemma IncreasingAppend(a: seq<Envelope>, b: seq<Envelope>)
    requires Increasing(a) && Increasing(b)
    requires a != [] && b != [] ==> LastSeq(a) < b[0].Seq()
    ensures Increasing(a + b)
  {
    var all := a + b;
    forall i, j | 0 <= i < j < |all| ensures all[i].Seq() < all[j].Seq() {
      if i < |a| <= j {
        assert a[i].Seq() <= LastSeq(a) && b[0].Seq() <= b[j - |a|].Seq();
      }
    }
  }

  /** An envelope newer than all of the history keeps an up-to-date stream so. */
  lemma ExtendByNewer(stream: seq<Envelope>, history: seq<Envelope>, env: Envelope)
    requires Covers(stream, history) && UpToDate(stream, history)
    requires env.seqNo.Some? && env.Seq() > LastSeq(stream)
    requires forall e :: e in history ==> e.Seq() < env.Seq()
    ensures Covers(stream + [env], history) && UpToDate(stream + [env], history)
    ensures LastSeq(stream + [env]) == env.Seq()
  {
    var longer := stream + [env];
    IncreasingAppend(stream, [env]);
    forall e | e in history && longer[0].Seq() < e.Seq()
      ensures e in longer
    {
      assert stream != [] ==> longer[0] == stream[0] && e in stream;
    }
  }

  lemma HistoryGrows(stream: seq<Envelope>, history: seq<Envelope>, env: Envelope)
    requires Covers(stream, history)
    requires env.Seq() > LastSeq(stream) || env in stream
    ensures Covers(stream, history + [env])
    ensures UpToDate(stream, history) && env in stream ==> UpToDate(stream, history + [env])
  {
  }

  /** The tail of the log makes a covering stream up to date. */
  lemma ExtendByTail(received: seq<Envelope>, history: seq<Envelope>)
    requires Covers(received, history) && Increasing(history)
    ensures var stream := received + After(history, LastSeq(received));
      Covers(stream, history) && UpToDate(stream, history)
      && LastSeq(stream) <= (if LastSeq(received) > LastSeq(history) then LastSeq(received) else LastSeq(history))
  {
    var last := LastSeq(received);
    var tail := After(history, last);
    AfterMembers(history, last);
    AfterIncreasing(history, last);
    if tail != [] {
      assert tail[0] in tail && tail[|tail| - 1] in tail;
      IncreasingUpToLast(history);
    }
    IncreasingAppend(received, tail);
    var stream := received + tail;
    forall e | e in history && stream != [] && stream[0].Seq() < e.Seq()
      ensures e in stream
    {
      if e.Seq() <= last {
        assert received != [] && stream[0] == received[0];
        assert e in received;
      } else {
        assert e in tail;
      }
    }
  }

  /** The tail of the log, then a snapshot under a newer seq. */
  lemma ExtendByReplay(received: seq<Envelope>, history: seq<Envelope>, resend: seq<Envelope>, seqNo: nat)
    requires Covers(received, history) && Increasing(history)
    requires LastSeq(received) <= seqNo && LastSeq(history) <= seqNo
    requires |resend| <= 1 && (resend != [] ==> resend[0].seqNo == Some(seqNo + 1))
    ensures var stream := received + After(history, LastSeq(received)) + resend;
      Covers(stream, history) && UpToDate(stream, history) && LastSeq(stream) <= seqNo + |resend|
  {
    ExtendByTail(received, history);
    var stream := received + After(history, LastSeq(received));
    if resend == [] {
      assert stream + resend == stream;
    } else {
      IncreasingUpToLast(history);
      ExtendByNewer(stream, history, resend[0]);
      assert resend == [resend[0]];
    }
  }

  lemma FreshStream(history: seq<Envelope>, resend: seq<Envelope>, seqNo: nat)
    requires Increasing(history) && LastSeq(history) <= seqNo
    requires |resend| <= 1 && (resend != [] ==> resend[0].seqNo == Some(seqNo + 1))
    ensures Covers(resend, history) && UpToDate(resend, history) && LastSeq(resend) <= seqNo + |resend|
  {
    IncreasingUpToLast(history);
  }

  // ---- server steps --------------------------------------------------------------------

  /** The same sessions on the same sockets, except that some are detached. */
  ghost predicate Loosened(srv: Server, srv': Server) {
    && srv'.byKey == srv.byKey && srv'.sessions.Keys == srv.sessions.Keys && srv'.sent.Keys == srv.sent.Keys
    && forall a :: a in srv.sessions ==>
         && srv'.sessions[a].key == srv.sessions[a].key
         && (srv'.sessions[a].ws == None || srv'.sessions[a].ws == srv.sessions[a].ws)
  }

  lemma LoosenedKeys(srv: Server, srv': Server)
    requires KeysOk(srv) && Loosened(srv, srv')
    ensures KeysOk(srv')
  {
  }

  lemma LoosenedSockets(srv: Server, srv': Server)
    requires SocketsOk(srv) && Loosened(srv, srv')
    ensures SocketsOk(srv')
    ensures forall ws: nat :: Live(srv', ws) ==> Live(srv, ws)
  {
    assert forall a :: a in srv'.sessions && srv'.sessions[a].ws.Some? ==> srv'.sessions[a].ws == srv.sessions[a].ws;
    forall ws: nat | Live(srv', ws)
      ensures Live(srv, ws)
    {
      var a :| a in srv'.sessions && a !in {} && srv'.sessions[a].ws == Some(ws);
      assert srv.sessions[a].ws == Some(ws);
    }
  }

  lemma DetachKeeps(srv: Server, history: seq<Envelope>, sid: nat)
    requires ServerOk(srv, history)
    ensures ServerOk(Detach(srv, sid), history)
    ensures forall ws: nat :: Live(Detach(srv, sid), ws) ==> Live(srv, ws)
  {
    assert Loosened(srv, Detach(srv, sid));
    LoosenedKeys(srv, Detach(srv, sid));
    LoosenedSockets(srv, Detach(srv, sid));
  }

  /** Between the old server and one with `ws` being attached: sessions are consistent, at most one uses the new
      socket, and all others have the socket they had. */
  ghost predicate Attaching(srv: Server, srv': Server, ws: nat) {
    && KeysOk(srv')
    && (forall a :: a in srv'.sessions ==>
          srv'.sessions[a].ws == Some(ws) || (a in srv.sessions && srv'.sessions[a].ws == srv.sessions[a].ws))
    && (forall a, b :: a in srv'.sessions && b in srv'.sessions && srv'.sessions[a].ws == Some(ws)
                       && srv'.sessions[b].ws == Some(ws)
          ==> a == b)
    && srv'.sent == srv.sent && srv'.seqNo == srv.seqNo && srv'.snapshot == srv.snapshot
    && srv'.log.lastSeq == srv.log.lastSeq
  }

  lemma AttachingSockets(srv: Server, srv': Server, ws: nat, msgs: seq<Msg>, seqNo: nat)
    requires SocketsOk(srv) && Attaching(srv, srv', ws) && ws !in srv.sent
    ensures var done := srv'.(sent := srv'.sent[ws := msgs], seqNo := seqNo);
      SocketsOk(done) && KeysOk(done)
      && forall other: nat :: other in srv.sent && Live(done, other) ==> Live(srv, other)
  {
    var done := srv'.(sent := srv'.sent[ws := msgs], seqNo := seqNo);
    forall other: nat | other in srv.sent && Live(done, other)
      ensures Live(srv, other)
    {
      var a :| a in done.sessions && a !in {} && done.sessions[a].ws == Some(other);
      assert a in srv.sessions && srv.sessions[a].ws == Some(other);
    }
    forall a, b | a in done.sessions && b in done.sessions && a != b && done.sessions[a].ws.Some?
      ensures done.sessions[a].ws != done.sessions[b].ws
    {
      if done.sessions[a].ws != Some(ws) && done.sessions[b].ws != Some(ws) {
        assert srv.sessions[a].ws != srv.sessions[b].ws;
      }
    }
  }

  lemma PruneKeepsLast(log: R.Log, nowMs: int)
    ensures R.Pruned(log, nowMs).lastSeq == log.lastSeq
    decreases |log.entries|
  {
    if R.Stale(log.entries, nowMs) {
      PruneKeepsLast(log.(entries := log.entries[1..], prunedBelow := log.entries[0].Seq()), nowMs);
    }
  }

  ghost predicate NoneOn(srv: Server, ws: nat) {
    forall a :: a in srv.sessions ==> srv.sessions[a].ws != Some(ws)
  }

  lemma NewSocket(srv: Server, ws: nat)
    requires KeysOk(srv) && SocketsOk(srv) && ws !in srv.sent
    ensures NoneOn(srv, ws) && Attaching(srv, srv, ws)
  {
  }

  lemma DropExpired(srv: Server, ws: nat, sid: nat)
    requires KeysOk(srv) && NoneOn(srv, ws) && sid in srv.sessions
    ensures Attaching(srv, Drop(srv, sid), ws) && NoneOn(Drop(srv, sid), ws)
  {
  }

  lemma Hook(srv: Server, ws: nat, sid: nat)
    requires KeysOk(srv) && NoneOn(srv, ws) && sid in srv.sessions
    ensures Attaching(srv, srv.(sessions := srv.sessions[sid := srv.sessions[sid].(ws := Some(ws))]), ws)
  {
  }

  lemma ResumeKeeps(srv: Server, key: nat, ws: nat, nowMs: int)
    requires KeysOk(srv) && SocketsOk(srv) && ws !in srv.sent
    ensures var (srv', sid) := Resume(srv, key, ws, nowMs);
      && Attaching(srv, srv', ws) && srv'.log == srv.log
      && srv'.sessions.Keys <= srv.sessions.Keys && srv'.byKey.Keys <= srv.byKey.Keys
      && (sid.None? ==> NoneOn(srv', ws))
      && (sid.Some? ==> sid.value in srv'.sessions && srv'.sessions[sid.value].ws == Some(ws))
  {
    NewSocket(srv, ws);
    if key in srv.byKey {
      DropExpired(srv, ws, srv.byKey[key]);
      Hook(srv, ws, srv.byKey[key]);
    }
  }

  lemma DropAttached(srv: Server, srv': Server, ws: nat, sid: nat)
    requires Attaching(srv, srv', ws) && sid in srv'.sessions && srv'.sessions[sid].ws == Some(ws)
    ensures Attaching(srv, Drop(srv', sid), ws)
    ensures NoneOn(Drop(srv', sid), ws)
  {
  }

  lemma DecideKeeps(srv: Server, history: seq<Envelope>, ws: nat, resume: Option<Credentials>, t: Times)
    requires ServerOk(srv, history) && ws !in srv.sent
    ensures var (srv', kept, tail) := Decide(srv, ws, resume, t);
      && Attaching(srv, srv', ws) && R.Faithful(srv'.log, history)
      && srv'.sessions.Keys <= srv.sessions.Keys && srv'.byKey.Keys <= srv.byKey.Keys
      && (kept.None? ==> tail == [] && NoneOn(srv', ws))
      && (kept.Some? ==> resume.Some? && tail == After(history, resume.value.lastSeen))
  {
    if resume.Some? {
      var (srv1, sid) := Resume(srv, resume.value.key, ws, t.resumeMs);
      ResumeKeeps(srv, resume.value.key, ws, t.resumeMs);
      if sid.Some? {
        var log' := R.Pruned(srv.log, t.pruneMs);
        PruneKeepsLast(srv.log, t.pruneMs);
        R.TailFaithful(srv.log, history, resume.value.lastSeen, t.pruneMs);
        NewLog(srv, srv1, ws, log');
        DropAttached(srv, srv1.(log := log'), ws, sid.value);
        TailIsAfter(srv.log, history, resume.value.lastSeen, t.pruneMs);
      }
    }
  }

  lemma NewLog(srv: Server, srv': Server, ws: nat, log: R.Log)
    requires Attaching(srv, srv', ws) && log.lastSeq == srv.log.lastSeq
    ensures Attaching(srv, srv'.(log := log), ws)
  {
  }

  lemma TailIsAfter(log: R.Log, history: seq<Envelope>, since: int, nowMs: int)
    requires R.Faithful(R.Pruned(log, nowMs), history)
    ensures R.TailOf(log, since, nowMs).0.Some? ==> R.TailOf(log, since, nowMs).0.value == After(history, since)
  {
    var dropped :| R.Agrees(R.Pruned(log, nowMs), history, dropped);
    R.TailComplete(log, history, dropped, since, nowMs);
  }

  lemma CreateKeeps(srv: Server, srv': Server, ws: nat, sid: nat, key: nat, nowMs: int)
    requires Attaching(srv, srv', ws) && sid !in srv'.sessions && key !in srv'.byKey
    requires NoneOn(srv', ws)
    ensures Attaching(srv, Create(srv', ws, sid, key, nowMs), ws)
  {
  }

  lemma NotesAreNotes(envs: seq<Envelope>)
    ensures |Notes(envs)| == |envs| && forall i :: 0 <= i < |envs| ==> Notes(envs)[i] == Note(envs[i])
  {
  }

  lemma SeatedKeeps(srv: Server, history: seq<Envelope>, ws: nat, resume: Option<Credentials>, sid: nat, key: nat,
                    t: Times)
    requires ServerOk(srv, history) && CanAttach(srv, ws, sid, key)
    ensures Attaching(srv, Seated(srv, ws, resume, sid, key, t), ws)
    ensures R.Faithful(Seated(srv, ws, resume, sid, key, t).log, history)
  {
    DecideKeeps(srv, history, ws, resume, t);
    var (srv1, kept, tail) := Decide(srv, ws, resume, t);
    if kept.None? {
      CreateKeeps(srv, srv1, ws, sid, key, t.createMs);
    }
  }

  lemma SeatedSame(srv: Server, ws: nat, resume: Option<Credentials>, sid: nat, key: nat, t: Times)
    requires KeysOk(srv)
    ensures Resend(Seated(srv, ws, resume, sid, key, t)) == Resend(srv)
  {
  }

  /** The sockets that the server had carry what they carried, and no more of them are live. */
  ghost predicate OthersKept(srv: Server, srv': Server) {
    forall other: nat :: other in srv.sent ==>
      other in srv'.sent && srv'.sent[other] == srv.sent[other] && (Live(srv', other) ==> Live(srv, other))
  }

  lemma GreetedKeeps(srv: Server, seated: Server, history: seq<Envelope>, ws: nat, msgs: seq<Msg>)
    requires ServerOk(srv, history) && ws !in srv.sent
    requires Attaching(srv, seated, ws) && R.Faithful(seated.log, history)
    ensures var srv' := Greeted(seated, ws, msgs);
      ServerOk(srv', history) && OthersKept(srv, srv')
  {
    AttachingSockets(srv, seated, ws, msgs, seated.seqNo + |Resend(seated)|);
  }

  /** What a handshake does to the server. */
  lemma AttachKeeps(srv: Server, history: seq<Envelope>, ws: nat, resume: Option<Credentials>, sid: nat, key: nat,
                    t: Times)
    requires ServerOk(srv, history) && CanAttach(srv, ws, sid, key)
    ensures var srv' := Attach(srv, ws, resume, sid, key, t);
      ServerOk(srv', history) && srv'.seqNo == srv.seqNo + |Resend(srv)| && OthersKept(srv, srv')
  {
    var srv' := Attach(srv, ws, resume, sid, key, t);
    SeatedKeeps(srv, history, ws, resume, sid, key, t);
    SeatedSame(srv, ws, resume, sid, key, t);
    GreetedKeeps(srv, Seated(srv, ws, resume, sid, key, t), history, ws, srv'.sent[ws]);
  }

  /** What the new socket carries after a handshake. */
  lemma AttachSends(srv: Server, history: seq<Envelope>, ws: nat, resume: Option<Credentials>, sid: nat, key: nat,
                    t: Times)
    requires ServerOk(srv, history) && CanAttach(srv, ws, sid, key)
    ensures var srv' := Attach(srv, ws, resume, sid, key, t);
      && ws in srv'.sent && Shape(srv'.sent[ws])
      && var ack := srv'.sent[ws][0];
         && (ack.replay ==> resume.Some?)
         && srv'.sent[ws][1..]
            == Notes((if ack.replay then After(history, resume.value.lastSeen) else []) + Resend(srv))
  {
    DecideKeeps(srv, history, ws, resume, t);
    SeatedSame(srv, ws, resume, sid, key, t);
    Answered(Answer(srv, ws, resume, sid, key, t), Decide(srv, ws, resume, t).2 + Resend(srv));
  }

  lemma Answered(ack: Msg, envs: seq<Envelope>)
    requires ack.Ack?
    ensures var msgs := [ack] + Notes(envs);
      Shape(msgs) && msgs[0] == ack && msgs[1..] == Notes(envs)
  {
    NotesAreNotes(envs);
  }

  /** What one broadcast does to the sockets. */
  ghost predicate Fanned(srv: Server, srv': Server, env: Envelope, broken: set<nat>) {
    forall ws :: ws in srv.sent ==>
      && ws in srv'.sent
      && srv'.sent[ws] == (if Live(srv, ws) && ws !in broken then srv.sent[ws] + [Note(env)] else srv.sent[ws])
      && (Live(srv', ws) ==> Live(srv, ws) && ws !in broken)
  }

  lemma FanOutKeeps(srv: Server, history: seq<Envelope>, env: Envelope, broken: set<nat>)
    requires ServerOk(srv, history)
    ensures ServerOk(FanOut(srv, env, broken), history)
  {
    var srv' := FanOut(srv, env, broken);
    FanOutLoosens(srv, env, broken);
    LoosenedKeys(srv, srv');
    LoosenedSockets(srv, srv');
  }

  lemma FanOutLoosens(srv: Server, env: Envelope, broken: set<nat>)
    ensures Loosened(srv, FanOut(srv, env, broken))
  {
    var srv' := FanOut(srv, env, broken);
    assert srv'.sessions.Keys == srv.sessions.Keys && srv'.sent.Keys == srv.sent.Keys;
  }

  lemma FanOutSends(srv: Server, env: Envelope, broken: set<nat>)
    ensures Fanned(srv, FanOut(srv, env, broken), env, broken)
  {
    var srv' := FanOut(srv, env, broken);
    forall ws: nat | ws in srv.sent && Live(srv', ws)
      ensures Live(srv, ws) && ws !in broken
    {
      var a :| a in srv'.sessions && a !in {} && srv'.sessions[a].ws == Some(ws);
      assert srv.sessions[a].ws == Some(ws);
    }
  }

  lemma RecordKeeps(srv: Server, history: seq<Envelope>, env: Envelope, nowMs: int, pruneMs: int)
    requires ServerOk(srv, history) && Durable(env)
    ensures ServerOk(Record(srv, env, nowMs, pruneMs), history + [Sequenced(srv, env, nowMs)])
  {
    var env' := Sequenced(srv, env, nowMs);
    R.AppendFaithful(srv.log, history, env', pruneMs);
    PruneKeepsLast(srv.log.(lastSeq := env'.Seq(), entries := srv.log.entries + [env']), pruneMs);
  }

  // ---- steps of the world --------------------------------------------------------------

  /** What one broadcast of `env` does to a stream, whether or not it reaches it. */
  predicate Carried(w: World, w': World, env: Envelope, stream: seq<Envelope>) {
    && Covers(stream, w'.history) && LastSeq(stream) <= w'.srv.seqNo
    && (UpToDate(stream, w.history) ==>
          var heard := Hear(stream, Note(env));
          Covers(heard, w'.history) && LastSeq(heard) <= w'.srv.seqNo && UpToDate(heard, w'.history))
  }

  lemma StreamUnderPublish(w: World, step: Step, stream: seq<Envelope>)
    requires Inv(w) && step.Publish? && Enabled(w, step)
    requires Covers(stream, w.history) && LastSeq(stream) <= w.srv.seqNo
    ensures Carried(w, Apply(w, step), Sequenced(w.srv, step.env, step.nowMs), stream)
  {
    var env := Sequenced(w.srv, step.env, step.nowMs);
    if Durable(step.env) {
      HistoryGrows(stream, w.history, env);
      if UpToDate(stream, w.history) {
        OlderThanNext(w.srv, w.history);
        ExtendByNewer(stream, w.history, env);
        assert (stream + [env])[|stream|] == env;
        HistoryGrows(stream + [env], w.history, env);
      }
    }
  }

  lemma OlderThanNext(srv: Server, history: seq<Envelope>)
    requires ServerOk(srv, history)
    ensures Increasing(history) && LastSeq(history) <= srv.seqNo
    ensures forall e :: e in history ==> e.Seq() <= srv.seqNo
  {
    var dropped :| R.Agrees(srv.log, history, dropped);
    IncreasingUpToLast(history);
  }

  lemma PublishKeepsServer(w: World, step: Step)
    requires Inv(w) && step.Publish? && Enabled(w, step)
    ensures ServerOk(Apply(w, step).srv, Apply(w, step).history)
    ensures Fanned(w.srv, Apply(w, step).srv, Sequenced(w.srv, step.env, step.nowMs), step.broken)
  {
    var env := Sequenced(w.srv, step.env, step.nowMs);
    var mid := Record(w.srv, step.env, step.nowMs, step.pruneMs);
    if Durable(step.env) {
      RecordKeeps(w.srv, w.history, step.env, step.nowMs, step.pruneMs);
    }
    assert mid.sessions == w.srv.sessions && mid.sent == w.srv.sent;
    FanOutKeeps(mid, Apply(w, step).history, env, step.broken);
    FanOutSends(mid, env, step.broken);
  }

  lemma ClientUnderPublish(w: World, w': World, env: Envelope, broken: set<nat>)
    requires ClientOk(w.srv, w.history, w.client) && w'.client == w.client
    requires Fanned(w.srv, w'.srv, env, broken)
    requires Carried(w, w', env, w.client.received)
    requires w.client.link.Some? ==> Carried(w, w', env, Ahead(w.srv, w.client))
    ensures ClientOk(w'.srv, w'.history, w'.client)
  {
    var c := w.client;
    if c.link.Some? {
      var ws := c.link.value;
      if Live(w.srv, ws) && ws !in broken {
        var left := w.srv.sent[ws][c.cursor..];
        assert w'.srv.sent[ws][c.cursor..] == left + [Note(env)];
        HeardAppend(c.received, left, [Note(env)]);
        assert [Note(env)][1..] == [];
        assert Ahead(w'.srv, c) == Hear(Ahead(w.srv, c), Note(env));
      } else {
        assert Ahead(w'.srv, c) == Ahead(w.srv, c);
      }
    }
  }

  lemma PublishKeeps(w: World, step: Step)
    requires Inv(w) && step.Publish? && Enabled(w, step)
    ensures Inv(Apply(w, step))
  {
    PublishKeepsServer(w, step);
    StreamUnderPublish(w, step, w.client.received);
    if w.client.link.Some? {
      StreamUnderPublish(w, step, Ahead(w.srv, w.client));
    }
    ClientUnderPublish(w, Apply(w, step), Sequenced(w.srv, step.env, step.nowMs), step.broken);
  }

  lemma DeliverKeeps(w: World)
    requires Inv(w) && Enabled(w, Deliver)
    ensures Inv(Apply(w, Deliver))
  {
    var c := w.client;
    var msgs := w.srv.sent[c.link.value];
    var c' := Apply(w, Deliver).client;
    var left := msgs[c.cursor..];
    assert left[0] == msgs[c.cursor] && left[1..] == msgs[c'.cursor..];
    assert Ahead(w.srv, c') == Ahead(w.srv, c);
    if c.cursor > 0 {
      HeardExtends(c'.received, msgs[c'.cursor..]);
      PrefixCovers(c'.received, Ahead(w.srv, c), w.history);
    }
  }

  lemma NewLink(srv: Server, history: seq<Envelope>, c: Client, ws: nat)
    requires Covers(c.received, history) && LastSeq(c.received) <= srv.seqNo
    requires ws in srv.sent && Shape(srv.sent[ws])
    requires var stream := Heard(c.received, srv.sent[ws]);
      Covers(stream, history) && UpToDate(stream, history) && LastSeq(stream) <= srv.seqNo
    ensures ClientOk(srv, history, c.(link := Some(ws), cursor := 0))
  {
    assert srv.sent[ws][0..] == srv.sent[ws];
  }

  lemma ReconnectKeeps(srv: Server, history: seq<Envelope>, c: Client, ws: nat, sid: nat, key: nat, t: Times)
    requires ServerOk(srv, history) && Covers(c.received, history) && LastSeq(c.received) <= srv.seqNo
    requires CanAttach(srv, ws, sid, key)
    ensures var srv' := Attach(srv, ws, Presented(c), sid, key, t);
      ServerOk(srv', history) && ClientOk(srv', history, c.(link := Some(ws), cursor := 0))
  {
    var srv' := Attach(srv, ws, Presented(c), sid, key, t);
    AttachKeeps(srv, history, ws, Presented(c), sid, key, t);
    AttachSends(srv, history, ws, Presented(c), sid, key, t);
    OlderThanNext(srv, history);
    AfterHandshake(srv.seqNo, Resend(srv), history, c.received, srv'.sent[ws]);
    NewLink(srv', history, c, ws);
  }

  /** After the answer, the rest of a new socket is the tail and the snapshot. */
  lemma HeardAfterAck(base: seq<Envelope>, tail: seq<Envelope>, resend: seq<Envelope>, received: seq<Envelope>,
                      msgs: seq<Msg>)
    requires Shape(msgs) && base == (if msgs[0].replay then received else [])
    requires msgs[1..] == Notes(tail + resend)
    requires forall e :: e in tail + resend ==> e.seqNo.Some?
    ensures Heard(received, msgs) == base + tail + resend
  {
    HeardNotes(base, tail + resend);
    assert base + (tail + resend) == base + tail + resend;
  }

  lemma TailBearsSeqs(history: seq<Envelope>, tail: seq<Envelope>, since: nat, resend: seq<Envelope>)
    requires Increasing(history) && (tail == After(history, since) || tail == [])
    requires |resend| <= 1 && (resend != [] ==> resend[0].seqNo.Some?)
    ensures forall e :: e in tail + resend ==> e.seqNo.Some?
  {
    AfterIncreasing(history, since);
    assert Increasing(tail);
    forall e | e in tail + resend
      ensures e.seqNo.Some?
    {
      if e in tail {
        var i :| 0 <= i < |tail| && tail[i] == e;
      }
    }
  }

  lemma AfterHandshake(seqNo: nat, resend: seq<Envelope>, history: seq<Envelope>, received: seq<Envelope>,
                       msgs: seq<Msg>)
    requires Covers(received, history) && LastSeq(received) <= seqNo
    requires Increasing(history) && LastSeq(history) <= seqNo
    requires |resend| <= 1 && (resend != [] ==> resend[0].seqNo == Some(seqNo + 1))
    requires Shape(msgs)
    requires msgs[1..] == Notes((if msgs[0].replay then After(history, LastSeq(received)) else []) + resend)
    ensures var stream := Heard(received, msgs);
      Covers(stream, history) && UpToDate(stream, history) && LastSeq(stream) <= seqNo + |resend|
  {
    var tail := if msgs[0].replay then After(history, LastSeq(received)) else [];
    var base := if msgs[0].replay then received else [];
    TailBearsSeqs(history, tail, LastSeq(received), resend);
    HeardAfterAck(base, tail, resend, received, msgs);
    if msgs[0].replay {
      ExtendByReplay(received, history, resend, seqNo);
    } else {
      assert base + tail + resend == resend;
      FreshStream(history, resend, seqNo);
    }
  }

  lemma StepKeeps(w: World, step: Step)
    requires Inv(w)
    ensures Inv(Apply(w, step))
  {
    if Enabled(w, step) {
      match step
      case Publish(_, _, _, _) => PublishKeeps(w, step);
      case Unhook(sid) => DetachKeeps(w.srv, w.history, sid);
      case OtherAttach(ws, resume, sid, key, t) => AttachKeeps(w.srv, w.history, ws, resume, sid, key, t);
      case Reconnect(ws, sid, key, t) => ReconnectKeeps(w.srv, w.history, w.client, ws, sid, key, t);
      case Deliver => DeliverKeeps(w);
      case Lose =>
    }
  }

  lemma {:induction false} RunKeeps(w: World, steps: seq<Step>)
    requires Inv(w)
    ensures Inv(Run(w, steps))
    decreases |steps|
  {
    if steps != [] {
      StepKeeps(w, steps[0]);
      RunKeeps(Apply(w, steps[0]), steps[1..]);
    }
  }

  lemma StartOk()
    ensures Inv(START)
  {
    assert R.Agrees(R.EMPTY, [], []);
  }

  /** The client has handled all that its socket carries, and the server still sends on it. */
  ghost predicate CaughtUp(srv: Server, c: Client) {
    && c.link.Some? && Live(srv, c.link.value)
    && c.link.value in srv.sent && c.cursor == |srv.sent[c.link.value]|
  }

  /** Gap-free resume: in every run, what the client has received in its session is strictly increasing and has
      every logged envelope after the first one it received, up to the last; once it has handled all that a live
      socket carries, it has every logged envelope after the first, without exception. */
  lemma GapFree(steps: seq<Step>)
    ensures var w := Run(START, steps);
      && Covers(w.client.received, w.history)
      && (CaughtUp(w.srv, w.client) ==> UpToDate(w.client.received, w.history))
  {
    StartOk();
    RunKeeps(START, steps);
    var w := Run(START, steps);
    if CaughtUp(w.srv, w.client) {
      NothingAhead(w.srv, w.client);
    }
  }

  lemma NothingAhead(srv: Server, c: Client)
    requires CaughtUp(srv, c)
    ensures Ahead(srv, c) == c.received
  {
    assert srv.sent[c.link.value][c.cursor..] == [];
  }

  /** When a resume is granted: exactly if the key names a session within its lifetime, the seq is not negative,
      and nothing after it has been dropped from the log. */
  ghost predicate Grantable(srv: Server, resume: Option<Credentials>, t: Times, dropped: seq<Envelope>)
    requires KeysOk(srv)
  {
    && resume.Some? && resume.value.key in srv.byKey
    && t.resumeMs - srv.sessions[srv.byKey[resume.value.key]].createdAtMs <= RESUME_KEY_TTL_MS
    && resume.value.lastSeen >= 0
    && forall d :: d in dropped ==> d.Seq() <= resume.value.lastSeen
  }

  lemma DecideGrants(srv: Server, history: seq<Envelope>, ws: nat, resume: Option<Credentials>, t: Times,
                     dropped: seq<Envelope>)
    requires KeysOk(srv) && R.Agrees(R.Pruned(srv.log, t.pruneMs), history, dropped)
    ensures var kept := Decide(srv, ws, resume, t).1;
      && (kept.Some? <==> Grantable(srv, resume, t, dropped))
      && (kept.Some? ==> kept == Some(srv.byKey[resume.value.key]))
  {
    if resume.Some? && Resume(srv, resume.value.key, ws, t.resumeMs).1.Some? {
      R.TailComplete(srv.log, history, dropped, resume.value.lastSeen, t.pruneMs);
    }
  }

  /** A handshake says replay=true, for the old session, exactly when the resume can be granted; otherwise it
      says replay=false for a new session with a new key. */
  lemma ReplayGranted(steps: seq<Step>, ws: nat, resume: Option<Credentials>, sid: nat, key: nat, t: Times,
                      dropped: seq<Envelope>)
    requires var w := Run(START, steps);
      CanAttach(w.srv, ws, sid, key) && R.Agrees(R.Pruned(w.srv.log, t.pruneMs), w.history, dropped)
    ensures var srv := Run(START, steps).srv;
      var srv' := Attach(srv, ws, resume, sid, key, t);
      && ws in srv'.sent && srv'.sent[ws] != []
      && srv'.sent[ws][0] == if Grantable(srv, resume, t, dropped)
                             then Ack(srv.byKey[resume.value.key], resume.value.key, true)
                             else Ack(sid, key, false)
  {
    var w := Run(START, steps);
    DecideGrants(w.srv, w.history, ws, resume, t, dropped);
  }

  // ---- the state snapshot --------------------------------------------------------------

  /** A state that only flashes: SUCCESS or ERROR. */
  predicate Flash(env: Envelope) { env.kind == "state" && (env.state == "SUCCESS" || env.state == "ERROR") }

  /** The newest logged state that is not a flash. */
  function LastSteady(history: seq<Envelope>): Option<Envelope> {
    if history == [] then None
    else
      var last := history[|history| - 1];
      if last.kind == "state" && !Flash(last) then Some(last) else LastSteady(history[..|history| - 1])
  }

  lemma NextSteady(history: seq<Envelope>, env: Envelope)
    ensures LastSteady(history + [env])
         == if env.kind == "state" && !Flash(env) then Some(env) else LastSteady(history)
  {
    assert (history + [env])[..|history|] == history;
  }

  lemma AttachKeepsSnapshot(srv: Server, ws: nat, resume: Option<Credentials>, sid: nat, key: nat, t: Times)
    requires KeysOk(srv)
    ensures Attach(srv, ws, resume, sid, key, t).snapshot == srv.snapshot
  {
  }

  lemma StepSnapshot(w: World, step: Step)
    requires w.srv.snapshot == LastSteady(w.history)
    ensures Apply(w, step).srv.snapshot == LastSteady(Apply(w, step).history)
  {
    if Enabled(w, step) {
      match step
      case Publish(env, nowMs, _, _) => NextSteady(w.history, Sequenced(w.srv, env, nowMs));
      case OtherAttach(ws, resume, sid, key, t) => AttachKeepsSnapshot(w.srv, ws, resume, sid, key, t);
      case Reconnect(ws, sid, key, t) => AttachKeepsSnapshot(w.srv, ws, Presented(w.client), sid, key, t);
      case _ =>
    }
  }

  lemma {:induction false} RunSnapshot(w: World, steps: seq<Step>)
    requires w.srv.snapshot == LastSteady(w.history)
    ensures Run(w, steps).srv.snapshot == LastSteady(Run(w, steps).history)
    decreases |steps|
  {
    if steps != [] {
      StepSnapshot(w, steps[0]);
      RunSnapshot(Apply(w, steps[0]), steps[1..]);
    }
  }

  /** What a handshake re-sends is, in every run, the newest state ever logged that is not transient. */
  lemma SnapshotIsLastSteady(steps: seq<Step>)
    ensures Run(START, steps).srv.snapshot == LastSteady(Run(START, steps).history)
  {
    RunSnapshot(START, steps);
  }

  // ---- SUCCESS and ERROR flashes in a handshake ----------------------------------------

  ghost predicate CarriesFlash(msgs: seq<Msg>) {
    exists i :: 0 <= i < |msgs| && msgs[i].Note? && Flash(msgs[i].env)
  }

  lemma {:induction false} SteadyIsNoFlash(history: seq<Envelope>)
    ensures LastSteady(history).Some? ==> LastSteady(history).value.kind == "state" && !Flash(LastSteady(history).value)
    decreases |history|
  {
    if history != [] {
      SteadyIsNoFlash(history[..|history| - 1]);
    }
  }

  /** The messages of a handshake carry a flash exactly if the envelopes sent in it do. */
  lemma FlashInNotes(msgs: seq<Msg>, tail: seq<Envelope>, resend: seq<Envelope>)
    requires Shape(msgs) && msgs[1..] == Notes(tail + resend)
    requires |resend| <= 1 && (resend != [] ==> !Flash(resend[0]))
    ensures CarriesFlash(msgs) <==> exists e :: e in tail && Flash(e)
  {
    var envs := tail + resend;
    NotesAreNotes(envs);
    assert forall i :: 0 < i < |msgs| ==> msgs[i] == msgs[1..][i - 1] == Note(envs[i - 1]);
    if CarriesFlash(msgs) {
      var i :| 0 <= i < |msgs| && msgs[i].Note? && Flash(msgs[i].env);
      assert msgs[i].env == tail[i - 1];
    }
    if e :| e in tail && Flash(e) {
      var i :| 0 <= i < |tail| && tail[i] == e;
      assert msgs[i + 1] == Note(envs[i]) == Note(e);
    }
  }

  lemma FlashFrom(srv: Server, history: seq<Envelope>, ws: nat, resume: Option<Credentials>, sid: nat, key: nat,
                  t: Times)
    requires ServerOk(srv, history) && CanAttach(srv, ws, sid, key) && srv.snapshot == LastSteady(history)
    ensures var msgs := Attach(srv, ws, resume, sid, key, t).sent[ws];
      && Shape(msgs) && (msgs[0].replay ==> resume.Some?)
      && (CarriesFlash(msgs) <==>
            msgs[0].replay && exists e :: e in history && e.Seq() > resume.value.lastSeen && Flash(e))
  {
    AttachSends(srv, history, ws, resume, sid, key, t);
    SteadyIsNoFlash(history);
    var msgs := Attach(srv, ws, resume, sid, key, t).sent[ws];
    var tail := if msgs[0].replay then After(history, resume.value.lastSeen) else [];
    FlashInNotes(msgs, tail, Resend(srv));
    if msgs[0].replay {
      AfterMembers(history, resume.value.lastSeen);
    }
  }

  /** In every run, a handshake carries a flash exactly if it says replay=true and one was logged after `lastSeen`. */
  lemma FlashByAnswer(steps: seq<Step>, ws: nat, resume: Option<Credentials>, sid: nat, key: nat, t: Times)
    requires CanAttach(Run(START, steps).srv, ws, sid, key)
    ensures var w := Run(START, steps);
      var msgs := Attach(w.srv, ws, resume, sid, key, t).sent[ws];
      && Shape(msgs) && (msgs[0].replay ==> resume.Some?)
      && (CarriesFlash(msgs) <==>
            msgs[0].replay && exists e :: e in w.history && e.Seq() > resume.value.lastSeen && Flash(e))
  {
    StartOk();
    RunKeeps(START, steps);
    SnapshotIsLastSteady(steps);
    FlashFrom(Run(START, steps).srv, Run(START, steps).history, ws, resume, sid, key, t);
  }

  /** When a resume replays a SUCCESS or ERROR flash, in every run: exactly if it can be granted and such a state has
      been logged after the seq that the client presents. A fresh session never gets one. */
  lemma FlashReplayed(steps: seq<Step>, ws: nat, resume: Option<Credentials>, sid: nat, key: nat, t: Times,
                      dropped: seq<Envelope>)
    requires var w := Run(START, steps);
      CanAttach(w.srv, ws, sid, key) && R.Agrees(R.Pruned(w.srv.log, t.pruneMs), w.history, dropped)
    ensures var w := Run(START, steps);
      CarriesFlash(Attach(w.srv, ws, resume, sid, key, t).sent[ws])
      <==> Grantable(w.srv, resume, t, dropped)
           && exists e :: e in w.history && e.Seq() > resume.value.lastSeen && Flash(e)
  {
    FlashByAnswer(steps, ws, resume, sid, key, t);
    ReplayGranted(steps, ws, resume, sid, key, t, dropped);
  }
}
