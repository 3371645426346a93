/** Sessions, broadcast and attach: the server side of the resume protocol. */
module Sessions {
  import opened Prelude
  import opened Envelopes
  import R = ReplayLog

  const RESUME_KEY_TTL_MS := 24 * 3600 * 1000

  /** `ws` names the socket the session sends on, if it is connected. */
  datatype Session = Session(key: nat, ws: Option<nat>, createdAtMs: int)

  /** What goes out on a socket: the handshake answer, or an envelope. */
  datatype Msg = Ack(session: nat, key: nat, replay: bool) | Note(env: Envelope)

  /** The manager's fields, with everything handed to each socket so far. */
  datatype Server = Server(sessions: map<nat, Session>, byKey: map<nat, nat>, seqNo: nat,
                           log: R.Log, snapshot: Option<Envelope>, sent: map<nat, seq<Msg>>)

  const EMPTY := Server(map[], map[], 0, R.EMPTY, None, map[])

  ghost predicate KeysOk(srv: Server) {
    && (forall key :: key in srv.byKey ==>
          srv.byKey[key] in srv.sessions && srv.sessions[srv.byKey[key]].key == key)
    && (forall sid :: sid in srv.sessions ==>
          srv.sessions[sid].key in srv.byKey && srv.byKey[srv.sessions[sid].key] == sid)
  }

  ghost predicate Live(srv: Server, ws: nat) {
    Served(srv.sessions, ws, {})
  }

  /** Sockets are not shared between sessions, and each has seen a handshake. */
  ghost predicate SocketsOk(srv: Server) {
    && (forall sid :: sid in srv.sessions && srv.sessions[sid].ws.Some? ==> srv.sessions[sid].ws.value in srv.sent)
    && (forall a, b :: a in srv.sessions && b in srv.sessions && a != b && srv.sessions[a].ws.Some? ==>
          srv.sessions[a].ws != srv.sessions[b].ws)
  }

  // ---- session lifecycle ---------------------------------------------------------------

  function Create(srv: Server, ws: nat, sid: nat, key: nat, nowMs: int): Server {
    srv.(sessions := srv.sessions[sid := Session(key, Some(ws), nowMs)], byKey := srv.byKey[key := sid])
  }

  function Drop(srv: Server, sid: nat): Server {
    if sid !in srv.sessions then srv
    else srv.(sessions := srv.sessions - {sid}, byKey := srv.byKey - {srv.sessions[sid].key})
  }

  function Detach(srv: Server, sid: nat): Server {
    if sid !in srv.sessions then srv
    else srv.(sessions := srv.sessions[sid := srv.sessions[sid].(ws := None)])
  }

  function Resume(srv: Server, key: nat, ws: nat, nowMs: int): (Server, Option<nat>)
    requires KeysOk(srv)
  {
    if key !in srv.byKey then (srv, None)
    else
      var sid := srv.byKey[key];
      var session := srv.sessions[sid];
      if nowMs - session.createdAtMs > RESUME_KEY_TTL_MS then (Drop(srv, sid), None)
      else (srv.(sessions := srv.sessions[sid := session.(ws := Some(ws))]), Some(sid))
  }

  // ---- fan-out -------------------------------------------------------------------------

  predicate Transient(env: Envelope) { env.state in {"SUCCESS", "ERROR"} }

  /** The envelope as broadcast sends it: durable types get the next seq, and a time stamp if they have none. */
  function Sequenced(srv: Server, env: Envelope, nowMs: int): Envelope {
    if !Durable(env) then env
    else env.(seqNo := Some(srv.seqNo + 1), ts := if env.ts.Some? then env.ts else Some(nowMs))
  }

  function Record(srv: Server, env: Envelope, nowMs: int, pruneMs: int): Server {
    if !Durable(env) then srv
    else
      var env' := Sequenced(srv, env, nowMs);
      srv.(seqNo := srv.seqNo + 1,
           log := R.Appended(srv.log, env', pruneMs),
           snapshot := if env.kind == "state" && !Transient(env) then Some(env') else srv.snapshot)
  }

  /** The sessions after a send to each of them but `todo`: those whose socket is in `broken` are detached. */
  function SessionsAfter(sessions: map<nat, Session>, broken: set<nat>, todo: set<nat>): map<nat, Session> {
    map sid | sid in sessions ::
      if sid !in todo && sessions[sid].ws.Some? && sessions[sid].ws.value in broken
      then sessions[sid].(ws := None) else sessions[sid]
  }

  /** Some session outside `todo` sends on `ws`. */
  ghost predicate Served(sessions: map<nat, Session>, ws: nat, todo: set<nat>) {
    exists sid :: sid in sessions && sid !in todo && sessions[sid].ws == Some(ws)
  }

  /** The sockets after a send to each session but `todo`: those in working order have got `msg`. */
  ghost function SentAfter(sessions: map<nat, Session>, sent: map<nat, seq<Msg>>, msg: Msg,
                           broken: set<nat>, todo: set<nat>): map<nat, seq<Msg>> {
    map ws | ws in sent :: if Served(sessions, ws, todo) && ws !in broken then sent[ws] + [msg] else sent[ws]
  }

  /** One send to every connected session; a session whose socket is in `broken` is detached instead. */
  ghost function FanOut(srv: Server, env: Envelope, broken: set<nat>): Server {
    srv.(sessions := SessionsAfter(srv.sessions, broken, {}),
         sent := SentAfter(srv.sessions, srv.sent, Note(env), broken, {}))
  }

  ghost function Broadcast(srv: Server, env: Envelope, nowMs: int, pruneMs: int, broken: set<nat>): Server {
    FanOut(Record(srv, env, nowMs, pruneMs), Sequenced(srv, env, nowMs), broken)
  }

  // ---- attach --------------------------------------------------------------------------

  datatype Credentials = Credentials(key: nat, lastSeen: int)

  /** Three readings of the clock, taken at resume, at prune and at create. */
  datatype Times = Times(resumeMs: int, pruneMs: int, createMs: int)

  /** The resume decision: the session to continue with its replay tail, or none. */
  function Decide(srv: Server, ws: nat, resume: Option<Credentials>, t: Times)
    : (Server, Option<nat>, seq<Envelope>)
    requires KeysOk(srv)
  {
    if resume.None? then (srv, None, [])
    else
      var (srv1, sid) := Resume(srv, resume.value.key, ws, t.resumeMs);
      if sid.None? then (srv1, None, [])
      else
        var (tail, log') := R.TailOf(srv1.log, resume.value.lastSeen, t.pruneMs);
        var srv2 := srv1.(log := log');
        if tail.None? then (Drop(srv2, sid.value), None, []) else (srv2, sid, tail.value)
  }

  function Notes(envs: seq<Envelope>): seq<Msg> {
    if envs == [] then [] else [Note(envs[0])] + Notes(envs[1..])
  }

  /** The state snapshot, re-sent under a seq of its own that the log never sees. */
  function Resend(srv: Server): seq<Envelope> {
    if srv.snapshot.None? then []
    else [Envelope("state", srv.snapshot.value.state, srv.snapshot.value.body, srv.snapshot.value.turn,
                   Some(srv.seqNo + 1), None)]
  }

  /** The part of a handshake before anything is sent; `sid` and `key` are the tokens drawn if a session is created. */
  function Seated(srv: Server, ws: nat, resume: Option<Credentials>, sid: nat, key: nat, t: Times): Server
    requires KeysOk(srv)
  {
    var (srv1, kept, tail) := Decide(srv, ws, resume, t);
    if kept.Some? then srv1 else Create(srv1, ws, sid, key, t.createMs)
  }

  function Answer(srv: Server, ws: nat, resume: Option<Credentials>, sid: nat, key: nat, t: Times): Msg
    requires KeysOk(srv)
  {
    var kept := Decide(srv, ws, resume, t).1;
    if kept.Some? then Ack(kept.value, resume.value.key, true) else Ack(sid, key, false)
  }

  /** What a handshake leaves behind when it has sent `msgs`, the snapshot among them, if there is one. */
  function Greeted(seated: Server, ws: nat, msgs: seq<Msg>): Server {
    seated.(sent := seated.sent[ws := msgs], seqNo := seated.seqNo + |Resend(seated)|)
  }

  /** A handshake on the new socket `ws`, as one step. */
  function Attach(srv: Server, ws: nat, resume: Option<Credentials>, sid: nat, key: nat, t: Times): Server
    requires KeysOk(srv)
  {
    var seated := Seated(srv, ws, resume, sid, key, t);
    Greeted(seated, ws, [Answer(srv, ws, resume, sid, key, t)] + Notes(Decide(srv, ws, resume, t).2 + Resend(seated)))
  }

  // ---- the object ----------------------------------------------------------------------

  class SessionManager {
    var sessions: map<nat, Session>
    var byKey: map<nat, nat>
    var seqNo: nat
    const replay: R.Replay
    var snapshot: Option<Envelope>
    var sent: map<nat, seq<Msg>>

    function View(): Server
      reads this, replay
    {
      Server(sessions, byKey, seqNo, replay.View(), snapshot, sent)
    }

    constructor ()
      ensures View() == EMPTY && fresh(replay)
    {
      sessions, byKey, seqNo, snapshot, sent := map[], map[], 0, None, map[];
      replay := new R.Replay();
    }

    method CreateSession(ws: nat, sid: nat, key: nat, nowMs: int)
      modifies this`sessions, this`byKey
      ensures View() == Create(old(View()), ws, sid, key, nowMs)
    {
      sessions := sessions[sid := Session(key, Some(ws), nowMs)];
      byKey := byKey[key := sid];
    }

    method ResumeSession(key: nat, ws: nat, nowMs: int) returns (sid: Option<nat>)
      requires KeysOk(View())
      modifies this`sessions, this`byKey
      ensures (View(), sid) == Resume(old(View()), key, ws, nowMs)
    {
      if key !in byKey { return None; }
      var id := byKey[key];
      var session := sessions[id];
      if nowMs - session.createdAtMs > RESUME_KEY_TTL_MS {
        DropSession(id);
        return None;
      }
      sessions := sessions[id := session.(ws := Some(ws))];
      return Some(id);
    }

    method DetachSession(sid: nat)
      modifies this`sessions
      ensures View() == Detach(old(View()), sid)
    {
      if sid in sessions {
        sessions := sessions[sid := sessions[sid].(ws := None)];
      }
    }

    method DropSession(sid: nat)
      modifies this`sessions, this`byKey
      ensures View() == Drop(old(View()), sid)
    {
      if sid in sessions {
        var session := sessions[sid];
        sessions := sessions - {sid};
        byKey := byKey - {session.key};
      }
    }

    method NextSeqForResend() returns (n: nat)
      modifies this`seqNo
      ensures n == seqNo == old(seqNo) + 1
    {
      seqNo := seqNo + 1;
      return seqNo;
    }

    method Send(ws: nat, msg: Msg)
      requires ws in sent
      modifies this`sent
      ensures sent == old(sent)[ws := old(sent)[ws] + [msg]]
    {
      sent := sent[ws := sent[ws] + [msg]];
    }

    /** `broken` is the set of sockets on which a send raises a connection error. */
    method BroadcastEnvelope(draft: Envelope, nowMs: int, pruneMs: int, broken: set<nat>)
      requires SocketsOk(View())
      modifies this, replay
      ensures View() == Broadcast(old(View()), draft, nowMs, pruneMs, broken)
    {
      var env := draft;
      if env.kind in DURABLE_TYPES {
        seqNo := seqNo + 1;
        env := env.(seqNo := Some(seqNo));
        if env.ts.None? {
          env := env.(ts := Some(nowMs));
        }
        replay.Append(env, pruneMs);
        if env.kind == "state" && env.state !in {"SUCCESS", "ERROR"} {
          snapshot := Some(env);
        }
      }
      assert View() == Record(old(View()), draft, nowMs, pruneMs) && env == Sequenced(old(View()), draft, nowMs);
      SendToAll(env, broken);
    }

    /** The loop of `broadcast` over the sessions, in whatever order the dictionary lists them. */
    method SendToAll(env: Envelope, broken: set<nat>)
      requires SocketsOk(View())
      modifies this`sessions, this`sent
      ensures View() == FanOut(old(View()), env, broken)
    {
      ghost var srv := View();
      ghost var msg := Note(env);
      var todo := sessions.Keys;
      NothingServed(srv, msg, broken);
      while todo != {}
        invariant todo <= srv.sessions.Keys
        invariant sessions == SessionsAfter(srv.sessions, broken, todo)
        invariant sent == SentAfter(srv.sessions, srv.sent, msg, broken, todo)
        decreases todo
      {
        var sid :| sid in todo;
        NextSession(srv.sessions, broken, todo, sid);
        NextSent(srv, msg, broken, todo, sid);
        todo := todo - {sid};
        var target := sessions[sid].ws;
        if target.None? {
          continue;
        }
        if target.value in broken {
          DetachSession(sid);
        } else {
          Send(target.value, Note(env));
        }
      }
    }

    /** The first half of `_attach`: which session continues, and with which tail. */
    method DecideResume(ws: nat, resume: Option<Credentials>, t: Times)
      returns (session: Option<nat>, tail: Option<seq<Envelope>>)
      requires KeysOk(View())
      modifies this`sessions, this`byKey, replay
      ensures var (srv, kept, replayed) := Decide(old(View()), ws, resume, t);
        View() == srv && session == kept && tail == if kept.Some? then Some(replayed) else None
    {
      session, tail := None, None;
      if resume.Some? {
        session := ResumeSession(resume.value.key, ws, t.resumeMs);
        if session.Some? {
          tail := replay.Tail(resume.value.lastSeen, t.pruneMs);
          if tail.None? {
            DropSession(session.value);
            session := None;
          }
        }
      }
    }

    method SendNotes(ws: nat, envs: seq<Envelope>)
      requires ws in sent
      modifies this`sent
      ensures sent == old(sent)[ws := old(sent)[ws] + Notes(envs)]
    {
      assert sent[ws] + [] == sent[ws];
      for i := 0 to |envs|
        invariant ws in sent
        invariant sent == old(sent)[ws := old(sent)[ws] + Notes(envs[..i])]
      {
        NotesAppend(envs[..i], [envs[i]]);
        assert envs[..i + 1] == envs[..i] + [envs[i]];
        assert old(sent)[ws] + Notes(envs[..i]) + [Note(envs[i])] == old(sent)[ws] + Notes(envs[..i + 1]);
        Send(ws, Note(envs[i]));
      }
      assert envs[..|envs|] == envs;
    }

    /** `_attach` on a new socket. */
    method AttachSocket(ws: nat, resume: Option<Credentials>, sid: nat, key: nat, t: Times)
      requires KeysOk(View()) && ws !in sent
      modifies this, replay
      ensures View() == Attach(old(View()), ws, resume, sid, key, t)
    {
      var session, tail := DecideResume(ws, resume, t);
      var me, myKey := sid, key;
      if session.None? {
        CreateSession(ws, sid, key, t.createMs);
      } else {
        me, myKey := session.value, resume.value.key;
      }
      assert View() == Seated(old(View()), ws, resume, sid, key, t);
      var ack := Ack(me, myKey, tail.Some?);
      assert ack == Answer(old(View()), ws, resume, sid, key, t);
      Greet(ws, ack, tail);
    }

    /** The second half of `_attach`: the answer, the replay tail and the snapshot. */
    method Greet(ws: nat, ack: Msg, tail: Option<seq<Envelope>>)
      modifies this`sent, this`seqNo
      ensures var replayed := if tail.Some? then tail.value else [];
        View() == Greeted(old(View()), ws, [ack] + Notes(replayed + Resend(old(View()))))
    {
      ghost var srv := View();
      sent := sent[ws := [ack]];
      if tail.Some? {
        SendNotes(ws, tail.value);
      }
      if snapshot.Some? {
        var n := NextSeqForResend();
        var resend := Envelope("state", snapshot.value.state, snapshot.value.body, snapshot.value.turn, Some(n), None);
        assert Resend(srv) == [resend];
        Send(ws, Note(resend));
      }
      HandshakeJoins(ack, if tail.Some? then tail.value else [], Resend(srv));
    }
  }

  lemma HandshakeJoins(ack: Msg, replayed: seq<Envelope>, resend: seq<Envelope>)
    requires |resend| <= 1
    ensures [ack] + Notes([]) == [ack]
    ensures [ack] + Notes(replayed) + [] == [ack] + Notes(replayed)
    ensures [ack] + Notes(replayed + resend)
         == [ack] + Notes(replayed) + (if resend == [] then [] else [Note(resend[0])])
  {
    NotesAppend(replayed, resend);
  }

  lemma NothingServed(srv: Server, msg: Msg, broken: set<nat>)
    ensures SessionsAfter(srv.sessions, broken, srv.sessions.Keys) == srv.sessions
    ensures SentAfter(srv.sessions, srv.sent, msg, broken, srv.sessions.Keys) == srv.sent
  {
  }

  lemma NextSession(sessions: map<nat, Session>, broken: set<nat>, todo: set<nat>, sid: nat)
    requires sid in todo && sid in sessions
    ensures var now, next := SessionsAfter(sessions, broken, todo), SessionsAfter(sessions, broken, todo - {sid});
      && now[sid] == sessions[sid]
      && next == if sessions[sid].ws.Some? && sessions[sid].ws.value in broken
                 then now[sid := sessions[sid].(ws := None)] else now
  {
  }

  lemma NextSent(srv: Server, msg: Msg, broken: set<nat>, todo: set<nat>, sid: nat)
    requires SocketsOk(srv) && sid in todo && sid in srv.sessions
    ensures var now := SentAfter(srv.sessions, srv.sent, msg, broken, todo);
      var next := SentAfter(srv.sessions, srv.sent, msg, broken, todo - {sid});
      var target := srv.sessions[sid].ws;
      if target.Some? && target.value !in broken
      then target.value in now && next == now[target.value := now[target.value] + [msg]]
      else next == now
  {
    forall ws: nat | ws in srv.sent
      ensures Served(srv.sessions, ws, todo - {sid})
         <==> Served(srv.sessions, ws, todo) || srv.sessions[sid].ws == Some(ws)
      ensures srv.sessions[sid].ws == Some(ws) ==> !Served(srv.sessions, ws, todo)
    {
      ServedNext(srv, sid, todo, ws);
    }
  }

  lemma ServedNext(srv: Server, sid: nat, todo: set<nat>, ws: nat)
    requires SocketsOk(srv) && sid in todo && sid in srv.sessions
    ensures Served(srv.sessions, ws, todo - {sid})
       <==> Served(srv.sessions, ws, todo) || srv.sessions[sid].ws == Some(ws)
    ensures srv.sessions[sid].ws == Some(ws) ==> !Served(srv.sessions, ws, todo)
  {
    if Served(srv.sessions, ws, todo) {
      var other :| other in srv.sessions && other !in todo && srv.sessions[other].ws == Some(ws);
      assert other !in todo - {sid};
    }
    if srv.sessions[sid].ws == Some(ws) {
      assert sid !in todo - {sid};
    }
  }

  lemma {:induction false} NotesAppend(a: seq<Envelope>, b: seq<Envelope>)
    ensures Notes(a + b) == Notes(a) + Notes(b)
  {
    if a == [] {
      assert a + b == b;
    } else {
      NotesAppend(a[1..], b);
      assert (a + b)[1..] == a[1..] + b;
    }
  }
}
