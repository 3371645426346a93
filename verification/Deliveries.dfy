/** What a broadcast and a handshake put on the sockets, in terms of what was published and of the log. */
module Deliveries {
  import opened Prelude
  import opened Envelopes
  import opened Sessions
  import opened Resume
  import R = ReplayLog

  /** `e` is `env` as it goes out: the same content; a durable type gets the next seq, and a time stamp if it had
      none. */
  predicate GoesOutAs(env: Envelope, e: Envelope, counter: nat, nowMs: int) {
    && e.kind == env.kind && e.state == env.state && e.body == env.body && e.turn == env.turn
    && if env.kind in {"state", "turn", "perception.status", "suggestion", "elicitation"}
       then e.seqNo == Some(counter + 1) && e.ts == if env.ts.Some? then env.ts else Some(nowMs)
       else e.seqNo == env.seqNo && e.ts == env.ts
  }

  /** Some session sends on socket `ws`. */
  ghost predicate InUse(srv: Server, ws: nat) {
    exists sid :: sid in srv.sessions && srv.sessions[sid].ws == Some(ws)
  }

  /** The socket gains `e`, once, if a session sends on it and it works; otherwise it is as it was. */
  ghost predicate Gains(srv: Server, srv': Server, ws: nat, e: Envelope, broken: set<nat>) {
    && ws in srv.sent && ws in srv'.sent
    && srv'.sent[ws] == if InUse(srv, ws) && ws !in broken then srv.sent[ws] + [Note(e)] else srv.sent[ws]
  }

  lemma InUseIsLive(srv: Server, ws: nat)
    ensures InUse(srv, ws) <==> Live(srv, ws)
  {
    if InUse(srv, ws) {
      var sid :| sid in srv.sessions && srv.sessions[sid].ws == Some(ws);
      assert sid !in {};
    }
  }

  /** One broadcast, durable or not: what was published is what goes out, to exactly the sockets in use that work; what
      joins the history, if it is durable, is the same envelope; and the sessions on failing sockets are detached. */
  lemma Published(w: World, env: Envelope, nowMs: int, pruneMs: int, broken: set<nat>) returns (e: Envelope)
    requires env.seqNo.None?
    ensures GoesOutAs(env, e, w.srv.seqNo, nowMs)
    ensures var w' := Apply(w, Publish(env, nowMs, pruneMs, broken));
      var durable := env.kind in {"state", "turn", "perception.status", "suggestion", "elicitation"};
      && w'.srv.sent.Keys == w.srv.sent.Keys
      && (forall ws :: ws in w.srv.sent ==> Gains(w.srv, w'.srv, ws, e, broken))
      && w'.history == (if durable then w.history + [e] else w.history)
      && w'.srv.seqNo == (if durable then w.srv.seqNo + 1 else w.srv.seqNo)
      && w'.srv.sessions.Keys == w.srv.sessions.Keys
      && forall sid :: sid in w.srv.sessions ==>
           var had := w.srv.sessions[sid].ws;
           w'.srv.sessions[sid]
           == if had.Some? && had.value in broken then w.srv.sessions[sid].(ws := None) else w.srv.sessions[sid]
  {
    e := Sequenced(w.srv, env, nowMs);
    var mid := Record(w.srv, env, nowMs, pruneMs);
    var w' := Apply(w, Publish(env, nowMs, pruneMs, broken));
    forall ws | ws in w.srv.sent
      ensures Gains(w.srv, w'.srv, ws, e, broken)
    {
      InUseIsLive(w.srv, ws);
      assert Live(mid, ws) == Live(w.srv, ws);
    }
  }

  /** After a handshake the session that the answer names sends on the new socket, under the key that the answer gives;
      a resumed session keeps its creation time and a new one has the clock's; and no other session has changed. */
  lemma AttachedIsServed(srv: Server, ws: nat, resume: Option<Credentials>, sid: nat, key: nat, t: Times)
    requires KeysOk(srv) && CanAttach(srv, ws, sid, key)
    ensures var srv' := Attach(srv, ws, resume, sid, key, t);
      && ws in srv'.sent && srv'.sent[ws] != [] && srv'.sent[ws][0].Ack?
      && var ack := srv'.sent[ws][0];
         && ack.session in srv'.sessions && ack.key in srv'.byKey && srv'.byKey[ack.key] == ack.session
         && srv'.sessions[ack.session].key == ack.key && srv'.sessions[ack.session].ws == Some(ws)
         && (if ack.replay
             then ack.session in srv.sessions
                  && srv'.sessions[ack.session].createdAtMs == srv.sessions[ack.session].createdAtMs
             else ack.session == sid && ack.key == key && srv'.sessions[sid].createdAtMs == t.createMs)
         && forall a :: a in srv'.sessions && a != ack.session ==>
              a in srv.sessions && srv'.sessions[a] == srv.sessions[a]
  {
    DecideServes(srv, ws, resume, t);
  }

  /** The only session that a handshake drops is the one that was to be resumed, and it drops it exactly if it
      refuses. */
  lemma RefusedIsDropped(srv: Server, ws: nat, resume: Option<Credentials>, sid: nat, key: nat, t: Times, a: nat)
    requires KeysOk(srv) && CanAttach(srv, ws, sid, key) && a in srv.sessions
    ensures var srv' := Attach(srv, ws, resume, sid, key, t);
      var asked := resume.Some? && resume.value.key == srv.sessions[a].key;
      && ws in srv'.sent && srv'.sent[ws] != [] && srv'.sent[ws][0].Ack?
      && (a in srv'.sessions <==> !asked || srv'.sent[ws][0].replay)
      && (srv.sessions[a].key in srv'.byKey <==> a in srv'.sessions)
  {
  }

  /** Detaching clears the socket of one session; dropping removes it with its key; nothing else changes. */
  lemma DetachAndDrop(srv: Server, sid: nat, a: nat)
    requires KeysOk(srv) && a in srv.sessions
    ensures var s' := Detach(srv, sid).sessions;
      && s'.Keys == srv.sessions.Keys && Detach(srv, sid).byKey == srv.byKey
      && s'[a] == if a == sid then Session(srv.sessions[a].key, None, srv.sessions[a].createdAtMs) else srv.sessions[a]
    ensures var srv' := Drop(srv, sid);
      && (a in srv'.sessions <==> a != sid) && (srv.sessions[a].key in srv'.byKey <==> a != sid)
      && (a != sid ==> srv'.sessions[a] == srv.sessions[a] && srv'.byKey[srv.sessions[a].key] == a)
  {
  }

  lemma DecideServes(srv: Server, ws: nat, resume: Option<Credentials>, t: Times)
    requires KeysOk(srv)
    ensures var (srv', kept, tail) := Decide(srv, ws, resume, t);
      && srv'.sessions.Keys <= srv.sessions.Keys
      && (kept.Some? ==>
            && resume.Some? && resume.value.key in srv.byKey && kept.value == srv.byKey[resume.value.key]
            && srv'.byKey == srv.byKey
            && srv'.sessions == srv.sessions[kept.value := srv.sessions[kept.value].(ws := Some(ws))])
      && (kept.None? ==> forall a :: a in srv'.sessions ==> srv'.sessions[a] == srv.sessions[a])
  {
  }

  /** The last thing that a handshake sends is the snapshot, if there is one: its state, content and turn, under the
      next seq, without a time stamp. */
  lemma SnapshotComesLast(srv: Server, ws: nat, resume: Option<Credentials>, sid: nat, key: nat, t: Times)
    requires KeysOk(srv) && srv.snapshot.Some?
    ensures var srv' := Attach(srv, ws, resume, sid, key, t);
      && ws in srv'.sent && |srv'.sent[ws]| >= 2 && srv'.seqNo == srv.seqNo + 1
      && var last := srv'.sent[ws][|srv'.sent[ws]| - 1];
         var was := srv.snapshot.value;
         && last.Note? && last.env.kind == "state" && last.env.state == was.state && last.env.body == was.body
         && last.env.turn == was.turn && last.env.seqNo == Some(srv.seqNo + 1) && last.env.ts == None
  {
    SeatedSame(srv, ws, resume, sid, key, t);
    NotesAreNotes(Decide(srv, ws, resume, t).2 + Resend(srv));
  }

  /** A resume can be granted, by key, age, sign, count and age of what it needs: the session is at most a day old,
      nothing after the seq presented has been dropped before, and pruning keeps every entry after it. */
  ghost predicate GrantableNow(srv: Server, resume: Option<Credentials>, t: Times)
    requires KeysOk(srv)
  {
    && resume.Some? && resume.value.key in srv.byKey
    && t.resumeMs - srv.sessions[srv.byKey[resume.value.key]].createdAtMs <= 86_400_000
    && 0 <= resume.value.lastSeen && NothingMissing(srv.log, resume.value.lastSeen, t.pruneMs)
  }

  /** Nothing after `since` has been dropped, or is dropped by pruning at `nowMs`. */
  ghost predicate NothingMissing(log: R.Log, since: int, nowMs: int) {
    && log.prunedBelow <= since
    && forall i :: 0 <= i < |log.entries| && log.entries[i].Seq() > since ==> R.Kept(log.entries, i, nowMs)
  }

  lemma DroppedByNow(log: R.Log, history: seq<Envelope>, nowMs: int, since: int) returns (dropped: seq<Envelope>)
    requires R.Faithful(log, history)
    ensures R.Agrees(R.Pruned(log, nowMs), history, dropped)
    ensures since >= 0 ==> ((forall d :: d in dropped ==> d.Seq() <= since) <==> NothingMissing(log, since, nowMs))
  {
    var before :| R.Agrees(log, history, before);
    var k := R.PrunesByCountAndAge(log, nowMs);
    dropped := before + log.entries[..k];
    DroppedAgrees(log, history, before, nowMs, k);
    if since >= 0 {
      NothingNewerDropped(log, history, before, nowMs, k, since);
    }
  }

  lemma DroppedAgrees(log: R.Log, history: seq<Envelope>, before: seq<Envelope>, nowMs: int, k: nat)
    requires R.Agrees(log, history, before) && k <= |log.entries|
    requires R.Pruned(log, nowMs).entries == log.entries[k..] && R.Pruned(log, nowMs).lastSeq == log.lastSeq
    requires R.Pruned(log, nowMs).prunedBelow == if k == 0 then log.prunedBelow else log.entries[k - 1].Seq()
    ensures R.Agrees(R.Pruned(log, nowMs), history, before + log.entries[..k])
  {
    assert log.entries == log.entries[..k] + log.entries[k..];
    Assoc(before, log.entries[..k], log.entries[k..]);
    if k == 0 {
      assert before + log.entries[..k] == before;
    }
  }

  lemma NothingNewerDropped(log: R.Log, history: seq<Envelope>, before: seq<Envelope>, nowMs: int, k: nat, since: int)
    requires R.Agrees(log, history, before) && 0 <= since
    requires k == |log.entries| - |R.Pruned(log, nowMs).entries|
    ensures (forall d :: d in before + log.entries[..k] ==> d.Seq() <= since) <==> NothingMissing(log, since, nowMs)
  {
    var dropped := before + log.entries[..k];
    forall i | 0 <= i < |log.entries|
      ensures i >= k <==> R.Kept(log.entries, i, nowMs)
    {
      R.SurvivesIffKept(log, nowMs, i);
    }
    BeforeIsOlder(log, history, before);
    if forall d :: d in dropped ==> d.Seq() <= since {
      forall i | 0 <= i < k ensures log.entries[i].Seq() <= since {
        assert dropped[|before| + i] == log.entries[i];
      }
      if before != [] {
        assert before[|before| - 1] in dropped;
      }
    }
  }

  lemma BeforeIsOlder(log: R.Log, history: seq<Envelope>, before: seq<Envelope>)
    requires R.Agrees(log, history, before)
    ensures forall d :: d in before ==> d.Seq() <= log.prunedBelow
  {
    assert forall i :: 0 <= i < |before| ==> before[i] == history[i];
  }

  /** In every run, a handshake says replay=true for the old session exactly if the resume can be granted in that sense,
      and otherwise replay=false for a new session with a new key. */
  lemma ReplayGrantedByAge(steps: seq<Step>, ws: nat, resume: Option<Credentials>, sid: nat, key: nat, t: Times)
    requires CanAttach(Run(START, steps).srv, ws, sid, key)
    ensures var srv := Run(START, steps).srv;
      var srv' := Attach(srv, ws, resume, sid, key, t);
      && ws in srv'.sent && srv'.sent[ws] != []
      && srv'.sent[ws][0] == if GrantableNow(srv, resume, t)
                             then Ack(srv.byKey[resume.value.key], resume.value.key, true)
                             else Ack(sid, key, false)
  {
    var w := Run(START, steps);
    StartOk();
    RunKeeps(START, steps);
    var dropped := DroppedByNow(w.srv.log, w.history, t.pruneMs, if resume.Some? then resume.value.lastSeen else 0);
    ReplayGranted(steps, ws, resume, sid, key, t, dropped);
    SameGrant(w.srv, resume, t, dropped);
  }

  lemma SameGrant(srv: Server, resume: Option<Credentials>, t: Times, dropped: seq<Envelope>)
    requires KeysOk(srv)
    requires resume.Some? && resume.value.lastSeen >= 0 ==>
      ((forall d :: d in dropped ==> d.Seq() <= resume.value.lastSeen)
       <==> NothingMissing(srv.log, resume.value.lastSeen, t.pruneMs))
    ensures Grantable(srv, resume, t, dropped) <==> GrantableNow(srv, resume, t)
  {
  }
}
