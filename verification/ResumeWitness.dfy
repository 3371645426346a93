/** A run in which a resume replays a SUCCESS state. */
module ResumeWitness {
  import opened Prelude
  import opened Envelopes
  import opened Sessions
  import opened Resume
  import R = ReplayLog

  function StateOf(name: string, seqNo: Option<nat>, ts: Option<int>): Envelope {
    Envelope("state", name, 0, None, seqNo, ts)
  }

  const NOW := Times(0, 0, 0)

  /** The core starts in IDLE, a client connects and receives everything, and its socket dies. */
  function ConnectAndLose(): seq<Step> {
    [Publish(StateOf("IDLE", None, None), 0, 0, {})]
    + ([Reconnect(0, 0, 0, NOW)] + ([Deliver] + ([Deliver] + ([Lose] + []))))
  }

  lemma RunStep(w: World, step: Step, rest: seq<Step>)
    ensures Run(w, [step] + rest) == Run(Apply(w, step), rest)
  {
    assert ([step] + rest)[1..] == rest;
  }

  lemma KeptYoung(entries: seq<Envelope>, lastSeq: nat)
    requires |entries| <= 2 && forall i :: 0 <= i < |entries| ==> entries[i].ts == Some(0)
    ensures R.Pruned(R.Log(entries, lastSeq, 0), 0) == R.Log(entries, lastSeq, 0)
  {
  }

  lemma Started(w: World)
    requires w == START
    ensures var idle := StateOf("IDLE", Some(1), Some(0));
      Apply(w, Publish(StateOf("IDLE", None, None), 0, 0, {}))
      == World(Server(map[], map[], 1, R.Log([idle], 1, 0), Some(idle), map[]), [idle], w.client)
  {
    var idle := StateOf("IDLE", Some(1), Some(0));
    assert "state" in DURABLE_TYPES;
    KeptYoung([idle], 1);
    assert Record(w.srv, StateOf("IDLE", None, None), 0, 0).log == R.Log([idle], 1, 0);
  }

  /** One session with key 0 on socket 0, which has carried the answer and the IDLE snapshot. */
  predicate Connected(srv: Server) {
    && srv.sessions == map[0 := Session(0, Some(0), 0)] && srv.byKey == map[0 := 0] && srv.seqNo == 2
    && srv.log == R.Log([StateOf("IDLE", Some(1), Some(0))], 1, 0)
    && srv.snapshot == Some(StateOf("IDLE", Some(1), Some(0)))
    && srv.sent == map[0 := [Ack(0, 0, false), Note(StateOf("IDLE", Some(2), None))]]
  }

  lemma Connects(w: World)
    requires var idle := StateOf("IDLE", Some(1), Some(0));
      w == World(Server(map[], map[], 1, R.Log([idle], 1, 0), Some(idle), map[]), [idle], Client(None, 0, [], None))
    ensures var w' := Apply(w, Reconnect(0, 0, 0, NOW));
      Connected(w'.srv) && w'.client == Client(Some(0), 0, [], None)
  {
    var resend := StateOf("IDLE", Some(2), None);
    SeatedSame(w.srv, 0, None, 0, 0, NOW);
    assert [] + Resend(w.srv) == [resend];
    NotesAreNotes([resend]);
    assert Notes([resend]) == [Note(resend)];
    assert [Ack(0, 0, false)] + [Note(resend)] == [Ack(0, 0, false), Note(resend)];
  }

  lemma HearsAll(w: World)
    requires Connected(w.srv) && w.client == Client(Some(0), 0, [], None)
    ensures var w' := Apply(Apply(Apply(w, Deliver), Deliver), Lose);
      w'.srv == w.srv && w'.client == Client(None, 2, [StateOf("IDLE", Some(2), None)], Some(0))
  {
    var w1 := Apply(w, Deliver);
    assert w1.client == Client(Some(0), 1, [], Some(0));
    assert [] + [StateOf("IDLE", Some(2), None)] == [StateOf("IDLE", Some(2), None)];
  }

  lemma Lost(w: World)
    requires w == START
    ensures var w' := Run(w, ConnectAndLose());
      Connected(w'.srv) && w'.client == Client(None, 2, [StateOf("IDLE", Some(2), None)], Some(0))
  {
    var p, c := Publish(StateOf("IDLE", None, None), 0, 0, {}), Reconnect(0, 0, 0, NOW);
    var w1 := Apply(w, p);
    Started(w);
    var w2 := Apply(w1, c);
    Connects(w1);
    HearsAll(w2);
    RunStep(w, p, [c] + ([Deliver] + ([Deliver] + ([Lose] + []))));
    RunStep(w1, c, [Deliver] + ([Deliver] + ([Lose] + [])));
    RunStep(w2, Deliver, [Deliver] + ([Lose] + []));
    RunStep(Apply(w2, Deliver), Deliver, [Lose] + []);
    RunStep(Apply(Apply(w2, Deliver), Deliver), Lose, []);
  }

  lemma Succeeds(w: World)
    requires Connected(w.srv)
    ensures var srv := Apply(w, Publish(StateOf("SUCCESS", None, None), 0, 0, {})).srv;
      && srv.sessions == w.srv.sessions && srv.byKey == w.srv.byKey && srv.sent.Keys == {0} && srv.seqNo == 3
      && srv.log == R.Log([StateOf("IDLE", Some(1), Some(0)), StateOf("SUCCESS", Some(3), Some(0))], 3, 0)
      && srv.snapshot == w.srv.snapshot
  {
    var success := StateOf("SUCCESS", None, None);
    var srv := Record(w.srv, success, 0, 0);
    var entries := [StateOf("IDLE", Some(1), Some(0)), StateOf("SUCCESS", Some(3), Some(0))];
    assert w.srv.log.entries + [Sequenced(w.srv, success, 0)] == entries;
    KeptYoung(entries, 3);
    var srv' := FanOut(srv, Sequenced(w.srv, success, 0), {});
    assert srv'.sessions == w.srv.sessions;
  }

  lemma Resumes(srv: Server)
    requires srv.sessions == map[0 := Session(0, Some(0), 0)] && srv.byKey == map[0 := 0] && srv.seqNo == 3
    requires srv.log == R.Log([StateOf("IDLE", Some(1), Some(0)), StateOf("SUCCESS", Some(3), Some(0))], 3, 0)
    requires srv.snapshot == Some(StateOf("IDLE", Some(1), Some(0)))
    ensures KeysOk(srv)
    ensures Attach(srv, 1, Some(Credentials(0, 2)), 1, 1, NOW).sent[1]
         == [Ack(0, 0, true), Note(StateOf("SUCCESS", Some(3), Some(0))), Note(StateOf("IDLE", Some(4), None))]
  {
    var success := StateOf("SUCCESS", Some(3), Some(0));
    KeptYoung(srv.log.entries, 3);
    assert srv.log.entries[1..] == [success] && srv.log.entries[1..][1..] == [];
    assert After(srv.log.entries, 2) == [success];
    assert [success] + [StateOf("IDLE", Some(4), None)] == [success, StateOf("IDLE", Some(4), None)];
    NotesAreNotes([success, StateOf("IDLE", Some(4), None)]);
  }

  /** SUCCESS is published while the client is away; its resume replays it, and the IDLE snapshot follows. */
  lemma ResumeReplaysSuccess()
    ensures var w := Run(START, ConnectAndLose());
      var w1 := Apply(w, Publish(StateOf("SUCCESS", None, None), 0, 0, {}));
      var w2 := Apply(w1, Reconnect(1, 1, 1, NOW));
      1 in w2.srv.sent && w2.srv.sent[1]
      == [Ack(0, 0, true), Note(StateOf("SUCCESS", Some(3), Some(0))), Note(StateOf("IDLE", Some(4), None))]
  {
    var w := Run(START, ConnectAndLose());
    Lost(START);
    Succeeds(w);
    var w1 := Apply(w, Publish(StateOf("SUCCESS", None, None), 0, 0, {}));
    Resumes(w1.srv);
    assert Presented(w1.client) == Some(Credentials(0, 2));
    assert Enabled(w1, Reconnect(1, 1, 1, NOW));
  }
}
