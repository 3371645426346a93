/** The bounded replay log, against the full history of everything ever appended to it. */
module ReplayLog {
  import opened Prelude
  import opened Envelopes

  const REPLAY_MAX_ENTRIES := 500
  const REPLAY_MAX_AGE_MS := 24 * 3600 * 1000

  datatype Log = Log(entries: seq<Envelope>, lastSeq: nat, prunedBelow: nat)

  const EMPTY := Log([], 0, 0)

  predicate Stale(entries: seq<Envelope>, nowMs: int) {
    entries != [] && (|entries| > REPLAY_MAX_ENTRIES || entries[0].Stamp() < nowMs - REPLAY_MAX_AGE_MS)
  }

  function Pruned(log: Log, nowMs: int): (log': Log)
    ensures |log'.entries| <= REPLAY_MAX_ENTRIES
    decreases |log.entries|
  {
    if Stale(log.entries, nowMs)
    then Pruned(log.(entries := log.entries[1..], prunedBelow := log.entries[0].Seq()), nowMs)
    else log
  }

  function Appended(log: Log, env: Envelope, nowMs: int): Log
    requires env.seqNo.Some?
  {
    Pruned(log.(lastSeq := env.Seq(), entries := log.entries + [env]), nowMs)
  }

  /** `tail`: the answer, and the log that its pruning leaves behind. */
  function TailOf(log: Log, since: int, nowMs: int): (Option<seq<Envelope>>, Log) {
    var log' := Pruned(log, nowMs);
    (if since >= log'.lastSeq then Some([])
     else if since < log'.prunedBelow then None
     else Some(After(log'.entries, since)),
     log')
  }

  class Replay {
    var entries: seq<Envelope>
    var lastSeq: nat
    var prunedBelow: nat

    function View(): Log
      reads this
    {
      Log(entries, lastSeq, prunedBelow)
    }

    constructor ()
      ensures View() == EMPTY
    {
      entries, lastSeq, prunedBelow := [], 0, 0;
    }

    method Append(env: Envelope, nowMs: int)
      requires env.seqNo.Some?
      modifies this
      ensures View() == Appended(old(View()), env, nowMs)
    {
      lastSeq := env.Seq();
      entries := entries + [env];
      Prune(nowMs);
    }

    method Prune(nowMs: int)
      modifies this
      ensures View() == Pruned(old(View()), nowMs)
    {
      var cutoff := nowMs - REPLAY_MAX_AGE_MS;
      while entries != [] && (|entries| > REPLAY_MAX_ENTRIES || entries[0].Stamp() < cutoff)
        invariant Pruned(View(), nowMs) == Pruned(old(View()), nowMs)
        decreases |entries|
      {
        var dropped := entries[0];
        entries := entries[1..];
        prunedBelow := dropped.Seq();
      }
    }

    method Tail(since: int, nowMs: int) returns (tail: Option<seq<Envelope>>)
      modifies this
      ensures (tail, View()) == TailOf(old(View()), since, nowMs)
    {
      Prune(nowMs);
      if since >= lastSeq { return Some([]); }
      if since < prunedBelow { return None; }
      return Some(After(entries, since));
    }
  }

  // ---- agreement with the unpruned history ---------------------------------------------

  /** `log` is what is left of `history` after dropping its prefix `dropped`. */
  predicate Agrees(log: Log, history: seq<Envelope>, dropped: seq<Envelope>) {
    && Increasing(history)
    && history == dropped + log.entries
    && log.lastSeq == LastSeq(history)
    && log.prunedBelow == LastSeq(dropped)
  }

  ghost predicate Faithful(log: Log, history: seq<Envelope>) {
    exists dropped :: Agrees(log, history, dropped)
  }

  lemma {:induction false} PruneAgrees(log: Log, history: seq<Envelope>, dropped: seq<Envelope>, nowMs: int)
    returns (dropped': seq<Envelope>)
    requires Agrees(log, history, dropped)
    ensures Agrees(Pruned(log, nowMs), history, dropped')
    ensures dropped <= dropped'
    decreases |log.entries|
  {
    if Stale(log.entries, nowMs) {
      var next := dropped + [log.entries[0]];
      var log1 := log.(entries := log.entries[1..], prunedBelow := log.entries[0].Seq());
      assert dropped + log.entries == next + log1.entries;
      dropped' := PruneAgrees(log1, history, next, nowMs);
    } else {
      dropped' := dropped;
    }
  }

  /** Appending in increasing order keeps the log faithful to the whole history, whatever the clock shows,
      and never leaves more than 500 entries. */
  lemma AppendFaithful(log: Log, history: seq<Envelope>, env: Envelope, nowMs: int)
    requires Faithful(log, history)
    requires env.seqNo.Some? && env.Seq() > log.lastSeq
    ensures Faithful(Appended(log, env, nowMs), history + [env])
    ensures |Appended(log, env, nowMs).entries| <= REPLAY_MAX_ENTRIES
  {
    var dropped :| Agrees(log, history, dropped);
    var log1 := log.(lastSeq := env.Seq(), entries := log.entries + [env]);
    assert history + [env] == dropped + log1.entries;
    IncreasingUpToLast(history);
    assert Increasing(history + [env]) by {
      assert forall i :: 0 <= i < |history| ==> history[i] in history;
    }
    assert Agrees(log1, history + [env], dropped);
    var dropped' := PruneAgrees(log1, history + [env], dropped, nowMs);
  }

  lemma TailFaithful(log: Log, history: seq<Envelope>, since: int, nowMs: int)
    requires Faithful(log, history)
    ensures Faithful(TailOf(log, since, nowMs).1, history)
  {
    var dropped :| Agrees(log, history, dropped);
    var dropped' := PruneAgrees(log, history, dropped, nowMs);
  }

  /** Replay completeness: an answer is every envelope ever appended after `since`, in order; and the log
      refuses exactly when it has dropped one of those, or `since` is negative. */
  lemma TailComplete(log: Log, history: seq<Envelope>, dropped: seq<Envelope>, since: int, nowMs: int)
    requires Agrees(Pruned(log, nowMs), history, dropped)
    ensures var tail := TailOf(log, since, nowMs).0;
      && (tail.Some? ==> tail.value == After(history, since))
      && (tail.None? <==> since < 0 || exists d :: d in dropped && d.Seq() > since)
  {
    var log' := Pruned(log, nowMs);
    IncreasingUpToLast(history);
    assert Increasing(dropped) by {
      assert forall i :: 0 <= i < |dropped| ==> dropped[i] == history[i];
    }
    IncreasingUpToLast(dropped);
    if dropped != [] {
      assert dropped[|dropped| - 1] in dropped;
      assert dropped[|dropped| - 1] in history;
    }
    AfterAppend(dropped, log'.entries, since);
    if since >= log'.lastSeq {
      AfterNone(history, since);
    } else if since >= log'.prunedBelow {
      AfterNone(dropped, since);
      assert [] + After(log'.entries, since) == After(log'.entries, since);
    }
  }

  // ---- what pruning keeps, by count and age --------------------------------------------

  /** At most 86 400 000 ms old at `nowMs`; an envelope without a time stamp counts as of time 0. */
  predicate Young(env: Envelope, nowMs: int) {
    (if env.ts.Some? then env.ts.value else 0) >= nowMs - 86_400_000
  }

  /** Entry `i` is kept at `nowMs`: it or an older entry has at most 500 entries from it on and is at most a day old. */
  ghost predicate Kept(entries: seq<Envelope>, i: nat, nowMs: int) {
    exists h :: 0 <= h <= i && h < |entries| && |entries| - h <= 500 && Young(entries[h], nowMs)
  }

  /** Pruning drops from the front, and exactly the entries before the first that is within 500 of the end and at most
      86 400 000 ms old. */
  lemma {:induction false} PrunesByCountAndAge(log: Log, nowMs: int) returns (k: nat)
    ensures k <= |log.entries| && Pruned(log, nowMs).entries == log.entries[k..]
    ensures Pruned(log, nowMs).lastSeq == log.lastSeq
    ensures Pruned(log, nowMs).prunedBelow == if k == 0 then log.prunedBelow else log.entries[k - 1].Seq()
    ensures forall i :: 0 <= i < k ==> |log.entries| - i > 500 || !Young(log.entries[i], nowMs)
    ensures k < |log.entries| ==> |log.entries| - k <= 500 && Young(log.entries[k], nowMs)
    decreases |log.entries|
  {
    if Stale(log.entries, nowMs) {
      var log1 := log.(entries := log.entries[1..], prunedBelow := log.entries[0].Seq());
      var m := PrunesByCountAndAge(log1, nowMs);
      k := m + 1;
      assert log1.entries[m..] == log.entries[k..];
      assert forall i :: 0 < i < |log.entries| ==> log.entries[i] == log1.entries[i - 1];
    } else {
      k := 0;
    }
  }

  /** So entry `i` survives pruning exactly if it is kept in that sense. */
  lemma SurvivesIffKept(log: Log, nowMs: int, i: nat)
    requires i < |log.entries|
    ensures i >= |log.entries| - |Pruned(log, nowMs).entries| <==> Kept(log.entries, i, nowMs)
  {
    var k := PrunesByCountAndAge(log, nowMs);
  }
}
