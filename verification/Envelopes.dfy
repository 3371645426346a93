/** Server-to-client envelopes, reduced to what sequencing, replay and snapshots look at. */
module Envelopes {
  import opened Prelude

  /** `state` is the lifecycle name in the payload of a state envelope; `body` stands for the rest of it. */
  datatype Envelope = Envelope(kind: string, state: string, body: int, turn: Option<int>,
                               seqNo: Option<nat>, ts: Option<int>)
  {
    /** `env.seq`, for envelopes that bear one. */
    function Seq(): nat { if seqNo.Some? then seqNo.value else 0 }

    /** `env.ts or 0` */
    function Stamp(): int { if ts.Some? then ts.value else 0 }
  }

  const DURABLE_TYPES := {"state", "turn", "perception.status", "suggestion", "elicitation"}

  predicate Durable(env: Envelope) { env.kind in DURABLE_TYPES }

  /** Seq-bearing envelopes in strictly increasing order of positive seq. */
  predicate Increasing(envs: seq<Envelope>) {
    && (forall i :: 0 <= i < |envs| ==> envs[i].seqNo.Some? && envs[i].Seq() > 0)
    && (forall i, j :: 0 <= i < j < |envs| ==> envs[i].Seq() < envs[j].Seq())
  }

  /** The seq of the newest envelope, 0 when there is none. */
  function LastSeq(envs: seq<Envelope>): nat {
    if envs == [] then 0 else envs[|envs| - 1].Seq()
  }

  /** `[e for e in envs if e.seq > since]` */
  function After(envs: seq<Envelope>, since: int): seq<Envelope> {
    if envs == [] then [] else Newer(envs[0], since) + After(envs[1..], since)
  }

  function Newer(env: Envelope, since: int): seq<Envelope> {
    if env.Seq() > since then [env] else []
  }

  lemma {:induction false} AfterAppend(a: seq<Envelope>, b: seq<Envelope>, since: int)
    ensures After(a + b, since) == After(a, since) + After(b, since)
  {
    if a == [] {
      assert a + b == b;
    } else {
      assert (a + b)[1..] == a[1..] + b;
      calc {
        After(a + b, since);
        Newer(a[0], since) + After(a[1..] + b, since);
        { AfterAppend(a[1..], b, since); }
        Newer(a[0], since) + (After(a[1..], since) + After(b, since));
        After(a, since) + After(b, since);
      }
    }
  }

  lemma {:induction false} AfterNone(envs: seq<Envelope>, since: int)
    requires forall e :: e in envs ==> e.Seq() <= since
    ensures After(envs, since) == []
  {
    if envs != [] {
      assert envs[0] in envs;
      AfterNone(envs[1..], since);
    }
  }

  lemma IncreasingUpToLast(envs: seq<Envelope>)
    requires Increasing(envs)
    ensures forall e :: e in envs ==> 0 < e.Seq() <= LastSeq(envs)
  {
  }

  lemma {:induction false} AfterMembers(envs: seq<Envelope>, since: int)
    ensures forall e :: e in After(envs, since) <==> e in envs && e.Seq() > since
  {
    if envs != [] {
      AfterMembers(envs[1..], since);
      assert envs == [envs[0]] + envs[1..];
    }
  }

  lemma IncreasingCons(env: Envelope, rest: seq<Envelope>)
    requires env.seqNo.Some? && env.Seq() > 0 && Increasing(rest)
    requires forall e :: e in rest ==> e.Seq() > env.Seq()
    ensures Increasing([env] + rest)
  {
    var all := [env] + rest;
    forall i, j | 0 <= i < j < |all| ensures all[i].Seq() < all[j].Seq() {
      assert all[j] == rest[j - 1] && rest[j - 1] in rest;
    }
  }

  lemma {:induction false} AfterIncreasing(envs: seq<Envelope>, since: int)
    requires Increasing(envs)
    ensures Increasing(After(envs, since))
  {
    if envs != [] {
      var rest := After(envs[1..], since);
      AfterIncreasing(envs[1..], since);
      AfterMembers(envs[1..], since);
      if envs[0].Seq() > since {
        IncreasingCons(envs[0], rest);
      } else {
        assert [] + rest == rest;
      }
    }
  }
}
