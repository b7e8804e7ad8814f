/**
 What follows from validator acceptance alone, on any ledger, reachable or not.
 */
module LedgerTheorems {
  import opened Texts
  import opened LedgerModel
  import opened LedgerAgreement
  import opened LedgerSteps
  import LedgerValidator

  // ---- Packets and completions -------------------------------------------------------------------------------

  /** The packet rows are a prefix of the four stages, in order. */
  lemma PacketsAreStages(env: Env, key: Key, t: Tables)
    requires Accepts(env, key, t)
    ensures 1 <= |t.packets| <= STAGE_COUNT
    ensures forall i :: 0 <= i < |t.packets| ==>
      && t.packets[i].stageId == StageId(i) && t.packets[i].sequence == i
      && t.packets[i].text.Canonical? && t.packets[i].text.value.stageId == StageId(i)
  {
    hide CompletionsOk, LinksOk, ContextOk, ArtifactOk, OrderOk, PacketOk, ChainOk, Replay;
    AcceptedIsLogged(env, key, t);
    var v := ViewOf(env, key, t);
    forall i | 0 <= i < |t.packets|
      ensures t.packets[i].stageId == StageId(i) && t.packets[i].sequence == i
              && t.packets[i].text.Canonical? && t.packets[i].text.value.stageId == StageId(i)
    {
      assert PacketRowOk(env, key, t.job, v.packets[i], t.packets[i]);
    }
  }

  /** Exactly a prefix of the packets is completed: all of them, or all but the last. */
  lemma CompletedPackets(env: Env, key: Key, t: Tables)
    requires SchemaOk(t) && Accepts(env, key, t)
    ensures |t.completions| <= |t.packets| <= |t.completions| + 1
    ensures forall i :: 0 <= i < |t.packets| ==> (t.packets[i].inputHash in t.completions <==> i < |t.completions|)
  {
    hide PacketRowOk, PacketOk, ContextOk, ArtifactOk, ChainOk, Replay, CompletionRowOk;
    AcceptedIsLogged(env, key, t);
    var v, n := ViewOf(env, key, t), |t.packets| - 1;
    CompletedPrefix(env, key, t, v);
    if n >= 1 {
      assert LinkedAt(t, v.accepted, n);
    }
    LedgerValidator.PrefixBoundIsExact(t.packets, t.completions, |v.accepted|);
  }

  /** Every packet after the first names the accepted completion of the packet before it. */
  lemma PacketsAreLinked(env: Env, key: Key, t: Tables, i: int)
    requires SchemaOk(t) && Accepts(env, key, t) && 0 < i < |t.packets|
    ensures t.packets[i - 1].inputHash in t.completions && t.packets[i].text.Canonical?
    ensures t.packets[i].text.value.previous == Some(t.completions[t.packets[i - 1].inputHash].hash)
  {
    hide PacketRowOk, PacketOk, ContextOk, ArtifactOk, ChainOk, Replay, OrderOk;
    AcceptedIsLogged(env, key, t);
    var v := ViewOf(env, key, t);
    assert LinkedAt(t, v.accepted, i);
    assert CompletionAt(env, key, t, v.accepted, i - 1);
  }

  /** Every stored completion would be admitted again today: it names its packet, attests the
      packet's session, provider and model, and passes the payload rules of its stage, and for the
      last stage the source rules. */
  lemma CompletionsWereChecked(env: Env, key: Key, t: Tables, i: int)
    requires SchemaOk(t) && Accepts(env, key, t) && 0 <= i < |t.completions|
    ensures i < |t.packets| && t.packets[i].text.Canonical? && t.packets[i].inputHash in t.completions
    ensures t.job.contextText.Canonical?
    ensures var p, row := t.packets[i].text.value, t.completions[t.packets[i].inputHash];
      && row.text.Canonical? && row.hash == env.completionHash(row.text.value)
      && NewCompletion(env, row.text.value).Some?
      && Judge(env, p, NewCompletion(env, row.text.value).value, t.job.contextText.value) == Admit
  {
    hide PacketOk, ChainOk, Replay, OrderOk, NewCompletion, LinksOk;
    AcceptedIsLogged(env, key, t);
    var v := ViewOf(env, key, t);
    assert CompletionAt(env, key, t, v.accepted, i);
    assert PacketRowOk(env, key, t.job, v.packets[i], t.packets[i]);
  }

  // ---- Final QA and the artifact ------------------------------------------------------------------------------

  lemma Replay1Records(v: View, n: int, e: EventBody)
    requires Replay1(v, n, e).Some?
    ensures var w := Replay1(v, n, e).value;
      && (if e.eventType == FinalQa then v.final.None? && w.final.Some? && w.final.value.1 == n else w.final == v.final)
      && (if e.eventType == Frozen then v.artifact.None? && w.artifact.Some? && w.artifact.value.2 == n
          else w.artifact == v.artifact)
  {
    hide PacketDetail, AcceptedDetail, FinalDetail, FrozenDetail, NeutralOk;
  }

  /** The final and artifact records of a view sit exactly at the events of those types. */
  lemma {:induction false} RecordsAreEvents(bodies: seq<EventBody>)
    requires Replay(bodies).Some?
    ensures var v := Replay(bodies).value;
      && (forall i :: 0 <= i < |bodies| ==> (bodies[i].eventType == FinalQa <==> v.final.Some? && v.final.value.1 == i))
      && (forall i :: 0 <= i < |bodies| ==>
            (bodies[i].eventType == Frozen <==> v.artifact.Some? && v.artifact.value.2 == i))
      && ViewShape(v, |bodies|)
    decreases |bodies|
  {
    hide Replay1;
    if bodies != [] {
      var n := |bodies| - 1;
      RecordsAreEvents(bodies[..n]);
      Replay1Records(Replay(bodies[..n]).value, n, bodies[n]);
      Replay1Shape(Replay(bodies[..n]).value, n, bodies[n]);
      assert forall i :: 0 <= i < n ==> bodies[..n][i] == bodies[i];
    }
  }

  /** Number of events of one type. */
  function CountOf(events: seq<EventRow>, e: EventType): nat {
    if events == [] then 0
    else CountOf(events[..|events| - 1], e) + if events[|events| - 1].eventType == e then 1 else 0
  }

  lemma {:induction false} CountAt(events: seq<EventRow>, e: EventType, at: Option<int>)
    requires at.Some? ==> 0 <= at.value < |events|
    requires forall i :: 0 <= i < |events| ==> (events[i].eventType == e <==> at == Some(i))
    ensures CountOf(events, e) == if at.Some? then 1 else 0
    decreases |events|
  {
    if events != [] {
      var n := |events| - 1;
      CountAt(events[..n], e, if at == Some(n) then None else at);
    }
  }

  /** Final QA is announced at most once and only over four acceptances; an artifact at most once,
      only after final QA, and the job row is bound exactly when the event exists. */
  lemma FinalThenArtifact(env: Env, key: Key, t: Tables)
    requires SchemaOk(t) && Accepts(env, key, t)
    ensures CountOf(t.events, Frozen) <= CountOf(t.events, FinalQa) <= 1
    ensures CountOf(t.events, FinalQa) == 1 ==> |t.completions| == |t.packets| == STAGE_COUNT
    ensures forall j :: 0 <= j < |t.events| && t.events[j].eventType == Frozen ==>
      exists i :: 0 <= i < j && t.events[i].eventType == FinalQa
    ensures t.job.artifactPath.Some? <==> CountOf(t.events, Frozen) == 1
    ensures t.job.status in {FinalQaReady, ArtifactFrozen} ==> CountOf(t.events, FinalQa) == 1
  {
    hide CompletionRowOk, PacketRowOk, PacketOk, ContextOk, LinksOk, Replay;
    AcceptedIsLogged(env, key, t);
    var v, bodies := ViewOf(env, key, t), Bodies(t.events);
    RecordsAreEvents(bodies);
    forall i | 0 <= i < |t.events| ensures bodies[i].eventType == t.events[i].eventType {
      assert LinkOk(env, key, t.events, i);
    }
    var final: Option<int> := if v.final.Some? then Some(v.final.value.1) else None;
    var frozen: Option<int> := if v.artifact.Some? then Some(v.artifact.value.2) else None;
    CountAt(t.events, FinalQa, final);
    CountAt(t.events, Frozen, frozen);
    if v.artifact.Some? {
      assert t.events[v.final.value.1].eventType == FinalQa;
    }
  }

  // ---- The head hash determines the ledger ---------------------------------------------------------------------

  /** Two different event bodies, one of each history, with one hash. */
  ghost predicate EventCollision(env: Env, a: seq<EventRow>, b: seq<EventRow>) {
    exists i, j :: && 0 <= i < |a| && 0 <= j < |b| && a[i].text.Canonical? && b[j].text.Canonical?
                   && a[i].text.value != b[j].text.value
                      && env.eventHash(a[i].text.value) == env.eventHash(b[j].text.value)
  }

  /** The hash of the last event determines the whole event history, unless the two histories
      exhibit a hash collision. */
  lemma {:induction false} ChainUnique(env: Env, key: Key, a: seq<EventRow>, b: seq<EventRow>)
    requires ChainOk(env, key, a) && ChainOk(env, key, b) && a != [] && b != []
    requires a[|a| - 1].hash == b[|b| - 1].hash
    ensures a == b || EventCollision(env, a, b)
    decreases |a|
  {
    var m, n := |a| - 1, |b| - 1;
    assert LinkOk(env, key, a, m) && LinkOk(env, key, b, n);
    if a[m].text.value == b[n].text.value {
      assert m == n && a[m] == b[n];
      if m > 0 {
        forall i | 0 <= i < m ensures LinkOk(env, key, a[..m], i) && LinkOk(env, key, b[..m], i) {
          assert LinkOk(env, key, a, i) && LinkOk(env, key, b, i);
        }
        ChainUnique(env, key, a[..m], b[..m]);
      }
      assert a == a[..m] + [a[m]] && b == b[..m] + [b[m]];
    }
  }

  ghost predicate PacketCollision(env: Env, t: Tables, u: Tables) {
    exists i ::
      && 0 <= i < |t.packets| && i < |u.packets| && t.packets[i].text.Canonical? && u.packets[i].text.Canonical?
      && Identity(t.packets[i].text.value) != Identity(u.packets[i].text.value)
      && env.packetHash(Identity(t.packets[i].text.value)) == env.packetHash(Identity(u.packets[i].text.value))
  }

  ghost predicate CompletionCollision(env: Env, t: Tables, u: Tables) {
    exists h :: && h in t.completions && h in u.completions
                && t.completions[h].text.Canonical? && u.completions[h].text.Canonical?
                && t.completions[h].text.value != u.completions[h].text.value
                && env.completionHash(t.completions[h].text.value) == env.completionHash(u.completions[h].text.value)
  }

  ghost predicate ContextCollision(env: Env, t: Tables, u: Tables) {
    && t.job.contextText.Canonical? && u.job.contextText.Canonical?
       && t.job.contextText.value != u.job.contextText.value
    && env.contextHash(t.job.contextText.value) == env.contextHash(u.job.contextText.value)
  }

  lemma SamePackets(env: Env, key: Key, t: Tables, u: Tables, v: View)
    requires PacketsOk(env, key, t, v) && PacketsOk(env, key, u, v) && !PacketCollision(env, t, u)
    ensures t.packets == u.packets && t.job.packetText == u.job.packetText
    ensures t.job.approvalId == u.job.approvalId && t.job.planFingerprint == u.job.planFingerprint
    ensures t.job.snapshotHash == u.job.snapshotHash && t.job.evidenceHash == u.job.evidenceHash
  {
    hide Trimmed, IsSha256;
    forall i | 0 <= i < |t.packets| ensures t.packets[i] == u.packets[i] {
      assert PacketRowOk(env, key, t.job, v.packets[i], t.packets[i])
        && PacketRowOk(env, key, u.job, v.packets[i], u.packets[i]);
      var p, q := t.packets[i].text.value, u.packets[i].text.value;
      assert Identity(p) == Identity(q);
      assert p == Identity(p).(inputHash := p.inputHash) && q == Identity(q).(inputHash := q.inputHash);
    }
    assert PacketRowOk(env, key, t.job, v.packets[0], t.packets[0])
      && PacketRowOk(env, key, u.job, v.packets[0], u.packets[0]);
  }

  lemma SameRow(env: Env, key: Key, t: Tables, u: Tables, v: View, i: int)
    requires CompletionsOk(env, key, t, v) && CompletionsOk(env, key, u, v) && 0 <= i < |v.accepted|
    requires t.packets == u.packets && i < |t.packets| && !CompletionCollision(env, t, u)
    ensures var h := t.packets[i].inputHash;
      h in t.completions && h in u.completions && t.completions[h] == u.completions[h]
  {
    hide NewCompletion;
    assert CompletionAt(env, key, t, v.accepted, i) && CompletionAt(env, key, u, v.accepted, i);
  }

  lemma SameMaps(packets: seq<PacketRow>, a: map<string, CompletionRow>, b: map<string, CompletionRow>, n: nat)
    requires forall i, j :: 0 <= i < j < |packets| ==> packets[i].inputHash != packets[j].inputHash
    requires n <= |packets| && |a| == n && |b| == n
    requires forall i :: 0 <= i < n ==>
      packets[i].inputHash in a && packets[i].inputHash in b && a[packets[i].inputHash] == b[packets[i].inputHash]
    ensures a == b
  {
    LedgerValidator.PrefixBoundIsExact(packets, a, n);
    LedgerValidator.PrefixBoundIsExact(packets, b, n);
    assert a.Keys == b.Keys;
  }

  lemma SameCompletions(env: Env, key: Key, t: Tables, u: Tables, v: View)
    requires SchemaOk(t) && CompletionsOk(env, key, t, v) && CompletionsOk(env, key, u, v)
    requires t.packets == u.packets && |v.accepted| <= |t.packets| && !CompletionCollision(env, t, u)
    ensures t.completions == u.completions
  {
    hide CompletionAt, CompletionCollision;
    forall i | 0 <= i < |v.accepted|
      ensures var h := t.packets[i].inputHash;
        h in t.completions && h in u.completions && t.completions[h] == u.completions[h]
    {
      SameRow(env, key, t, u, v, i);
    }
    SameMaps(t.packets, t.completions, u.completions, |v.accepted|);
  }

  /** Two accepted ledgers of one job with the same stored head hash are the same in every table
      and every column, unless some hash collides. */
  lemma SameHeadSameLedger(env: Env, key: Key, t: Tables, u: Tables)
    requires SchemaOk(t) && Accepts(env, key, t) && Accepts(env, key, u)
    requires t.job.headHash == u.job.headHash
    requires !EventCollision(env, t.events, u.events) && !PacketCollision(env, t, u)
    requires !CompletionCollision(env, t, u) && !ContextCollision(env, t, u)
    ensures t == u
  {
    hide ChainOk, Replay, OrderOk, LinksOk, PacketsOk, CompletionsOk, EventCollision, PacketCollision,
      CompletionCollision;
    ChainUnique(env, key, t.events, u.events);
    AcceptedIsLogged(env, key, t);
    var v := ViewOf(env, key, t);
    SamePackets(env, key, t, u, v);
    CompletedPrefix(env, key, t, v);
    AtMostPackets(v, t, env, key);
    SameCompletions(env, key, t, u, v);
    assert t.job.contextText == u.job.contextText;
    assert t.job == u.job;
  }

  lemma AtMostPackets(v: View, t: Tables, env: Env, key: Key)
    requires OrderOk(v) && PacketsOk(env, key, t, v)
    ensures |v.accepted| <= |t.packets|
  {
  }
}
