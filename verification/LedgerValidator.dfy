/**
 The replay validator as the loops that run it, proved to accept exactly `LedgerModel.Accepts`.
 Each method is one loop of `_validated_status_projection` or of
 `_validate_authenticated_materializations`.
 */
module LedgerValidator {
  import opened Texts
  import opened JsonValue
  import opened LedgerModel

  /** The event loop: sequence numbers, predecessor hashes, bodies and MACs. */
  method CheckChain(env: Env, key: Key, events: seq<EventRow>) returns (ok: bool, bodies: seq<EventBody>)
    ensures ok <==> ChainOk(env, key, events)
    ensures ok ==> bodies == Bodies(events)
  {
    bodies := [];
    var predecessor: Option<string> := None;
    for i := 0 to |events|
      invariant forall k :: 0 <= k < i ==> LinkOk(env, key, events, k)
      invariant predecessor == if i == 0 then None else Some(events[i - 1].hash)
      invariant |bodies| == i
      invariant forall k :: 0 <= k < i ==> events[k].text == Canonical(bodies[k])
    {
      var row := events[i];
      if row.sequence != i || row.predecessor != predecessor || row.text.Garbage? {
        assert !LinkOk(env, key, events, i);
        return false, [];
      }
      var e := row.text.value;
      if || e.companyId != key.companyId || e.jobId != key.jobId || e.sequence != row.sequence
         || e.predecessor != row.predecessor || e.eventType != row.eventType || e.recordedAt != row.recordedAt
         || env.eventHash(e) != row.hash || env.eventMac(e) != row.mac
      {
        assert !LinkOk(env, key, events, i);
        return false, [];
      }
      predecessor := Some(row.hash);
      bodies := bodies + [e];
    }
    return true, bodies;
  }

  /** The fold over event bodies that builds the packet, acceptance, final and artifact records. */
  method ReplayEvents(bodies: seq<EventBody>) returns (view: Option<View>)
    ensures view == Replay(bodies)
  {
    var v := EMPTY_VIEW;
    for i := 0 to |bodies|
      invariant Replay(bodies[..i]) == Some(v)
    {
      assert bodies[..i + 1][..i] == bodies[..i];
      var next := Replay1(v, i, bodies[i]);
      if next.None? {
        ReplayStops(bodies, i + 1);
        return None;
      }
      v := next.value;
    }
    assert bodies[..|bodies|] == bodies;
    return Some(v);
  }

  lemma {:induction false} ReplayStops(bodies: seq<EventBody>, n: nat)
    requires n <= |bodies| && Replay(bodies[..n]) == None
    ensures Replay(bodies) == None
    decreases |bodies| - n
  {
    if n == |bodies| {
      assert bodies[..n] == bodies;
    } else {
      assert bodies[..n + 1][..n] == bodies[..n];
      ReplayStops(bodies, n + 1);
    }
  }

  method CheckOrder(v: View) returns (ok: bool)
    requires |v.accepted| <= |v.packets|
    ensures ok <==> OrderOk(v)
  {
    if v.packets == [] {
      return false;
    }
    for i := 0 to |v.accepted|
      invariant forall k :: 0 <= k < i ==> v.packets[k].position < v.accepted[k].position
      invariant forall k, j :: 0 <= k < i && k + 1 == j < |v.packets| ==> v.accepted[k].position < v.packets[j].position
    {
      if v.accepted[i].position <= v.packets[i].position {
        return false;
      }
      if i + 1 < |v.packets| && v.packets[i + 1].position <= v.accepted[i].position {
        return false;
      }
    }
    if v.final.Some? {
      if |v.accepted| != STAGE_COUNT {
        return false;
      }
      var last := v.accepted[|v.accepted| - 1];
      if v.final.value.0 != last.inputHash || v.final.value.1 <= last.position {
        return false;
      }
    }
    return v.artifact.None? || (v.final.Some? && v.final.value.1 < v.artifact.value.2);
  }

  method CheckPackets(env: Env, key: Key, t: Tables, v: View) returns (ok: bool)
    requires OrderOk(v)
    ensures ok <==> PacketsOk(env, key, t, v)
  {
    if |t.packets| != |v.packets| {
      return false;
    }
    for i := 0 to |t.packets|
      invariant forall k :: 0 <= k < i ==> PacketRowOk(env, key, t.job, v.packets[k], t.packets[k])
    {
      var e, row := v.packets[i], t.packets[i];
      if row.stageId != e.stageId || row.sequence != e.sequence || row.inputHash != e.inputHash || row.text.Garbage? {
        assert !PacketRowOk(env, key, t.job, e, row);
        return false;
      }
      var raw := row.text.value;
      PacketReload(env, raw);
      var loaded := NewPacket(env, raw);
      if loaded != Some(raw) {
        return false;
      }
      var p := loaded.value;
      if || p.companyId != key.companyId || p.jobId != key.jobId
         || p.stageId != row.stageId || p.sequence != row.sequence || p.inputHash != row.inputHash
         || p.approvalId != t.job.approvalId || p.planFingerprint != t.job.planFingerprint
         || p.snapshotHash != t.job.snapshotHash || p.evidenceHash != t.job.evidenceHash
      {
        assert !PacketRowOk(env, key, t.job, e, row);
        return false;
      }
    }
    return t.job.packetText == t.packets[|t.packets| - 1].text;
  }

  /** The rows that the completion query returns: completions joined to packets by input hash, in
      packet order. */
  function Joined(packets: seq<PacketRow>, completions: map<string, CompletionRow>): seq<(PacketRow, CompletionRow)> {
    if packets == [] then []
    else
      var n := |packets| - 1;
      var rest := Joined(packets[..n], completions);
      if packets[n].inputHash in completions then rest + [(packets[n], completions[packets[n].inputHash])] else rest
  }

  /** If as many completions exist as packets of a prefix, and that prefix is bound, the join is the prefix. */
  lemma {:induction false} JoinedIsPrefix(packets: seq<PacketRow>, completions: map<string, CompletionRow>, n: nat)
    requires forall i, j :: 0 <= i < j < |packets| ==> packets[i].inputHash != packets[j].inputHash
    requires n <= |packets|
    requires forall i :: 0 <= i < |packets| ==> (packets[i].inputHash in completions <==> i < n)
    ensures |Joined(packets, completions)| == n
    ensures forall i :: 0 <= i < n ==>
      Joined(packets, completions)[i] == (packets[i], completions[packets[i].inputHash])
    decreases |packets|
  {
    if packets != [] {
      var k := |packets| - 1;
      JoinedIsPrefix(packets[..k], completions, if n <= k then n else k);
    }
  }

  lemma {:induction false} PrefixBoundIsExact(packets: seq<PacketRow>, completions: map<string, CompletionRow>, n: nat)
    requires forall i, j :: 0 <= i < j < |packets| ==> packets[i].inputHash != packets[j].inputHash
    requires n <= |packets| && |completions| == n
    requires forall i :: 0 <= i < n ==> packets[i].inputHash in completions
    ensures forall i :: 0 <= i < |packets| ==> (packets[i].inputHash in completions <==> i < n)
    ensures forall h :: h in completions ==> exists i :: 0 <= i < n && packets[i].inputHash == h
    decreases n
  {
    if n > 0 {
      var h := packets[n - 1].inputHash;
      var fewer := completions - {h};
      assert completions.Keys == fewer.Keys + {h};
      assert |completions.Keys| == |completions| && |fewer.Keys| == |fewer|;
      PrefixBoundIsExact(packets, fewer, n - 1);
    } else {
      assert completions == map[];
    }
  }

  lemma {:induction false} JoinedMembers(packets: seq<PacketRow>, completions: map<string, CompletionRow>)
    ensures forall i :: 0 <= i < |Joined(packets, completions)| ==>
      var row := Joined(packets, completions)[i];
      row.0 in packets && row.0.inputHash in completions && row.1 == completions[row.0.inputHash]
    decreases |packets|
  {
    if packets != [] {
      JoinedMembers(packets[..|packets| - 1], completions);
    }
  }

  /** The body of the completion loop, for one joined row. */
  method CheckCompletionRow(env: Env, key: Key, context: Json, p: Packet, e: AcceptedEvent, row: CompletionRow)
    returns (ok: bool)
    ensures ok <==> CompletionRowOk(env, key, context, p, e, row)
  {
    if row.hash != e.completionHash || row.text.Garbage? || env.completionHash(row.text.value) != row.hash {
      return false;
    }
    var loaded := NewCompletion(env, row.text.value);
    if loaded.None? {
      return false;
    }
    var c := loaded.value;
    if env.payloadCheck(p.stageId, c.payload) != Pass {
      return false;
    }
    if p.stageId == StageId(STAGE_COUNT - 1) && env.sourcesCheck(c.payload, context) != Pass {
      return false;
    }
    return !(|| c.companyId != key.companyId || c.jobId != key.jobId || c.stageId != p.stageId
             || c.inputHash != p.inputHash
             || c.sessionRef != p.sessionRef || c.providerId != p.providerId || c.modelId != p.modelId);
  }

  /** One iteration of the completion loop: the joined row agrees with acceptance `e`. */
  ghost predicate RowMatches(env: Env, key: Key, context: Json, p: PacketRow, e: AcceptedEvent,
                             joined: (PacketRow, CompletionRow))
  {
    && joined.0.stageId == e.stageId && joined.0.inputHash == e.inputHash
    && p.text.Canonical? && CompletionRowOk(env, key, context, p.text.value, e, joined.1)
  }

  method CheckRows(env: Env, key: Key, context: Json, packets: seq<PacketRow>, accepted: seq<AcceptedEvent>,
                   rows: seq<(PacketRow, CompletionRow)>)
    returns (ok: bool)
    requires |rows| == |accepted| <= |packets|
    requires forall i :: 0 <= i < |packets| ==> packets[i].text.Canonical?
    ensures ok <==> forall i :: 0 <= i < |rows| ==> RowMatches(env, key, context, packets[i], accepted[i], rows[i])
  {
    for i := 0 to |rows|
      invariant forall k :: 0 <= k < i ==> RowMatches(env, key, context, packets[k], accepted[k], rows[k])
    {
      if rows[i].0.stageId != accepted[i].stageId || rows[i].0.inputHash != accepted[i].inputHash {
        assert !RowMatches(env, key, context, packets[i], accepted[i], rows[i]);
        return false;
      }
      var fine := CheckCompletionRow(env, key, context, packets[i].text.value, accepted[i], rows[i].1);
      if !fine {
        assert !RowMatches(env, key, context, packets[i], accepted[i], rows[i]);
        return false;
      }
    }
    return true;
  }

  /** What an accepted packet table says of row `i`, without the details of the packet. */
  lemma PacketAt(env: Env, key: Key, t: Tables, v: View, i: int)
    requires PacketsOk(env, key, t, v) && 0 <= i < |t.packets|
    ensures t.packets[i].text.Canonical?
    ensures t.packets[i].stageId == v.packets[i].stageId && t.packets[i].inputHash == v.packets[i].inputHash
    ensures t.packets[i].text.value.inputHash == t.packets[i].inputHash
    ensures t.packets[i].text.value.sequence == v.packets[i].sequence
    ensures var p := t.packets[i].text.value; if p.sequence == 0 then p.previous == None else p.previous.Some?
  {
    assert PacketRowOk(env, key, t.job, v.packets[i], t.packets[i]);
  }

  lemma TableToJoin(env: Env, key: Key, t: Tables, v: View, count: int)
    requires SchemaOk(t) && ViewShape(v, count) && PacketsOk(env, key, t, v) && ContextOk(env, t.job)
    requires CompletionsOk(env, key, t, v)
    ensures |Joined(t.packets, t.completions)| == |v.accepted| == |t.completions|
    ensures forall i :: 0 <= i < |v.accepted| ==> RowMatches(env, key, t.job.contextText.value, t.packets[i],
      v.accepted[i], Joined(t.packets, t.completions)[i])
  {
    var rows, n := Joined(t.packets, t.completions), |v.accepted|;
    forall i | 0 <= i < n ensures t.packets[i].inputHash in t.completions {
      assert CompletionAt(env, key, t, v.accepted, i);
    }
    PrefixBoundIsExact(t.packets, t.completions, n);
    JoinedIsPrefix(t.packets, t.completions, n);
    forall i | 0 <= i < n
      ensures RowMatches(env, key, t.job.contextText.value, t.packets[i], v.accepted[i], rows[i])
    {
      assert CompletionAt(env, key, t, v.accepted, i);
      PacketAt(env, key, t, v, i);
    }
  }

  lemma JoinToTable(env: Env, key: Key, t: Tables, v: View, count: int)
    requires SchemaOk(t) && ViewShape(v, count) && PacketsOk(env, key, t, v) && ContextOk(env, t.job)
    requires |t.completions| == |Joined(t.packets, t.completions)| == |v.accepted|
    requires forall i :: 0 <= i < |v.accepted| ==> RowMatches(env, key, t.job.contextText.value, t.packets[i],
      v.accepted[i], Joined(t.packets, t.completions)[i])
    ensures CompletionsOk(env, key, t, v)
  {
    var rows, n := Joined(t.packets, t.completions), |v.accepted|;
    JoinedMembers(t.packets, t.completions);
    forall i | 0 <= i < n ensures CompletionAt(env, key, t, v.accepted, i) {
      assert RowMatches(env, key, t.job.contextText.value, t.packets[i], v.accepted[i], rows[i]);
      PacketAt(env, key, t, v, i);
    }
  }

  /** The join agrees with the acceptances row by row exactly when the completions table does. */
  lemma JoinDecides(env: Env, key: Key, t: Tables, v: View, count: int)
    requires SchemaOk(t) && ViewShape(v, count) && PacketsOk(env, key, t, v) && ContextOk(env, t.job)
    ensures var rows := Joined(t.packets, t.completions);
            CompletionsOk(env, key, t, v) <==>
            && |t.completions| == |rows| == |v.accepted|
            && forall i :: 0 <= i < |v.accepted| ==>
                 RowMatches(env, key, t.job.contextText.value, t.packets[i], v.accepted[i], rows[i])
  {
    var rows := Joined(t.packets, t.completions);
    if CompletionsOk(env, key, t, v) {
      TableToJoin(env, key, t, v, count);
    }
    if && |t.completions| == |rows| == |v.accepted|
       && forall i :: 0 <= i < |v.accepted| ==>
            RowMatches(env, key, t.job.contextText.value, t.packets[i], v.accepted[i], rows[i]) {
      JoinToTable(env, key, t, v, count);
    }
  }

  method CheckCompletions(env: Env, key: Key, t: Tables, v: View, ghost count: int) returns (ok: bool)
    requires SchemaOk(t) && ViewShape(v, count) && PacketsOk(env, key, t, v) && ContextOk(env, t.job)
    ensures ok <==> CompletionsOk(env, key, t, v)
  {
    var rows := Joined(t.packets, t.completions);
    JoinDecides(env, key, t, v, count);
    if |t.completions| != |rows| || |rows| != |v.accepted| {
      return false;
    }
    forall i | 0 <= i < |t.packets| ensures t.packets[i].text.Canonical? {
      PacketAt(env, key, t, v, i);
    }
    ok := CheckRows(env, key, t.job.contextText.value, t.packets, v.accepted, rows);
  }

  /** The dictionary of completion hashes by input hash that the completion loop leaves behind. */
  method CompletionHashes(env: Env, key: Key, t: Tables, v: View) returns (hashes: map<string, string>)
    requires forall i, j :: 0 <= i < j < |t.packets| ==> t.packets[i].inputHash != t.packets[j].inputHash
    requires |v.accepted| <= |t.packets| && CompletionsOk(env, key, t, v)
    ensures forall k :: 0 <= k < |t.packets| ==> (t.packets[k].inputHash in hashes <==> k < |v.accepted|)
    ensures forall k :: 0 <= k < |v.accepted| ==> hashes[t.packets[k].inputHash] == v.accepted[k].completionHash
  {
    hashes := map[];
    for i := 0 to |v.accepted|
      invariant forall k :: 0 <= k < |t.packets| ==> (t.packets[k].inputHash in hashes <==> k < i)
      invariant forall k :: 0 <= k < i ==> hashes[t.packets[k].inputHash] == v.accepted[k].completionHash
    {
      assert CompletionAt(env, key, t, v.accepted, i);
      hashes := hashes[t.packets[i].inputHash := t.completions[t.packets[i].inputHash].hash];
    }
  }

  /** The predecessor loop: packet 0 has none, every other names its predecessor's completion. */
  method CheckLinks(packets: seq<Packet>, ghost t: Tables, accepted: seq<AcceptedEvent>, hashes: map<string, string>)
    returns (ok: bool)
    requires |packets| == |t.packets| && |accepted| <= |packets|
    requires forall i :: 0 <= i < |packets| ==> t.packets[i].text == Canonical(packets[i])
    requires forall i :: 0 <= i < |packets| ==>
      packets[i].sequence == i && packets[i].inputHash == t.packets[i].inputHash
    requires forall i :: 0 <= i < |packets| ==>
      (if i == 0 then packets[i].previous == None else packets[i].previous.Some?)
    requires forall k :: 0 <= k < |packets| ==> (packets[k].inputHash in hashes <==> k < |accepted|)
    requires forall k :: 0 <= k < |accepted| ==> hashes[packets[k].inputHash] == accepted[k].completionHash
    ensures ok <==> forall i :: 1 <= i < |t.packets| ==> LinkedAt(t, accepted, i)
  {
    for i := 0 to |packets|
      invariant forall k :: 1 <= k < i ==> LinkedAt(t, accepted, k)
    {
      var p := packets[i];
      if p.sequence == 0 {
        if p.previous.Some? {
          return false;
        }
      } else {
        var before := packets[p.sequence - 1].inputHash;
        if p.previous != (if before in hashes then Some(hashes[before]) else None) {
          assert !LinkedAt(t, accepted, i);
          return false;
        }
      }
    }
    return true;
  }

  method CheckPredecessors(env: Env, key: Key, t: Tables, v: View, ghost count: int) returns (ok: bool)
    requires SchemaOk(t) && ViewShape(v, count) && PacketsOk(env, key, t, v) && CompletionsOk(env, key, t, v)
    ensures ok <==> LinksOk(t, v)
  {
    var hashes := CompletionHashes(env, key, t, v);
    forall i | 0 <= i < |t.packets|
      ensures t.packets[i].text.Canonical? && t.packets[i].text.value.sequence == i
              && t.packets[i].text.value.inputHash == t.packets[i].inputHash
              && (if i == 0 then t.packets[i].text.value.previous == None else t.packets[i].text.value.previous.Some?)
    {
      PacketAt(env, key, t, v, i);
    }
    var packets := seq(|t.packets|, i requires 0 <= i < |t.packets| => t.packets[i].text.value);
    ok := CheckLinks(packets, t, v.accepted, hashes);
  }

  /** `_validate_authenticated_materializations` on already authenticated events. */
  method CheckMaterialized(env: Env, key: Key, t: Tables, bodies: seq<EventBody>) returns (ok: bool)
    requires SchemaOk(t)
    ensures ok <==> Replay(bodies).Some? && MaterializedOk(env, key, t, Replay(bodies).value)
  {
    hide Replay, OrderOk, PacketsOk, CompletionsOk, LinksOk, SchemaOk;
    if || t.job.contextText.Garbage? || !t.job.contextText.value.Obj?
       || env.contextHash(t.job.contextText.value) != t.job.snapshotHash
    {
      return false;
    }
    var view := ReplayEvents(bodies);
    if view.None? {
      return false;
    }
    var v := view.value;
    ReplayShape(bodies);
    ok := CheckOrder(v);
    if !ok {
      return;
    }
    ok := CheckPackets(env, key, t, v);
    if !ok {
      return;
    }
    ok := CheckCompletions(env, key, t, v, |bodies|);
    if !ok {
      return;
    }
    ok := CheckPredecessors(env, key, t, v, |bodies|);
    if !ok {
      return;
    }
    if v.artifact.None? {
      return t.job.artifactPath.None? && t.job.artifactHash.None?;
    }
    return t.job.artifactPath == Some(v.artifact.value.0) && t.job.artifactHash == Some(v.artifact.value.1);
  }

  /** `_validated_status_projection`: the stored status on an accepted ledger, otherwise the
      integrity error. */
  method ValidatedStatus(env: Env, key: Key, t: Tables) returns (r: Option<Status>)
    requires SchemaOk(t)
    ensures r.Some? <==> Accepts(env, key, t)
    ensures r.Some? ==> r.value == t.job.status
  {
    hide LinkOk, MaterializedOk, Replay;
    if t.job.status.UnknownStatus? || t.job.eventCount <= 0 || t.job.headHash.None? || t.job.headMac.None? {
      return None;
    }
    if |t.events| != t.job.eventCount {
      return None;
    }
    var ok, bodies := CheckChain(env, key, t.events);
    if !ok {
      return None;
    }
    var last := t.events[|t.events| - 1];
    if t.job.headHash != Some(last.hash) || t.job.headMac != Some(last.mac) {
      return None;
    }
    ok := CheckMaterialized(env, key, t, bodies);
    if !ok || StatusAfter(last.eventType) != Some(t.job.status) {
      return None;
    }
    return Some(t.job.status);
  }
}
