/**
 Writer and validator agree: whatever sequence of operations runs, with whatever arguments, the
 tables of every job pass the full replay validator.
 */
module LedgerAgreement {
  import opened Texts
  import opened JsonValue
  import opened LedgerModel
  import opened LedgerSteps

  /** The events of `t` are authentic, the head points at them, and they replay to `v`. */
  ghost predicate Logged(env: Env, key: Key, t: Tables, v: View) {
    && ChainOk(env, key, t.events)
    && t.job.eventCount == |t.events|
    && (if t.events == [] then t.job.headHash == None && t.job.headMac == None else HeadOk(t.job, t.events))
    && Replay(Bodies(t.events)) == Some(v)
  }

  ghost function ViewOf(env: Env, key: Key, t: Tables): View
    requires Accepts(env, key, t)
  {
    Replay(Bodies(t.events)).value
  }

  lemma AcceptedIsLogged(env: Env, key: Key, t: Tables)
    requires Accepts(env, key, t)
    ensures t.events != [] && Logged(env, key, t, ViewOf(env, key, t))
    ensures ViewShape(ViewOf(env, key, t), |t.events|)
    ensures MaterializedOk(env, key, t, ViewOf(env, key, t))
    ensures StatusAfter(t.events[|t.events| - 1].eventType) == Some(t.job.status)
  {
    ReplayShape(Bodies(t.events));
  }

  lemma ChainAppend(env: Env, key: Key, events: seq<EventRow>, e: EventBody)
    requires ChainOk(env, key, events)
    requires e.companyId == key.companyId && e.jobId == key.jobId && e.sequence == |events|
    requires e.predecessor == if events == [] then None else Some(events[|events| - 1].hash)
    ensures ChainOk(env, key, events + [RowOf(env, e)])
    ensures Bodies(events + [RowOf(env, e)]) == Bodies(events) + [e]
  {
    var more := events + [RowOf(env, e)];
    forall i | 0 <= i < |more| ensures LinkOk(env, key, more, i) {
      if i < |events| {
        assert LinkOk(env, key, events, i);
        assert more[i] == events[i] && (i > 0 ==> more[i - 1] == events[i - 1]);
      }
    }
  }

  lemma ReplayAppend(bodies: seq<EventBody>, e: EventBody, v: View, w: View)
    requires Replay(bodies) == Some(v) && Replay1(v, |bodies|, e) == Some(w)
    ensures Replay(bodies + [e]) == Some(w)
  {
    hide Replay1;
    var all := bodies + [e];
    var n := |all| - 1;
    assert all[..n] == bodies && all[n] == e;
  }

  /** Appending one event that the replay takes from `v` to `w`. */
  lemma AppendLogged(env: Env, key: Key, t: Tables, clock: Clock, d: EventDraft, v: View, w: View)
    requires Logged(env, key, t, v)
    requires Replay1(v, |t.events|, BodyOf(key, t.job, clock, d)) == Some(w)
    ensures Logged(env, key, Appended(env, key, t, clock, d), w)
  {
    hide Replay1, Replay, LinkOk;
    var e := BodyOf(key, t.job, clock, d);
    ChainAppend(env, key, t.events, e);
    ReplayAppend(Bodies(t.events), e, v, w);
  }

  /** The parts of a job row that the materialized checks read. */
  ghost predicate SameBinding(a: JobRow, b: JobRow) {
    && a.packetText == b.packetText && a.approvalId == b.approvalId && a.planFingerprint == b.planFingerprint
    && a.snapshotHash == b.snapshotHash && a.evidenceHash == b.evidenceHash && a.contextText == b.contextText
  }

  lemma PacketsFrame(env: Env, key: Key, t: Tables, t': Tables, v: View)
    requires PacketsOk(env, key, t, v) && SameBinding(t.job, t'.job) && t'.packets == t.packets
    ensures PacketsOk(env, key, t', v)
  {
    forall i | 0 <= i < |t.packets| ensures PacketRowOk(env, key, t'.job, v.packets[i], t'.packets[i]) {
      assert PacketRowOk(env, key, t.job, v.packets[i], t.packets[i]);
    }
  }

  /** An event that leaves the view alone leaves the materialized agreement alone. */
  lemma MaterializedFrame(env: Env, key: Key, t: Tables, t': Tables, v: View)
    requires MaterializedOk(env, key, t, v)
    requires SameBinding(t.job, t'.job) && t'.packets == t.packets && t'.completions == t.completions
    requires t'.job.artifactPath == t.job.artifactPath && t'.job.artifactHash == t.job.artifactHash
    ensures MaterializedOk(env, key, t', v)
  {
    PacketsFrame(env, key, t, t', v);
    forall i | 0 <= i < |v.accepted| ensures CompletionAt(env, key, t', v.accepted, i) {
      assert CompletionAt(env, key, t, v.accepted, i);
    }
    forall i | 1 <= i < |t.packets| ensures LinkedAt(t', v.accepted, i) {
      assert LinkedAt(t, v.accepted, i);
    }
  }

  lemma AppendedFacts(env: Env, key: Key, t: Tables, clock: Clock, d: EventDraft)
    ensures var t' := Appended(env, key, t, clock, d);
      && |t'.events| == |t.events| + 1 && t'.events[|t.events|].eventType == d.eventType
      && t'.job.status == t.job.status
  {
  }

  /** Logged tables whose materialized rows and status fit the view are accepted. */
  lemma LoggedIsAccepted(env: Env, key: Key, t: Tables, v: View)
    requires t.events != [] && Logged(env, key, t, v) && MaterializedOk(env, key, t, v)
    requires StatusAfter(t.events[|t.events| - 1].eventType) == Some(t.job.status)
    ensures Accepts(env, key, t)
  {
  }

  lemma NeutralReplays(v: View, n: int, key: Key, job: JobRow, clock: Clock, d: EventDraft)
    requires NeutralOk(d.eventType, d.details)
    ensures Replay1(v, n, BodyOf(key, job, clock, d)) == Some(v)
  {
  }

  /** Recovery, resolution, cancellation and rejection: neutral last event, new status. */
  lemma NeutralStep(env: Env, key: Key, t: Tables, t1: Tables, v: View, clock: Clock, d: EventDraft)
    requires SchemaOk(t) && MaterializedOk(env, key, t, v)
    requires Logged(env, key, t1, v)
    requires t1.packets == t.packets && t1.completions == t.completions && SameBinding(t.job, t1.job)
    requires t1.job.artifactPath == t.job.artifactPath && t1.job.artifactHash == t.job.artifactHash
    requires StatusAfter(d.eventType) == Some(t1.job.status)
    requires NeutralOk(d.eventType, d.details)
    ensures SchemaOk(Appended(env, key, t1, clock, d)) && Accepts(env, key, Appended(env, key, t1, clock, d))
  {
    var t2 := Appended(env, key, t1, clock, d);
    NeutralReplays(v, |t1.events|, key, t1.job, clock, d);
    AppendLogged(env, key, t1, clock, d, v, v);
    MaterializedFrame(env, key, t, t2, v);
    LoggedIsAccepted(env, key, t2, v);
  }

  lemma StatusChangeLogged(env: Env, key: Key, t: Tables, s: Status)
    requires Accepts(env, key, t)
    ensures Logged(env, key, WithStatus(t, s), ViewOf(env, key, t))
  {
    AcceptedIsLogged(env, key, t);
  }

  ghost predicate SameAuthority(p: Packet, job: JobRow) {
    && p.approvalId == job.approvalId && p.planFingerprint == job.planFingerprint
    && p.snapshotHash == job.snapshotHash && p.evidenceHash == job.evidenceHash
  }

  /** The head packet of an accepted ledger is the last packet row, and it is well formed. */
  lemma HeadPacket(env: Env, key: Key, t: Tables)
    requires Accepts(env, key, t)
    ensures t.packets != [] && t.job.packetText.Canonical? && t.job.contextText.Canonical?
    ensures t.job.packetText == t.packets[|t.packets| - 1].text
    ensures var p := t.job.packetText.value;
      && PacketOk(env, p) && IsSha256(p.inputHash)
      && t.packets[|t.packets| - 1] == PacketRowFor(p)
      && p.sequence == |t.packets| - 1 < STAGE_COUNT
      && p.companyId == key.companyId && p.jobId == key.jobId && SameAuthority(p, t.job)
  {
    hide Replay, ChainOk, HeadOk, OrderOk, CompletionsOk, LinksOk, ArtifactOk, Trimmed;
    AcceptedIsLogged(env, key, t);
    var v := ViewOf(env, key, t);
    var n := |t.packets| - 1;
    assert PacketRowOk(env, key, t.job, v.packets[n], t.packets[n]);
  }

  // ---- Drafts replay ---------------------------------------------------------------------------------

  lemma SubmissionNeutral(env: Env, p: Packet, c: Completion)
    requires PacketOk(env, p) && CompletionOk(env, c)
    ensures NeutralOk(Submitted, SubmissionDetails(p, c))
  {
    DigestIsTrimmed(p.inputHash); DigestIsTrimmed(c.inputHash); TrimmedIsStripped(c.operatorId);
    assert SubmissionDetails(p, c).Keys == SUBMITTED_KEYS;
  }

  lemma ReasonTrimmed(r: Reason)
    ensures Trimmed(ReasonText(r))
  {
  }

  lemma RejectionNeutral(env: Env, p: Packet, c: Completion, reason: string)
    requires PacketOk(env, p) && CompletionOk(env, c) && Trimmed(reason)
    ensures NeutralOk(Rejected, RejectedDraft(p, c, reason).details)
  {
    DigestIsTrimmed(p.inputHash); DigestIsTrimmed(c.inputHash); TrimmedIsStripped(c.operatorId);
    TrimmedIsStripped(reason);
    assert RejectedDraft(p, c, reason).details.Keys == SUBMITTED_KEYS + {FReason};
  }

  lemma RecoveryNeutral(h: string)
    requires IsSha256(h)
    ensures NeutralOk(RecoveryNeeded, RecoveryDraft(h).details)
  {
    DigestIsTrimmed(h);
    assert RecoveryDraft(h).details.Keys == {FOutstanding};
  }

  lemma ResolvedNeutral(operatorId: string, h: string)
    requires IsSha256(h) && Trimmed(operatorId)
    ensures NeutralOk(RecoveryResolved, ResolvedDraft(operatorId, h).details)
  {
    DigestIsTrimmed(h); TrimmedIsStripped(operatorId);
    assert ResolvedDraft(operatorId, h).details.Keys == {FOperator, FOutstanding, FReplacement, FMaxRetries};
  }

  lemma CancelNeutral(operatorId: string, prior: Status, h: string)
    requires IsSha256(h) && Trimmed(operatorId) && prior in {AwaitingOperator, RecoveryRequired}
    ensures NeutralOk(CancelAsked, CancelDraft(operatorId, prior, h).details)
  {
    DigestIsTrimmed(h); TrimmedIsStripped(operatorId);
    assert CancelDraft(operatorId, prior, h).details.Keys == {FOperator, FPriorStatus, FOutstanding, FLocalOnly,
                                                              FUpstream};
  }

  lemma PreparedReplays(env: Env, v: View, n: int, key: Key, job: JobRow, clock: Clock, p: Packet)
    requires PacketOk(env, p) && p.sequence == |v.packets|
    ensures Replay1(v, n, BodyOf(key, job, clock, PreparedDraft(p))) ==
            Some(v.(packets := v.packets + [PacketEvent(p.stageId, p.sequence, p.inputHash, n)]))
  {
    DigestIsTrimmed(p.inputHash);
    assert PreparedDraft(p).details.Keys == {FStageId, FSequence, FInputHash};
  }

  lemma AcceptedReplays(v: View, n: int, key: Key, job: JobRow, clock: Clock, c: Completion, hash: string)
    requires |v.accepted| < |v.packets| && IsSha256(hash) && IsSha256(c.inputHash) && !c.stageId.OtherStage?
    requires c.stageId == v.packets[|v.accepted|].stageId && c.inputHash == v.packets[|v.accepted|].inputHash
    ensures Replay1(v, n, BodyOf(key, job, clock, AcceptedDraft(c, hash))) ==
            Some(v.(accepted := v.accepted + [AcceptedEvent(c.stageId, c.inputHash, hash, n)]))
  {
    DigestIsTrimmed(hash); DigestIsTrimmed(c.inputHash);
    assert AcceptedDraft(c, hash).details.Keys == {FStageId, FInputHash, FCompletionHash};
  }

  lemma FinalReplays(v: View, n: int, key: Key, job: JobRow, clock: Clock, h: string)
    requires v.final == None && IsSha256(h)
    ensures Replay1(v, n, BodyOf(key, job, clock, FinalDraft(h))) == Some(v.(final := Some((h, n))))
  {
    DigestIsTrimmed(h);
    assert FinalDraft(h).details.Keys == {FFinalHash};
  }

  lemma FrozenReplays(v: View, n: int, key: Key, job: JobRow, clock: Clock, path: string, h: string)
    requires v.artifact == None && IsSha256(h) && Trimmed(path)
    ensures Replay1(v, n, BodyOf(key, job, clock, FrozenDraft(path, h))) == Some(v.(artifact := Some((path, h, n))))
  {
    DigestIsTrimmed(h); TrimmedIsStripped(path);
    assert FrozenDraft(path, h).details.Keys == {FPath, FManifestHash};
  }

  // ---- An admitted completion ---------------------------------------------------------------------------

  /** On an accepted ledger, the head packet lacks a completion exactly when all earlier packets
      have one and it does not. */
  lemma HeadUncompleted(env: Env, key: Key, t: Tables)
    requires Accepts(env, key, t) && t.job.packetText.Canonical?
    requires t.job.packetText.value.inputHash !in t.completions
    ensures var v := ViewOf(env, key, t);
            |v.accepted| + 1 == |v.packets| == |t.packets| && v.final == None && v.artifact == None
  {
    AcceptedIsLogged(env, key, t);
    HeadPacket(env, key, t);
    var v, n := ViewOf(env, key, t), |t.packets| - 1;
    CompletedPrefix(env, key, t, v);
    if n >= 1 {
      assert LinkedAt(t, v.accepted, n);
    }
  }

  lemma CompletedPrefix(env: Env, key: Key, t: Tables, v: View)
    requires CompletionsOk(env, key, t, v)
    ensures |v.accepted| <= |t.packets|
    ensures forall i :: 0 <= i < |v.accepted| ==> t.packets[i].inputHash in t.completions
  {
    hide CompletionAt;
    if v.accepted != [] {
      CompletedAt(env, key, t, v.accepted, |v.accepted| - 1);
    }
    forall i | 0 <= i < |v.accepted| ensures t.packets[i].inputHash in t.completions {
      CompletedAt(env, key, t, v.accepted, i);
    }
  }

  lemma CompletedAt(env: Env, key: Key, t: Tables, accepted: seq<AcceptedEvent>, i: int)
    requires 0 <= i < |accepted| && CompletionAt(env, key, t, accepted, i)
    ensures i < |t.packets| && t.packets[i].inputHash in t.completions
  {
    hide CompletionRowOk;
  }

  ghost function WithAccepted(v: View, p: Packet, hash: string, n: int): View {
    v.(accepted := v.accepted + [AcceptedEvent(p.stageId, p.inputHash, hash, n)])
  }

  /** The tables after the submission, the completion row and the acceptance event. */
  ghost predicate Admitted(env: Env, key: Key, t: Tables, c: Completion, t1: Tables) {
    && t1.packets == t.packets && SameBinding(t.job, t1.job) && t1.job.status == t.job.status
    && t1.job.artifactPath == t.job.artifactPath && t1.job.artifactHash == t.job.artifactHash
    && t1.completions == t.completions[c.inputHash := CompletionRow(env.completionHash(c), Canonical(c))]
    && |t1.events| == |t.events| + 2
  }

  lemma AdmittedLogged(env: Env, key: Key, t: Tables, c: Completion, clock: Clock)
    requires Accepts(env, key, t) && t.job.packetText.Canonical? && t.job.contextText.Canonical?
    requires CompletionOk(env, c) && c.inputHash !in t.completions
    requires Judge(env, t.job.packetText.value, c, t.job.contextText.value) == Admit
    requires AcceptSteps(env, key, t, t.job.packetText.value, c, clock).Some?
    ensures var t1 := AcceptSteps(env, key, t, t.job.packetText.value, c, clock).value;
            && Admitted(env, key, t, c, t1)
            && Logged(env, key, t1,
                      WithAccepted(ViewOf(env, key, t), t.job.packetText.value, env.completionHash(c), |t.events| + 1))
  {
    AcceptedIsLogged(env, key, t);
    HeadPacket(env, key, t);
    HeadUncompleted(env, key, t);
    var p, v, hash: Digest := t.job.packetText.value, ViewOf(env, key, t), env.completionHash(c);
    var n := |t.packets| - 1;
    assert PacketRowOk(env, key, t.job, v.packets[n], t.packets[n]);
    SubmissionNeutral(env, p, c);
    NeutralReplays(v, |t.events|, key, t.job, clock, SubmittedDraft(p, c));
    AppendLogged(env, key, t, clock, SubmittedDraft(p, c), v, v);
    var t1 := Appended(env, key, t, clock, SubmittedDraft(p, c));
    var t2 := TryInsertCompletion(t1, c.inputHash, CompletionRow(hash, Canonical(c))).value;
    AcceptedReplays(v, |t2.events|, key, t2.job, clock, c, hash);
    AppendLogged(env, key, t2, clock, AcceptedDraft(c, hash), v, WithAccepted(v, p, hash, |t.events| + 1));
  }

  /** One more completion row, for the packet after the completed prefix. */
  lemma CompletionsGrow(env: Env, key: Key, t: Tables, t1: Tables, v: View, v1: View, row: CompletionRow)
    requires CompletionsOk(env, key, t, v) && LinksOk(t, v) && |v.accepted| < |t.packets|
    requires forall i, j :: 0 <= i < j < |t.packets| ==> t.packets[i].inputHash != t.packets[j].inputHash
    requires t1.packets == t.packets && t1.job.contextText == t.job.contextText
    requires t.packets[|v.accepted|].inputHash !in t.completions
    requires t1.completions == t.completions[t.packets[|v.accepted|].inputHash := row]
    requires |v1.accepted| == |v.accepted| + 1 && v1.accepted[..|v.accepted|] == v.accepted
    requires CompletionAt(env, key, t1, v1.accepted, |v.accepted|)
    ensures CompletionsOk(env, key, t1, v1) && LinksOk(t1, v1)
  {
    var n := |v.accepted|;
    assert forall i :: 0 <= i < n ==> v1.accepted[i] == v.accepted[i];
    forall i | 0 <= i < n + 1 ensures CompletionAt(env, key, t1, v1.accepted, i) {
      if i < n {
        assert CompletionAt(env, key, t, v.accepted, i);
        assert t.packets[i].inputHash != t.packets[n].inputHash;
      }
    }
    forall i | 1 <= i < |t.packets| ensures LinkedAt(t1, v1.accepted, i) {
      assert LinkedAt(t, v.accepted, i);
    }
  }

  lemma AdmittedRow(env: Env, key: Key, p: Packet, c: Completion, context: Json, n: int)
    requires PacketOk(env, p) && CompletionOk(env, c) && p.companyId == key.companyId && p.jobId == key.jobId
    requires Judge(env, p, c, context) == Admit
    ensures CompletionRowOk(env, key, context, p, AcceptedEvent(p.stageId, p.inputHash, env.completionHash(c), n),
                            CompletionRow(env.completionHash(c), Canonical(c)))
    ensures c.inputHash == p.inputHash && c.stageId == p.stageId && c.companyId == key.companyId && c.jobId == key.jobId
  {
    CompletionReload(env, c);
  }

  /** The completions table after admission matches the longer list of acceptances. */
  lemma AdmittedCompletions(env: Env, key: Key, t: Tables, c: Completion, t1: Tables)
    requires SchemaOk(t) && Accepts(env, key, t) && t.job.packetText.Canonical? && t.job.contextText.Canonical?
    requires CompletionOk(env, c) && c.inputHash !in t.completions
    requires Judge(env, t.job.packetText.value, c, t.job.contextText.value) == Admit
    requires Admitted(env, key, t, c, t1)
    ensures var v1 := WithAccepted(ViewOf(env, key, t), t.job.packetText.value, env.completionHash(c), |t.events| + 1);
            CompletionsOk(env, key, t1, v1) && LinksOk(t1, v1)
  {
    hide CompletionRowOk, Judge, PacketOk;
    HeadPacket(env, key, t);
    var p := t.job.packetText.value;
    AdmittedRow(env, key, p, c, t.job.contextText.value, |t.events| + 1);
    HeadUncompleted(env, key, t);
    var v := ViewOf(env, key, t);
    var v1 := WithAccepted(v, p, env.completionHash(c), |t.events| + 1);
    assert CompletionAt(env, key, t1, v1.accepted, |v.accepted|);
    CompletionsGrow(env, key, t, t1, v, v1, CompletionRow(env.completionHash(c), Canonical(c)));
  }

  /** Positions stay ordered when the acceptance and then the final record are appended. */
  lemma OrderAfterFinal(v: View, p: Packet, hash: string, n: int)
    requires ViewShape(v, n) && OrderOk(v) && |v.accepted| + 1 == |v.packets| == STAGE_COUNT
    requires v.final == None && v.artifact == None
    ensures OrderOk(WithAccepted(v, p, hash, n + 1).(final := Some((p.inputHash, n + 2))))
  {
  }

  /** Positions stay ordered when the acceptance and then the next packet are appended. */
  lemma OrderAfterAdvance(v: View, p: Packet, hash: string, n: int, e: PacketEvent)
    requires ViewShape(v, n) && OrderOk(v) && |v.accepted| + 1 == |v.packets| && v.final == None && v.artifact == None
    requires e.position == n + 2
    ensures OrderOk(WithAccepted(v, p, hash, n + 1).(packets := v.packets + [e]))
  {
  }

  /** Everything that the two ways of finishing an admission need. */
  ghost predicate Admission(env: Env, key: Key, t: Tables, c: Completion, t1: Tables, v: View, v1: View, p: Packet) {
    && Admitted(env, key, t, c, t1) && Logged(env, key, t1, v1)
    && CompletionsOk(env, key, t1, v1) && LinksOk(t1, v1)
    && MaterializedOk(env, key, t, v) && ViewShape(v, |t.events|)
    && v1 == WithAccepted(v, p, env.completionHash(c), |t.events| + 1)
    && |v.accepted| + 1 == |v.packets| == |t.packets| && v.final == None && v.artifact == None
    && PacketOk(env, p) && IsSha256(p.inputHash) && t.job.packetText == Canonical(p) && p.sequence == |t.packets| - 1
    && p.inputHash == v.packets[|v.accepted|].inputHash && c.inputHash == p.inputHash
    && t.packets[|v.accepted|] == PacketRowFor(p)
    && p.companyId == key.companyId && p.jobId == key.jobId && SameAuthority(p, t.job)
  }

  lemma AdmissionHolds(env: Env, key: Key, t: Tables, c: Completion, clock: Clock)
    requires SchemaOk(t) && Accepts(env, key, t) && t.job.packetText.Canonical? && t.job.contextText.Canonical?
    requires CompletionOk(env, c) && c.inputHash !in t.completions
    requires Judge(env, t.job.packetText.value, c, t.job.contextText.value) == Admit
    requires AcceptSteps(env, key, t, t.job.packetText.value, c, clock).Some?
    ensures var p, v := t.job.packetText.value, ViewOf(env, key, t);
            Admission(env, key, t, c, AcceptSteps(env, key, t, p, c, clock).value, v,
                      WithAccepted(v, p, env.completionHash(c), |t.events| + 1), p)
  {
    hide CompletionsOk, LinksOk, PacketsOk, ContextOk, PacketOk, OrderOk, ArtifactOk, ChainOk, Replay, SchemaOk, Logged,
      Admitted;
    AcceptedIsLogged(env, key, t);
    HeadPacket(env, key, t);
    HeadUncompleted(env, key, t);
    var p, v := t.job.packetText.value, ViewOf(env, key, t);
    AdmittedLogged(env, key, t, c, clock);
    AdmittedCompletions(env, key, t, c, AcceptSteps(env, key, t, p, c, clock).value);
    AdmittedRow(env, key, p, c, t.job.contextText.value, 0);
    LastPacketEvent(env, key, t, v);
  }

  lemma LastPacketEvent(env: Env, key: Key, t: Tables, v: View)
    requires PacketsOk(env, key, t, v)
    ensures v.packets[|t.packets| - 1].inputHash == t.packets[|t.packets| - 1].inputHash
  {
    assert PacketRowOk(env, key, t.job, v.packets[|t.packets| - 1], t.packets[|t.packets| - 1]);
  }

  lemma SchemaAfterAdmission(env: Env, key: Key, t: Tables, c: Completion, t1: Tables, k: int)
    requires SchemaOk(t) && Admitted(env, key, t, c, t1)
    requires 0 <= k < |t.packets| && t.packets[k].inputHash == c.inputHash
    ensures SchemaOk(t1)
  {
    forall h | h in t1.completions ensures exists i :: 0 <= i < |t1.packets| && t1.packets[i].inputHash == h {
      if h == c.inputHash {
        assert t1.packets[k].inputHash == h;
      } else {
        assert h in t.completions;
      }
    }
  }

  lemma FinalLogged(env: Env, key: Key, t1: Tables, v1: View, inputHash: string, clock: Clock)
    requires Logged(env, key, t1, v1) && v1.final == None && IsSha256(inputHash)
    ensures Logged(env, key, Appended(env, key, WithStatus(t1, FinalQaReady), clock, FinalDraft(inputHash)),
                   v1.(final := Some((inputHash, |t1.events|))))
  {
    var s1 := WithStatus(t1, FinalQaReady);
    FinalReplays(v1, |t1.events|, key, s1.job, clock, inputHash);
    AppendLogged(env, key, s1, clock, FinalDraft(inputHash), v1, v1.(final := Some((inputHash, |t1.events|))));
  }

  lemma FinalAccepted(env: Env, key: Key, t: Tables, c: Completion, t1: Tables, v: View, v1: View, p: Packet,
                      clock: Clock)
    requires SchemaOk(t) && Admission(env, key, t, c, t1, v, v1, p) && p.sequence == STAGE_COUNT - 1
    ensures var t2 := Appended(env, key, WithStatus(t1, FinalQaReady), clock, FinalDraft(c.inputHash));
            SchemaOk(t2) && Accepts(env, key, t2)
  {
    hide CompletionsOk, LinksOk, PacketsOk, ContextOk, PacketOk, ViewShape, ArtifactOk, ChainOk, Replay;
    var n := |t.events|;
    var v2 := v1.(final := Some((p.inputHash, n + 2)));
    var t2 := Appended(env, key, WithStatus(t1, FinalQaReady), clock, FinalDraft(c.inputHash));
    assert Logged(env, key, t2, v2) by {
      FinalLogged(env, key, t1, v1, c.inputHash, clock);
    }
    assert MaterializedOk(env, key, t2, v2) by {
      OrderAfterFinal(v, p, env.completionHash(c), n);
      FinalMaterialized(env, key, t, t1, t2, v, v1, v2);
    }
    assert SchemaOk(t2) by {
      SchemaAfterAdmission(env, key, t, c, t1, |v.accepted|);
    }
    AppendedFacts(env, key, WithStatus(t1, FinalQaReady), clock, FinalDraft(c.inputHash));
    LoggedIsAccepted(env, key, t2, v2);
  }

  lemma FinalMaterialized(env: Env, key: Key, t: Tables, t1: Tables, t2: Tables, v: View, v1: View, v2: View)
    requires MaterializedOk(env, key, t, v) && v.artifact == None
    requires CompletionsOk(env, key, t1, v1) && LinksOk(t1, v1) && OrderOk(v2)
    requires v1.packets == v.packets && v2 == v1.(final := v2.final) && v1.artifact == None
    requires t2.packets == t1.packets == t.packets && t2.completions == t1.completions
    requires SameBinding(t.job, t1.job) && SameBinding(t1.job, t2.job)
    requires t2.job.artifactPath == t.job.artifactPath && t2.job.artifactHash == t.job.artifactHash
    ensures MaterializedOk(env, key, t2, v2)
  {
    PacketsFrame(env, key, t, t2, v);
    forall i | 0 <= i < |t2.packets| ensures PacketRowOk(env, key, t2.job, v2.packets[i], t2.packets[i]) {
      assert PacketRowOk(env, key, t2.job, v.packets[i], t2.packets[i]);
    }
    forall i | 0 <= i < |v2.accepted| ensures CompletionAt(env, key, t2, v2.accepted, i) {
      assert CompletionAt(env, key, t1, v1.accepted, i);
    }
    forall i | 1 <= i < |t2.packets| ensures LinkedAt(t2, v2.accepted, i) {
      assert LinkedAt(t1, v1.accepted, i);
    }
  }

  // ---- The next packet -----------------------------------------------------------------------------------

  /** The next packet carries the same authority and names the completion it follows. */
  lemma NextPacketFields(env: Env, p: Packet, hash: string, payload: Json)
    requires PacketOk(env, p) && 0 <= p.sequence < STAGE_COUNT - 1 && IsSha256(hash)
    requires NextPacket(env, p, hash, payload).Some?
    ensures var q := NextPacket(env, p, hash, payload).value;
      && PacketOk(env, q) && q.sequence == p.sequence + 1 && q.previous == Some(hash)
      && q.companyId == p.companyId && q.jobId == p.jobId && q.approvalId == p.approvalId
      && q.planFingerprint == p.planFingerprint && q.snapshotHash == p.snapshotHash && q.evidenceHash == p.evidenceHash
      && q.providerId == p.providerId && q.modelId == p.modelId && q.sessionRef == p.sessionRef
      && q.template == p.template
  {
    hide NewPacket, Strip, IsSpace, IsSha256;
    var heading, stage := env.heading(p.stageId), StageId(p.sequence + 1);
    var body := p.(
      stageId := stage, sequence := p.sequence + 1, previous := Some(hash), inputHash := "",
      prompt := env.heading(stage) + env.history(p.stageId, hash, payload) + p.prompt[|heading|..]);
    HashedFields(env, body);
  }

  /** Fields that are already trimmed survive construction; only the prompt can still change. */
  lemma HashedFields(env: Env, raw: Packet)
    requires Trimmed(raw.jobId) && Trimmed(raw.companyId) && Trimmed(raw.approvalId) && Trimmed(raw.providerId)
    requires Trimmed(raw.modelId) && Trimmed(raw.sessionRef) && Trimmed(raw.template)
    requires IsSha256(raw.planFingerprint) && IsSha256(raw.snapshotHash) && IsSha256(raw.evidenceHash)
    requires raw.previous.Some? ==> IsSha256(raw.previous.value)
    requires Hashed(env, raw).Some?
    ensures PacketOk(env, Hashed(env, raw).value)
    ensures var q := Hashed(env, raw).value; q == raw.(inputHash := q.inputHash, prompt := q.prompt)
  {
    NewPacketOk(env, raw.(inputHash := env.packetHash(Identity(raw))));
    TrimmedIsStripped(raw.jobId); TrimmedIsStripped(raw.companyId); TrimmedIsStripped(raw.approvalId);
    TrimmedIsStripped(raw.providerId); TrimmedIsStripped(raw.modelId); TrimmedIsStripped(raw.sessionRef);
    TrimmedIsStripped(raw.template);
    DigestIsTrimmed(raw.planFingerprint); DigestIsTrimmed(raw.snapshotHash); DigestIsTrimmed(raw.evidenceHash);
    if raw.previous.Some? {
      DigestIsTrimmed(raw.previous.value);
    }
  }

  lemma PacketsGrow(env: Env, key: Key, t: Tables, t2: Tables, v: View, v2: View, next: Packet)
    requires PacketsOk(env, key, t, v) && PacketOk(env, next)
    requires next.companyId == key.companyId && next.jobId == key.jobId && next.sequence == |t.packets|
    requires t2.packets == t.packets + [PacketRowFor(next)] && t2.job.packetText == Canonical(next)
    requires t2.job.approvalId == t.job.approvalId == next.approvalId
    requires t2.job.planFingerprint == t.job.planFingerprint == next.planFingerprint
    requires t2.job.snapshotHash == t.job.snapshotHash == next.snapshotHash
    requires t2.job.evidenceHash == t.job.evidenceHash == next.evidenceHash
    requires |v2.packets| == |v.packets| + 1 && v2.packets[..|v.packets|] == v.packets
    requires v2.packets[|v.packets|].stageId == next.stageId && v2.packets[|v.packets|].sequence == next.sequence
    requires v2.packets[|v.packets|].inputHash == next.inputHash
    ensures PacketsOk(env, key, t2, v2)
  {
    var n := |t.packets|;
    assert forall i :: 0 <= i < n ==> v2.packets[i] == v.packets[i];
    forall i | 0 <= i < n + 1 ensures PacketRowOk(env, key, t2.job, v2.packets[i], t2.packets[i]) {
      if i < n {
        assert PacketRowOk(env, key, t.job, v.packets[i], t.packets[i]);
      }
    }
  }

  /** Completions and links keep holding when a packet that follows the last acceptance is added. */
  lemma LinksGrow(env: Env, key: Key, t1: Tables, t2: Tables, v1: View, v2: View, next: Packet)
    requires CompletionsOk(env, key, t1, v1) && LinksOk(t1, v1) && |v1.accepted| == |t1.packets| > 0
    requires t2.packets == t1.packets + [PacketRowFor(next)] && t2.completions == t1.completions
    requires t2.job.contextText == t1.job.contextText && v2.accepted == v1.accepted
    requires next.previous == Some(v1.accepted[|v1.accepted| - 1].completionHash)
    ensures CompletionsOk(env, key, t2, v2) && LinksOk(t2, v2)
  {
    forall i | 0 <= i < |v2.accepted| ensures CompletionAt(env, key, t2, v2.accepted, i) {
      assert CompletionAt(env, key, t1, v1.accepted, i);
    }
    forall i | 1 <= i < |t2.packets| ensures LinkedAt(t2, v2.accepted, i) {
      if i < |t1.packets| {
        assert LinkedAt(t1, v1.accepted, i);
      }
    }
  }

  lemma SchemaAfterPacket(t1: Tables, t2: Tables, next: Packet)
    requires SchemaOk(t1) && TryInsertPacket(t1, next).Some?
    requires t2.packets == t1.packets + [PacketRowFor(next)] && t2.completions == t1.completions
    requires t2.job.artifactPath == t1.job.artifactPath && t2.job.artifactHash == t1.job.artifactHash
    ensures SchemaOk(t2)
  {
    forall h | h in t2.completions ensures exists i :: 0 <= i < |t2.packets| && t2.packets[i].inputHash == h {
      var i :| 0 <= i < |t1.packets| && t1.packets[i].inputHash == h;
      assert t2.packets[i].inputHash == h;
    }
  }

  /** The head trigger lets the head move from the completed packet to the one just inserted. */
  lemma HeadMoves(t: Tables, p: Packet, next: Packet, n: int)
    requires 0 <= n < |t.packets| - 1 && t.packets[n].text == t.job.packetText && t.packets[n].sequence == n
    requires t.packets[n + 1] == PacketRowFor(next) && next.sequence == n + 1
    ensures TrySetHead(t, AwaitingOperator, Canonical(next)) ==
            Some(t.(job := t.job.(status := AwaitingOperator, packetText := Canonical(next))))
  {
    assert t.packets[n + 1].sequence == t.packets[n].sequence + 1;
  }

  /** The tables after the next packet is inserted, announced, and made the head. */
  ghost function Advanced(env: Env, key: Key, t1: Tables, next: Packet, clock: Clock): Tables {
    var t2 := t1.(packets := t1.packets + [PacketRowFor(next)]);
    var t3 := Appended(env, key, t2, clock, PreparedDraft(next));
    t3.(job := t3.job.(status := AwaitingOperator, packetText := Canonical(next)))
  }

  ghost function AdvancedView(v1: View, next: Packet, position: int): View {
    v1.(packets := v1.packets + [PacketEvent(next.stageId, next.sequence, next.inputHash, position)])
  }

  lemma AdvancedMaterialized(env: Env, key: Key, t: Tables, c: Completion, t1: Tables, v: View, v1: View, p: Packet,
                             next: Packet, clock: Clock)
    requires Admission(env, key, t, c, t1, v, v1, p) && 0 <= p.sequence < STAGE_COUNT - 1
    requires NextPacket(env, p, env.completionHash(c), c.payload) == Some(next)
    ensures MaterializedOk(env, key, Advanced(env, key, t1, next, clock), AdvancedView(v1, next, |t1.events|))
  {
    hide CompletionsOk, LinksOk, PacketsOk, PacketOk, ViewShape, OrderOk, ChainOk, Replay, Logged, NextPacket;
    var hash: Digest, t4, v2 :=
      env.completionHash(c), Advanced(env, key, t1, next, clock), AdvancedView(v1, next, |t1.events|);
    NextPacketFields(env, p, hash, c.payload);
    OrderAfterAdvance(v, p, hash, |t.events|, PacketEvent(next.stageId, next.sequence, next.inputHash, |t1.events|));
    PacketsGrow(env, key, t, t4, v, v2, next);
    LinksGrow(env, key, t1, t4, v1, v2, next);
  }

  lemma AdvanceAccepted(env: Env, key: Key, t: Tables, c: Completion, t1: Tables, v: View, v1: View, p: Packet,
                        next: Packet, clock: Clock)
    requires SchemaOk(t) && Admission(env, key, t, c, t1, v, v1, p) && 0 <= p.sequence < STAGE_COUNT - 1
    requires NextPacket(env, p, env.completionHash(c), c.payload) == Some(next)
    requires TryInsertPacket(t1, next).Some?
    ensures SchemaOk(Advanced(env, key, t1, next, clock)) && Accepts(env, key, Advanced(env, key, t1, next, clock))
    ensures TrySetHead(Appended(env, key, TryInsertPacket(t1, next).value, clock, PreparedDraft(next)),
                       AwaitingOperator, Canonical(next))
            == Some(Advanced(env, key, t1, next, clock))
  {
    hide CompletionsOk, LinksOk, PacketsOk, PacketOk, ViewShape, OrderOk, ChainOk, Replay, MaterializedOk, SchemaOk,
      NextPacket, Logged;
    var t4, v2 := Advanced(env, key, t1, next, clock), AdvancedView(v1, next, |t1.events|);
    var t2 := TryInsertPacket(t1, next).value;
    NextPacketFields(env, p, env.completionHash(c), c.payload);
    HeadMoves(Appended(env, key, t2, clock, PreparedDraft(next)), p, next, |t.packets| - 1);
    PreparedLogged(env, key, t1, t2, v1, next, clock);
    StatusLogged(env, key, Appended(env, key, t2, clock, PreparedDraft(next)), t4, v2);
    SchemaAfterAdmission(env, key, t, c, t1, |t.packets| - 1);
    SchemaAfterPacket(t1, t4, next);
    AdvancedMaterialized(env, key, t, c, t1, v, v1, p, next, clock);
    AppendedFacts(env, key, t2, clock, PreparedDraft(next));
    LoggedIsAccepted(env, key, t4, v2);
  }

  /** Columns other than the event head do not matter to the log. */
  lemma StatusLogged(env: Env, key: Key, t: Tables, t': Tables, v: View)
    requires Logged(env, key, t, v)
    requires t'.events == t.events && t'.job.eventCount == t.job.eventCount
    requires t'.job.headHash == t.job.headHash && t'.job.headMac == t.job.headMac
    ensures Logged(env, key, t', v)
  {
  }

  lemma PreparedLogged(env: Env, key: Key, t1: Tables, t2: Tables, v1: View, next: Packet, clock: Clock)
    requires Logged(env, key, t1, v1) && t2 == t1.(packets := t2.packets)
    requires PacketOk(env, next) && next.sequence == |v1.packets|
    ensures Logged(env, key, Appended(env, key, t2, clock, PreparedDraft(next)),
                   v1.(packets := v1.packets + [PacketEvent(next.stageId, next.sequence, next.inputHash, |t1.events|)]))
  {
    var e := PacketEvent(next.stageId, next.sequence, next.inputHash, |t1.events|);
    PreparedReplays(env, v1, |t1.events|, key, t2.job, clock, next);
    AppendLogged(env, key, t2, clock, PreparedDraft(next), v1, v1.(packets := v1.packets + [e]));
  }

  // ---- Artifact and first packet ------------------------------------------------------------------------------

  lemma FreezeAccepted(env: Env, key: Key, t: Tables, path: string, hash: string, clock: Clock)
    requires SchemaOk(t) && Accepts(env, key, t) && t.job.status == FinalQaReady
    requires Trimmed(path) && IsSha256(hash)
    requires FreezeSteps(env, key, t, path, hash, clock).Some?
    ensures var t2 := FreezeSteps(env, key, t, path, hash, clock).value; SchemaOk(t2) && Accepts(env, key, t2)
  {
    hide CompletionsOk, LinksOk, PacketsOk, PacketOk, ContextOk, ChainOk;
    AcceptedIsLogged(env, key, t);
    var v, t1 := ViewOf(env, key, t), TryBindArtifact(t, path, hash).value;
    FinalRecorded(env, key, t, v);
    StatusLogged(env, key, t, t1, v);
    FrozenReplays(v, |t.events|, key, t1.job, clock, path, hash);
    var v2 := v.(artifact := Some((path, hash, |t.events|)));
    AppendLogged(env, key, t1, clock, FrozenDraft(path, hash), v, v2);
    var t2 := Appended(env, key, t1, clock, FrozenDraft(path, hash));
    FrozenMaterialized(env, key, t, t2, v, v2);
    AppendedFacts(env, key, t1, clock, FrozenDraft(path, hash));
    LoggedIsAccepted(env, key, t2, v2);
    SchemaFrame(t, t2);
  }

  lemma SchemaFrame(t: Tables, t2: Tables)
    requires SchemaOk(t) && t2.packets == t.packets && t2.completions == t.completions
    requires t2.job.artifactPath.None? <==> t2.job.artifactHash.None?
    ensures SchemaOk(t2)
  {
  }

  /** When the last event is FINAL_QA_READY the view has its final record and no artifact yet. */
  lemma FinalRecorded(env: Env, key: Key, t: Tables, v: View)
    requires t.events != [] && Logged(env, key, t, v) && OrderOk(v) && ViewShape(v, |t.events|)
    requires t.events[|t.events| - 1].eventType == FinalQa
    ensures v.final.Some? && v.artifact == None
  {
    var n := |t.events| - 1;
    var bodies := Bodies(t.events);
    assert LinkOk(env, key, t.events, n);
    assert bodies[n].eventType == FinalQa;
    assert Replay1(Replay(bodies[..n]).value, n, bodies[n]) == Some(v);
  }

  lemma FrozenMaterialized(env: Env, key: Key, t: Tables, t2: Tables, v: View, v2: View)
    requires MaterializedOk(env, key, t, v) && v.final.Some? && v.artifact == None && v.final.value.1 < |t.events|
    requires v2 == v.(artifact := v2.artifact) && v2.artifact.Some? && v2.artifact.value.2 == |t.events|
    requires t2.packets == t.packets && t2.completions == t.completions && SameBinding(t.job, t2.job)
    requires t2.job.artifactPath == Some(v2.artifact.value.0) && t2.job.artifactHash == Some(v2.artifact.value.1)
    ensures MaterializedOk(env, key, t2, v2)
  {
    var t1 := t2.(job := t2.job.(artifactPath := t.job.artifactPath, artifactHash := t.job.artifactHash));
    MaterializedFrame(env, key, t, t1, v);
    PacketsFrame(env, key, t1, t2, v);
    forall i | 0 <= i < |t2.packets| ensures PacketRowOk(env, key, t2.job, v2.packets[i], t2.packets[i]) {
      assert PacketRowOk(env, key, t2.job, v.packets[i], t2.packets[i]);
    }
    forall i | 0 <= i < |v2.accepted| ensures CompletionAt(env, key, t2, v2.accepted, i) {
      assert CompletionAt(env, key, t1, v.accepted, i);
    }
    forall i | 1 <= i < |t2.packets| ensures LinkedAt(t2, v2.accepted, i) {
      assert LinkedAt(t1, v.accepted, i);
    }
  }

  /** What `build_stage_packet` returns: an outline packet of this job and this context. */
  lemma OutlineFields(env: Env, job: JobInput, snap: SnapshotInput, session: string)
    requires IdentifiersOk(job) && OutlinePacket(env, job, snap, session).Some?
    ensures var p := OutlinePacket(env, job, snap, session).value;
      && PacketOk(env, p) && p.sequence == 0 && p.companyId == job.companyId && p.jobId == job.jobId
      && snap.context.Obj? && env.contextHash(snap.context) == p.snapshotHash
      && p.snapshotHash == job.snapshotHash && p.evidenceHash == env.evidenceHash(snap.context)
      && p.approvalId == Strip(job.approvalId) && p.planFingerprint == Strip(job.planFingerprint)
      && p.sessionRef == Strip(session) && p.providerId == "openai-codex" && p.modelId == "gpt-5.6-terra"
      && p.template == "supervised-subscription-v1"
  {
    var raw := Packet(
      job.jobId, job.companyId, Outline, 0, job.approvalId, job.planFingerprint,
      snap.snapshotHash, env.evidenceHash(snap.context), PROVIDER_ID, MODEL_ID, Strip(session), PIPELINE_VERSION,
      None, "", env.heading(Outline) + env.instructions(snap.context));
    NewPacketOk(env, raw.(inputHash := env.packetHash(Identity(raw))));
    TrimmedIsStripped(job.jobId); TrimmedIsStripped(job.companyId);
    StripAgain(session);
    ConstantsTrimmed();
    TrimmedIsStripped(PROVIDER_ID); TrimmedIsStripped(MODEL_ID); TrimmedIsStripped(PIPELINE_VERSION);
    var context, evidence: Digest := env.contextHash(snap.context), env.evidenceHash(snap.context);
    DigestIsTrimmed(context); DigestIsTrimmed(evidence);
    hide Strip, IsSpace, Trimmed, IsSha256, PacketOk;
  }

  lemma ConstantsTrimmed()
    ensures Trimmed(PROVIDER_ID) && Trimmed(MODEL_ID) && Trimmed(PIPELINE_VERSION)
  {
  }

  lemma PacketZero(env: Env, p: Packet)
    requires PacketOk(env, p) && p.sequence == 0
    ensures p.stageId == StageId(0) && p.previous == None
  {
  }

  lemma FreshAccepted(env: Env, key: Key, p: Packet, context: Json, clock: Clock)
    requires PacketOk(env, p) && p.sequence == 0 && p.companyId == key.companyId && p.jobId == key.jobId
    requires context.Obj? && env.contextHash(context) == p.snapshotHash
    ensures var t := Appended(env, key, FreshTables(p, context), clock, PreparedDraft(p));
            SchemaOk(t) && Accepts(env, key, t)
  {
    hide PacketOk, IsSha256, Trimmed, NeutralOk;
    PacketZero(env, p);
    var t0 := FreshTables(p, context);
    var t := Appended(env, key, t0, clock, PreparedDraft(p));
    var v := EMPTY_VIEW.(packets := [PacketEvent(p.stageId, 0, p.inputHash, 0)]);
    assert Bodies(t0.events) == [];
    PreparedReplays(env, EMPTY_VIEW, 0, key, t0.job, clock, p);
    assert EMPTY_VIEW.packets + [PacketEvent(p.stageId, 0, p.inputHash, 0)] == v.packets;
    AppendLogged(env, key, t0, clock, PreparedDraft(p), EMPTY_VIEW, v);
    assert PacketRowOk(env, key, t.job, v.packets[0], t.packets[0]);
    LoggedIsAccepted(env, key, t, v);
  }

  // ---- Every operation, every run -----------------------------------------------------------------------------------

  ghost predicate Sound(env: Env, l: Ledger) {
    forall key :: key in l ==> SchemaOk(l[key]) && Accepts(env, key, l[key])
  }

  lemma RejectSound(env: Env, key: Key, t: Tables, c: Completion, reason: Reason, clock: Clock)
    requires SchemaOk(t) && Accepts(env, key, t) && CompletionOk(env, c) && t.job.packetText.Canonical?
    requires t.job.status == AwaitingOperator
    requires RejectSteps(env, key, t, t.job.packetText.value, c, reason, clock).Some?
    ensures var t2 := RejectSteps(env, key, t, t.job.packetText.value, c, reason, clock).value;
            SchemaOk(t2) && Accepts(env, key, t2)
  {
    hide CompletionsOk, LinksOk, PacketsOk, ContextOk, ChainOk, Replay, OrderOk, ArtifactOk, NeutralOk, PacketOk,
      CompletionOk;
    var p, v := t.job.packetText.value, ViewOf(env, key, t);
    AcceptedIsLogged(env, key, t);
    HeadPacket(env, key, t);
    SubmissionNeutral(env, p, c);
    ReasonTrimmed(reason);
    RejectionNeutral(env, p, c, ReasonText(reason));
    NeutralReplays(v, |t.events|, key, t.job, clock, SubmittedDraft(p, c));
    AppendLogged(env, key, t, clock, SubmittedDraft(p, c), v, v);
    var t1 := Appended(env, key, t, clock, SubmittedDraft(p, c));
    NeutralStep(env, key, t, t1, v, clock, RejectedDraft(p, c, ReasonText(reason)));
  }

  lemma AdmitSound(env: Env, key: Key, t: Tables, c: Completion, clock: Clock)
    requires SchemaOk(t) && Accepts(env, key, t) && t.job.packetText.Canonical? && t.job.contextText.Canonical?
    requires CompletionOk(env, c) && c.inputHash !in t.completions
    requires Judge(env, t.job.packetText.value, c, t.job.contextText.value) == Admit
    requires AcceptSteps(env, key, t, t.job.packetText.value, c, clock).Some?
    ensures var p := t.job.packetText.value;
      if p.sequence == STAGE_COUNT - 1 then
        var t2 := FinalSteps(env, key, t, p, c, clock); t2.Some? ==> SchemaOk(t2.value) && Accepts(env, key, t2.value)
      else
        && 0 <= p.sequence < STAGE_COUNT - 1
        && var next := NextPacket(env, p, env.completionHash(c), c.payload);
           next.Some? ==>
             var t2 := AdvanceSteps(env, key, t, p, c, next.value, clock);
             t2.Some? ==> SchemaOk(t2.value) && Accepts(env, key, t2.value)
  {
    hide Accepts, SchemaOk, Judge, NextPacket, AcceptSteps, Admission, PacketOk, Appended, EventUnused;
    HeadPacket(env, key, t);
    AdmissionHolds(env, key, t, c, clock);
    var p, v, t1 :=
      t.job.packetText.value, ViewOf(env, key, t), AcceptSteps(env, key, t, t.job.packetText.value, c, clock).value;
    var v1 := WithAccepted(v, p, env.completionHash(c), |t.events| + 1);
    if p.sequence == STAGE_COUNT - 1 {
      FinalAccepted(env, key, t, c, t1, v, v1, p, clock);
    } else {
      var next := NextPacket(env, p, env.completionHash(c), c.payload);
      if next.Some? && TryInsertPacket(t1, next.value).Some? {
        AdvanceAccepted(env, key, t, c, t1, v, v1, p, next.value, clock);
      }
    }
  }

  lemma BindSound(env: Env, l: Ledger, c: Completion, clock: Clock)
    requires Sound(env, l) && CompletionOk(env, c)
    ensures Sound(env, Bind(env, l, c, clock).0)
  {
    hide Accepts, SchemaOk, RejectSteps, Judge, NextPacket, AcceptSteps, FinalSteps, AdvanceSteps, PacketOk,
      CompletionOk, Appended, EventUnused;
    var key := Key(c.companyId, c.jobId);
    if key in l && c.inputHash !in l[key].completions && l[key].job.status == AwaitingOperator {
      var t := l[key];
      HeadPacket(env, key, t);
      var p := t.job.packetText.value;
      var judged := Judge(env, p, c, t.job.contextText.value);
      if judged.Reject? {
        if RejectSteps(env, key, t, p, c, judged.reason, clock).Some? {
          RejectSound(env, key, t, c, judged.reason, clock);
        }
      } else if judged.Admit? && AcceptSteps(env, key, t, p, c, clock).Some? {
        AdmitSound(env, key, t, c, clock);
      }
    }
  }

  lemma PrepareSound(env: Env, l: Ledger, job: JobInput, snap: SnapshotInput, session: string, clock: Clock)
    requires Sound(env, l) && IdentifiersOk(job)
    ensures Sound(env, Prepare(env, l, job, snap, session, clock).0)
  {
    hide Accepts, SchemaOk, OutlinePacket, Appended, PacketOk;
    var built := OutlinePacket(env, job, snap, session);
    if built.Some? {
      OutlineFields(env, job, snap, session);
      FreshAccepted(env, Key(job.companyId, job.jobId), built.value, snap.context, clock);
    }
  }

  lemma ArtifactSound(env: Env, l: Ledger, companyId: string, jobId: string, path: string, hash: string, clock: Clock)
    requires Sound(env, l)
    ensures Sound(env, RecordArtifact(env, l, companyId, jobId, path, hash, clock).0)
  {
    hide Accepts, SchemaOk, FreezeSteps;
    var key, b := Key(Strip(companyId), Strip(jobId)), NewBinding(env, path, hash);
    if b.Some? && key in l && l[key].job.status == FinalQaReady {
      StripTrims(path);
      if FreezeSteps(env, key, l[key], b.value.0, b.value.1, clock).Some? {
        FreezeAccepted(env, key, l[key], b.value.0, b.value.1, clock);
      }
    }
  }

  /** A status change announced by one neutral event. */
  lemma StatusStepSound(env: Env, key: Key, t: Tables, status: Status, clock: Clock, d: EventDraft)
    requires SchemaOk(t) && Accepts(env, key, t)
    requires StatusAfter(d.eventType) == Some(status) && NeutralOk(d.eventType, d.details)
    ensures var t2 := Appended(env, key, WithStatus(t, status), clock, d); SchemaOk(t2) && Accepts(env, key, t2)
  {
    hide CompletionsOk, LinksOk, PacketsOk, ContextOk, ChainOk, Replay, OrderOk, ArtifactOk, NeutralOk;
    AcceptedIsLogged(env, key, t);
    StatusChangeLogged(env, key, t, status);
    NeutralStep(env, key, t, WithStatus(t, status), ViewOf(env, key, t), clock, d);
  }

  lemma RecoverySound(env: Env, l: Ledger, companyId: string, jobId: string, clock: Clock)
    requires Sound(env, l)
    ensures Sound(env, MarkRecovery(env, l, companyId, jobId, clock).0)
  {
    hide Accepts, SchemaOk, Appended, EventUnused, PacketOk, NeutralOk;
    var key := Key(Strip(companyId), Strip(jobId));
    if key in l && l[key].job.status == AwaitingOperator {
      HeadPacket(env, key, l[key]);
      var h := l[key].job.packetText.value.inputHash;
      RecoveryNeutral(h);
      StatusStepSound(env, key, l[key], RecoveryRequired, clock, RecoveryDraft(h));
    }
  }

  lemma ResolveSound(env: Env, l: Ledger, companyId: string, jobId: string, expected: string, operatorId: string,
                     clock: Clock)
    requires Sound(env, l)
    ensures Sound(env, Resolve(env, l, companyId, jobId, expected, operatorId, clock).0)
  {
    hide Accepts, SchemaOk, Appended, EventUnused, PacketOk, NeutralOk;
    var key := Key(Strip(companyId), Strip(jobId));
    if key in l && IsSha256(Strip(expected)) && Strip(operatorId) != "" {
      StripTrims(operatorId);
      ResolvedNeutral(Strip(operatorId), Strip(expected));
      StatusStepSound(env, key, l[key], AwaitingOperator, clock, ResolvedDraft(Strip(operatorId), Strip(expected)));
    }
  }

  lemma CancelSound(env: Env, l: Ledger, companyId: string, jobId: string, operatorId: string, clock: Clock)
    requires Sound(env, l)
    ensures Sound(env, Cancel(env, l, companyId, jobId, operatorId, clock).0)
  {
    hide Accepts, SchemaOk, Appended, EventUnused, PacketOk, NeutralOk;
    var key := Key(Strip(companyId), Strip(jobId));
    if key in l && l[key].job.status in {AwaitingOperator, RecoveryRequired} && Strip(operatorId) != "" {
      HeadPacket(env, key, l[key]);
      var h := l[key].job.packetText.value.inputHash;
      StripTrims(operatorId);
      CancelNeutral(Strip(operatorId), l[key].job.status, h);
      StatusStepSound(env, key, l[key], CancelRequested, clock, CancelDraft(Strip(operatorId), l[key].job.status, h));
    }
  }

  /** No operation, whatever its arguments, leaves tables that the validator refuses. */
  lemma StepSound(env: Env, l: Ledger, op: Op)
    requires Sound(env, l) && OpOk(env, op)
    ensures Sound(env, Step(env, l, op).0)
  {
    hide Prepare, Bind, RecordArtifact, MarkRecovery, Resolve, Cancel, Sound;
    match op
    case OpPrepare(job, snap, session, clock) => PrepareSound(env, l, job, snap, session, clock);
    case OpBind(c, clock) => BindSound(env, l, c, clock);
    case OpArtifact(companyId, jobId, path, hash, clock) => ArtifactSound(env, l, companyId, jobId, path, hash, clock);
    case OpRecovery(companyId, jobId, clock) => RecoverySound(env, l, companyId, jobId, clock);
    case OpResolve(companyId, jobId, expected, operatorId, clock) =>
      ResolveSound(env, l, companyId, jobId, expected, operatorId, clock);
    case OpCancel(companyId, jobId, operatorId, clock) => CancelSound(env, l, companyId, jobId, operatorId, clock);
  }

  /** Writer/validator agreement over whole runs. */
  lemma {:induction false} RunsAgree(env: Env, l: Ledger, ops: seq<Op>)
    requires Sound(env, l)
    requires forall i :: 0 <= i < |ops| ==> OpOk(env, ops[i])
    ensures Sound(env, Run(env, l, ops))
    decreases |ops|
  {
    hide Sound, Step;
    if ops != [] {
      StepSound(env, l, ops[0]);
      RunsAgree(env, Step(env, l, ops[0]).0, ops[1..]);
    }
  }
}
