/**
 What the rows say: the prompt of every packet over whole runs, what a submission logs and hands out,
 and the answer and effect of every other call, column by column.
 */
module LedgerContents {
  import opened Texts
  import opened JsonValue
  import opened LedgerModel
  import opened LedgerSteps
  import opened LedgerAgreement
  import opened LedgerHistory
  import opened LedgerOutcomes

  // ---- Prompts over runs ----------------------------------------------------------------------------------------

  /** In every ledger built from nothing, the prompt of every packet is the heading of its stage, then the
      histories of all stages before it, the latest first, each from its stored completion, then the
      instructions of the frozen context; and each of those stages has its completion. */
  lemma PromptsTell(env: Env, ops: seq<Op>, key: Key, i: nat)
    requires TextsOk(env) && forall k :: 0 <= k < |ops| ==> OpOk(env, ops[k])
    requires key in Run(env, map[], ops) && i < |Run(env, map[], ops)[key].packets|
    ensures var t := Run(env, map[], ops)[key];
      && i < STAGE_COUNT && t.packets[i].text.Canonical? && t.job.contextText.Canonical?
      && t.packets[i].text.value.prompt
         == env.heading(StageId(i)) + (Histories(env, t, i) + env.instructions(t.job.contextText.value))
      && forall j :: 0 <= j < i ==> Completed(t, j)
  {
    hide Run, TextsOk, OpOk, Histories;
    RunsGrow(env, map[], ops);
    var t := Run(env, map[], ops)[key];
    assert Healthy(env, t);
    PromptOf(env, t, i);
  }

  /** The packet that a submission hands out is the new last row and the new head. It is the packet before
      it with the next stage and number, naming the accepted completion; and its prompt adds that
      completion to what was told before. */
  ghost predicate HandsOut(env: Env, t: Tables, u: Tables, c: Completion, q: Packet) {
    && t.job.packetText.Canonical? && u.job.contextText.Canonical? && t.packets <= u.packets
    && 1 <= |t.packets| < STAGE_COUNT && |u.packets| == |t.packets| + 1
    && var n, p := |t.packets|, t.job.packetText.value;
       && u.packets[n] == PacketRow(StageId(n), n, q.inputHash, Canonical(q)) && u.job.packetText == Canonical(q)
       && q == p.(stageId := StageId(n), sequence := n, previous := Some(env.completionHash(c)),
                  inputHash := env.packetHash(Identity(q)), prompt := q.prompt)
       && q.prompt == env.heading(StageId(n)) + (Histories(env, u, n) + env.instructions(u.job.contextText.value))
       && Histories(env, u, n) == env.history(StageId(n - 1), env.completionHash(c), c.payload) + Histories(env, t,
           n - 1)
  }

  lemma AdvanceHandsOut(env: Env, key: Key, t: Tables, c: Completion, q: Packet, clock: Clock)
    requires TextsOk(env) && Accepts(env, key, t) && Healthy(env, t)
    requires t.job.packetText.Canonical? && t.job.packetText.value.inputHash == c.inputHash
    requires NextOf(env, t.job.packetText.value, c) == Some(q)
    requires AdvanceSteps(env, key, t, t.job.packetText.value, c, q, clock).Some?
    ensures HandsOut(env, t, AdvanceSteps(env, key, t, t.job.packetText.value, c, q, clock).value, c, q)
  {
    hide Accepts, NextPacket, AdvanceSteps, PacketOk, TextsOk, Tracked, IsSha256, Prompted, Histories;
    var u := AdvanceSteps(env, key, t, t.job.packetText.value, c, q, clock).value;
    HeadPacket(env, key, t);
    var p, hash: Digest := t.job.packetText.value, env.completionHash(c);
    AdvanceAppends(env, key, t, p, c, q, clock);
    NextPacketFields(env, p, hash, c.payload);
    NextPacketBuilt(env, p, hash, c.payload);
    PromptedAdvance(env, key, t, u, c, q);
    PromptOf(env, u, |t.packets|);
    HistoriesGrow(env, t, u, c);
  }

  /** Whenever a submission on a ledger built by the operations hands out a packet. */
  lemma BindHandsOut(env: Env, l: Ledger, c: Completion, clock: Clock)
    requires TextsOk(env) && Grown(env, l) && Bind(env, l, c, clock).1.GotPacket?
    ensures var key, out := Key(c.companyId, c.jobId), Bind(env, l, c, clock);
      key in l && key in out.0 && HandsOut(env, l[key], out.0[key], c, out.1.packet)
  {
    hide Accepts, SchemaOk, NextPacket, AcceptSteps, RejectSteps, FinalSteps, AdvanceSteps, TextsOk, Healthy, HandsOut;
    var key := Key(c.companyId, c.jobId);
    var t := l[key];
    AdmitIdentity(env, t.job.packetText.value, c, t.job.contextText.value);
    HeadPacket(env, key, t);
    AdvanceHandsOut(env, key, t, c, Bind(env, l, c, clock).1.packet, clock);
  }

  lemma NextPacketBuilt(env: Env, p: Packet, hash: string, payload: Json)
    requires PacketOk(env, p) && 0 <= p.sequence < STAGE_COUNT - 1 && IsSha256(hash)
    requires NextPacket(env, p, hash, payload).Some?
    ensures var q := NextPacket(env, p, hash, payload).value;
      && q.stageId == StageId(q.sequence) && q.inputHash == env.packetHash(Identity(q))
      && q == p.(stageId := q.stageId, sequence := q.sequence, previous := Some(hash), inputHash := q.inputHash,
                 prompt := q.prompt)
  {
    hide NextPacket, Trimmed;
    NextPacketFields(env, p, hash, payload);
  }

  lemma HistoriesGrow(env: Env, t: Tables, u: Tables, c: Completion)
    requires 1 <= |t.packets| < STAGE_COUNT && Extends(t, u) && Prompted(env, t)
    requires t.packets[|t.packets| - 1].inputHash == c.inputHash && c.inputHash in u.completions
    requires u.completions[c.inputHash] == CompletionRow(env.completionHash(c), Canonical(c))
    ensures var n := |t.packets|;
      Histories(env, u, n) == env.history(StageId(n - 1), env.completionHash(c), c.payload) + Histories(env, t, n - 1)
  {
    var n := |t.packets|;
    assert PromptOk(env, t, n - 1);
    HistoriesKept(env, t, u, n - 1);
    assert u.packets[n - 1] == t.packets[n - 1];
    assert Completed(u, n - 1);
  }

  // ---- What the events say ----------------------------------------------------------------------------------------

  /** `u` has exactly these events more, with these details, each under the clock's text for its number. */
  ghost predicate Logs(t: Tables, u: Tables, clock: Clock, said: seq<(EventType, Details)>) {
    && |u.events| == |t.events| + |said| && t.events <= u.events
    && forall k :: 0 <= k < |said| ==> Says(u.events[|t.events| + k], said[k], clock(|t.events| + k))
  }

  predicate Says(row: EventRow, said: (EventType, Details), at: string) {
    && row.eventType == said.0 && row.recordedAt == at
    && row.text.Canonical? && row.text.value.eventType == said.0 && row.text.value.details == said.1
  }

  lemma AppendedSays(env: Env, key: Key, t: Tables, u: Tables, clock: Clock, d: EventDraft)
    requires u.job.eventCount == |t.events| && u.events == t.events
    ensures Logs(t, Appended(env, key, u, clock, d), clock, [(d.eventType, d.details)])
  {
  }

  lemma LogsMore(t: Tables, u: Tables, v: Tables, clock: Clock, a: seq<(EventType, Details)>,
                 b: seq<(EventType, Details)>)
    requires Logs(t, u, clock, a) && Logs(u, v, clock, b)
    ensures Logs(t, v, clock, a + b)
  {
    hide Says;
    forall k | 0 <= k < |a + b| ensures Says(v.events[|t.events| + k], (a + b)[k], clock(|t.events| + k)) {
      if k < |a| {
        assert v.events[|t.events| + k] == u.events[|t.events| + k];
      } else {
        assert (a + b)[k] == b[k - |a|] && |t.events| + k == |u.events| + (k - |a|);
      }
    }
  }

  /** What a submission says of itself: the outstanding packet, and what was submitted by whom. */
  function Submission(p: Packet, c: Completion): Details {
    map[FStageId := StageV(p.stageId), FOutstanding := StrV(p.inputHash),
        FSubmittedStage := StageV(c.stageId), FSubmittedHash := StrV(c.inputHash), FOperator := StrV(c.operatorId)]
  }

  function ReasonCode(r: Reason): string {
    match r
    case IdentityMismatch => "IDENTITY_MISMATCH"
    case AttestationMismatch => "ATTESTATION_MISMATCH"
    case PayloadInvalid => "PAYLOAD_INVALID"
    case EvidenceMismatch => "EVIDENCE_MISMATCH"
  }

  lemma RejectSays(env: Env, key: Key, t: Tables, p: Packet, c: Completion, r: Reason, clock: Clock)
    requires t.job.eventCount == |t.events| && RejectSteps(env, key, t, p, c, r, clock).Some?
    ensures Logs(t, RejectSteps(env, key, t, p, c, r, clock).value, clock,
                 [(Submitted, Submission(p, c)), (Rejected, Submission(p, c)[FReason := StrV(ReasonCode(r))])])
  {
    hide EventUnused, Logs;
    var d1, d2 := SubmittedDraft(p, c), RejectedDraft(p, c, ReasonText(r));
    var t1 := Appended(env, key, t, clock, d1);
    AppendedSays(env, key, t, t, clock, d1);
    AppendedSays(env, key, t1, t1, clock, d2);
    LogsMore(t, t1, Appended(env, key, t1, clock, d2), clock, [(d1.eventType, d1.details)],
             [(d2.eventType, d2.details)]);
    assert [(d1.eventType, d1.details)] + [(d2.eventType, d2.details)]
        == [(Submitted, Submission(p, c)), (Rejected, Submission(p, c)[FReason := StrV(ReasonCode(r))])];
  }

  lemma AcceptSays(env: Env, key: Key, t: Tables, p: Packet, c: Completion, clock: Clock)
    requires t.job.eventCount == |t.events| && AcceptSteps(env, key, t, p, c, clock).Some?
    ensures var u := AcceptSteps(env, key, t, p, c, clock).value;
      && u.job.eventCount == |u.events|
      && Logs(t, u, clock,
              [(Submitted, Submission(p, c)),
               (Accepted, map[FStageId := StageV(c.stageId), FInputHash := StrV(c.inputHash),
                              FCompletionHash := StrV(env.completionHash(c))])])
  {
    hide EventUnused, Logs;
    var d1, d2 := SubmittedDraft(p, c), AcceptedDraft(c, env.completionHash(c));
    var t1 := Appended(env, key, t, clock, d1);
    var t2 := TryInsertCompletion(t1, c.inputHash, CompletionRow(env.completionHash(c), Canonical(c))).value;
    AppendedSays(env, key, t, t, clock, d1);
    AppendedSays(env, key, t1, t2, clock, d2);
    LogsMore(t, t1, Appended(env, key, t2, clock, d2), clock, [(d1.eventType, d1.details)],
             [(d2.eventType, d2.details)]);
    assert [(d1.eventType, d1.details)] + [(d2.eventType, d2.details)] == [(Submitted, Submission(p, c)),
                                                                           (d2.eventType, d2.details)];
  }

  /** The events of a submission, by its outcome. */
  ghost predicate SubmissionLogged(env: Env, t: Tables, u: Tables, c: Completion, clock: Clock, out: Outcome) {
    t.job.packetText.Canonical? &&
    var p := t.job.packetText.value;
    var accepted := (Accepted, map[FStageId := StageV(c.stageId), FInputHash := StrV(c.inputHash),
                                   FCompletionHash := StrV(env.completionHash(c))]);
    match out
    case RejectedFor(r) =>
      Logs(t, u, clock, [(Submitted, Submission(p, c)), (Rejected, Submission(p, c)[FReason := StrV(ReasonCode(r))])])
    case GotStatus(_) =>
      Logs(t, u, clock, [(Submitted, Submission(p, c)), accepted, (FinalQa, map[FFinalHash := StrV(c.inputHash)])])
    case GotPacket(q) =>
      Logs(t, u, clock,
           [(Submitted, Submission(p, c)), accepted,
            (PacketPrepared, map[FStageId := StageV(q.stageId), FSequence := IntV(q.sequence),
                                 FInputHash := StrV(q.inputHash)])])
    case _ => u == t
  }

  lemma BindLogs(env: Env, l: Ledger, c: Completion, clock: Clock)
    requires Key(c.companyId, c.jobId) in l && Accepts(env, Key(c.companyId, c.jobId), l[Key(c.companyId, c.jobId)])
    ensures var key, out := Key(c.companyId, c.jobId), Bind(env, l, c, clock);
      key in out.0 && SubmissionLogged(env, l[key], out.0[key], c, clock, out.1)
  {
    hide Accepts, Judge, NextPacket, AcceptSteps, RejectSteps, EventUnused, Logs, TryInsertPacket, TrySetHead, PacketOk;
    var key := Key(c.companyId, c.jobId);
    var t := l[key];
    HeadPacket(env, key, t);
    AcceptedIsChained(env, key, t);
    var p := t.job.packetText.value;
    forall r | RejectSteps(env, key, t, p, c, r, clock).Some?
      ensures SubmissionLogged(env, t, RejectSteps(env, key, t, p, c, r, clock).value, c, clock, RejectedFor(r))
    {
      RejectSays(env, key, t, p, c, r, clock);
    }
    if AcceptSteps(env, key, t, p, c, clock).Some? {
      AcceptSays(env, key, t, p, c, clock);
      var t1 := AcceptSteps(env, key, t, p, c, clock).value;
      var said := [(Submitted, Submission(p, c)),
                   (Accepted, map[FStageId := StageV(c.stageId), FInputHash := StrV(c.inputHash),
                                  FCompletionHash := StrV(env.completionHash(c))])];
      var final := Appended(env, key, WithStatus(t1, FinalQaReady), clock, FinalDraft(c.inputHash));
      AppendedSays(env, key, t1, WithStatus(t1, FinalQaReady), clock, FinalDraft(c.inputHash));
      LogsMore(t, t1, final, clock, said, [(FinalQa, map[FFinalHash := StrV(c.inputHash)])]);
      assert said + [(FinalQa, map[FFinalHash := StrV(c.inputHash)])]
          == [said[0], said[1], (FinalQa, map[FFinalHash := StrV(c.inputHash)])];
      var next := NextOf(env, p, c);
      if next.Some? {
        var q := next.value;
        var prepared := (PacketPrepared, map[FStageId := StageV(q.stageId), FSequence := IntV(q.sequence),
                                             FInputHash := StrV(q.inputHash)]);
        if AdvanceFrom(env, key, t1, q, clock).Some? {
          AdvanceSays(env, key, t1, q, clock);
          LogsMore(t, t1, AdvanceFrom(env, key, t1, q, clock).value, clock, said, [prepared]);
          assert said + [prepared] == [said[0], said[1], prepared];
        }
      }
    }
  }

  lemma AdvanceSays(env: Env, key: Key, t: Tables, q: Packet, clock: Clock)
    requires t.job.eventCount == |t.events| && AdvanceFrom(env, key, t, q, clock).Some?
    ensures Logs(t, AdvanceFrom(env, key, t, q, clock).value, clock,
                 [(PacketPrepared, map[FStageId := StageV(q.stageId), FSequence := IntV(q.sequence),
                                       FInputHash := StrV(q.inputHash)])])
  {
    hide EventUnused;
    AppendedSays(env, key, t, TryInsertPacket(t, q).value, clock, PreparedDraft(q));
  }

  // ---- The other calls --------------------------------------------------------------------------------------------

  /** One event more, a new status, and at most the artifact columns: nothing else of the job differs. */
  ghost predicate OneEvent(t: Tables, u: Tables, clock: Clock, status: Status, said: (EventType, Details)) {
    && Logs(t, u, clock, [said])
    && u == t.(events := u.events,
               job := t.job.(status := status, eventCount := |u.events|, headHash := u.job.headHash,
                             headMac := u.job.headMac,
                             artifactPath := u.job.artifactPath, artifactHash := u.job.artifactHash))
  }

  lemma OneAppended(env: Env, key: Key, t: Tables, status: Status, clock: Clock, d: EventDraft)
    requires t.job.eventCount == |t.events|
    ensures var u := Appended(env, key, WithStatus(t, status), clock, d);
      && OneEvent(t, u, clock, status, (d.eventType, d.details))
      && u.job.artifactPath == t.job.artifactPath && u.job.artifactHash == t.job.artifactHash
  {
    AppendedSays(env, key, t, WithStatus(t, status), clock, d);
  }

  /** The hash of the outstanding packet. */
  function Outstanding(t: Tables): string {
    if t.job.packetText.Canonical? then t.job.packetText.value.inputHash else ""
  }

  /** Cancellation is granted exactly while the job awaits its operator or its recovery, or was canceled
      before; it changes something exactly the first time, and then says who asked, from which status, for
      which packet, and that nothing upstream was canceled. */
  lemma CancelDecided(env: Env, l: Ledger, companyId: string, jobId: string, operatorId: string, clock: Clock)
    requires Grown(env, l)
    ensures var key, (l2, out) := Key(Strip(companyId), Strip(jobId)),
    Cancel(env, l, companyId, jobId, operatorId, clock);
      var named := key.companyId != "" && key.jobId != "" && Strip(operatorId) != "";
      && (out == Missing <==> named && key !in l)
      && (out == Refused <==>
            !named || (key in l && l[key].job.status !in {AwaitingOperator, RecoveryRequired, CancelRequested}))
      && (out != GotStatus(CancelRequested) ==> l2 == l && out in {Missing, Refused, Aborted})
      && (out == GotStatus(CancelRequested) ==>
            && key in l && key in l2
            && if l[key].job.status == CancelRequested then l2 == l
               else
                 && l2 == l[key := l2[key]]
                 && l2[key].job.artifactPath == l[key].job.artifactPath
                    && l2[key].job.artifactHash == l[key].job.artifactHash
                 && OneEvent(l[key], l2[key], clock, CancelRequested,
                             (CancelAsked, map[FOperator := StrV(Strip(operatorId)),
                                               FPriorStatus := StatusV(l[key].job.status),
                                               FOutstanding := StrV(Outstanding(l[key])), FLocalOnly := BoolV(true),
                                               FUpstream := BoolV(false)])))
  {
    hide Accepts, SchemaOk, Healthy, EventUnused, Strip, OneEvent, PacketOk, Appended;
    var key := Key(Strip(companyId), Strip(jobId));
    if key in l {
      HeadPacket(env, key, l[key]);
      AcceptedIsChained(env, key, l[key]);
      OneAppended(env, key, l[key], CancelRequested, clock,
                  CancelDraft(Strip(operatorId), l[key].job.status, Outstanding(l[key])));
      AppendedKept(env, key, l[key], CancelRequested, clock,
                   CancelDraft(Strip(operatorId), l[key].job.status, Outstanding(l[key])));
    }
  }

  lemma AppendedKept(env: Env, key: Key, t: Tables, status: Status, clock: Clock, d: EventDraft)
    ensures var u := Appended(env, key, WithStatus(t, status), clock, d);
      u.job.artifactPath == t.job.artifactPath && u.job.artifactHash == t.job.artifactHash
  {
  }

  /** Recovery is granted exactly while the job awaits its operator, or is in recovery already. */
  lemma RecoveryDecided(env: Env, l: Ledger, companyId: string, jobId: string, clock: Clock)
    requires Grown(env, l)
    ensures var key, (l2, out) := Key(Strip(companyId), Strip(jobId)), MarkRecovery(env, l, companyId, jobId, clock);
      var named := key.companyId != "" && key.jobId != "";
      && (out == Missing <==> named && key !in l)
      && (out == Refused <==> !named || (key in l && l[key].job.status !in {AwaitingOperator, RecoveryRequired}))
      && (out != GotStatus(RecoveryRequired) ==> l2 == l && out in {Missing, Refused, Aborted})
      && (out == GotStatus(RecoveryRequired) ==>
            && key in l && key in l2
            && if l[key].job.status == RecoveryRequired then l2 == l
               else
                 && l2 == l[key := l2[key]]
                 && l2[key].job.artifactPath == l[key].job.artifactPath
                    && l2[key].job.artifactHash == l[key].job.artifactHash
                 && OneEvent(l[key], l2[key], clock, RecoveryRequired,
                             (RecoveryNeeded, map[FOutstanding := StrV(Outstanding(l[key]))])))
  {
    hide Accepts, SchemaOk, Healthy, EventUnused, Strip, OneEvent, PacketOk, Appended;
    var key := Key(Strip(companyId), Strip(jobId));
    if key in l {
      HeadPacket(env, key, l[key]);
      AcceptedIsChained(env, key, l[key]);
      OneAppended(env, key, l[key], RecoveryRequired, clock, RecoveryDraft(Outstanding(l[key])));
      AppendedKept(env, key, l[key], RecoveryRequired, clock, RecoveryDraft(Outstanding(l[key])));
    }
  }

  /** The last resolution of the job names this packet and this operator. */
  ghost predicate ResolvedFor(t: Tables, hash: string, operatorId: string) {
    exists r :: 0 <= r < |t.events| && ResolvedAt(t, r, hash, operatorId)
  }

  ghost predicate ResolvedAt(t: Tables, r: int, hash: string, operatorId: string)
    requires 0 <= r < |t.events|
  {
    && t.events[r].eventType == RecoveryResolved
       && (forall k :: r < k < |t.events| ==> t.events[k].eventType != RecoveryResolved)
    && t.events[r].text.Canonical?
    && var d := t.events[r].text.value.details;
       FOutstanding in d && d[FOutstanding] == StrV(hash) && FOperator in d && d[FOperator] == StrV(operatorId)
  }

  /** A resolution is granted exactly for the outstanding packet, while the job is in recovery or its
      last resolution was this very one. */
  lemma ResolutionDecided(env: Env, l: Ledger, companyId: string, jobId: string, expected: string, operatorId: string,
                          clock: Clock)
    requires Grown(env, l)
    ensures var key, (l2, out) := Key(Strip(companyId), Strip(jobId)),
                                  Resolve(env, l, companyId, jobId, expected, operatorId, clock);
      var named := key.companyId != "" && key.jobId != "" && Strip(operatorId) != "" && IsSha256(Strip(expected));
      && (out == Missing <==> named && key !in l)
      && (out != GotStatus(AwaitingOperator) ==> l2 == l && out in {Missing, Refused, Corrupt, Aborted})
      && (out == GotStatus(AwaitingOperator) || out == Aborted ==>
            && named && key in l && Outstanding(l[key]) == Strip(expected)
            && (l[key].job.status == RecoveryRequired
                || (l[key].job.status == AwaitingOperator && out != Aborted
                    && ResolvedFor(l[key], Strip(expected), Strip(operatorId)))))
      && (named && key in l && Outstanding(l[key]) == Strip(expected) ==>
            && (l[key].job.status == RecoveryRequired && out != Aborted ==> out == GotStatus(AwaitingOperator))
            && (l[key].job.status == AwaitingOperator && ResolvedFor(l[key], Strip(expected), Strip(operatorId)) ==>
                  out == GotStatus(AwaitingOperator)))
      && (out == GotStatus(AwaitingOperator) ==>
            && key in l2
            && if l[key].job.status == AwaitingOperator then l2 == l
               else
                 && l2 == l[key := l2[key]]
                 && l2[key].job.artifactPath == l[key].job.artifactPath
                    && l2[key].job.artifactHash == l[key].job.artifactHash
                 && OneEvent(l[key], l2[key], clock, AwaitingOperator,
                             (RecoveryResolved, map[FOperator := StrV(Strip(operatorId)),
                                                    FOutstanding := StrV(Strip(expected)),
                                                    FReplacement := BoolV(false), FMaxRetries := IntV(0)])))
  {
    hide Accepts, SchemaOk, Healthy, EventUnused, Strip, OneEvent, PacketOk, Appended, IsSha256, ReplayedResolution,
      ResolvedFor;
    var key := Key(Strip(companyId), Strip(jobId));
    if key in l {
      HeadPacket(env, key, l[key]);
      AcceptedIsChained(env, key, l[key]);
      ReplayDecides(l[key], Strip(expected), Strip(operatorId));
      OneAppended(env, key, l[key], AwaitingOperator, clock, ResolvedDraft(Strip(operatorId), Strip(expected)));
      AppendedKept(env, key, l[key], AwaitingOperator, clock, ResolvedDraft(Strip(operatorId), Strip(expected)));
    }
  }

  lemma ReplayDecides(t: Tables, hash: string, operatorId: string)
    ensures ReplayedResolution(t, hash, operatorId) in {Refused, Corrupt, GotStatus(AwaitingOperator)}
    ensures ReplayedResolution(t, hash, operatorId) == GotStatus(AwaitingOperator) <==> ResolvedFor(t, hash, operatorId)
  {
    hide LastOf;
    var r := LastOf(t.events, RecoveryResolved);
    if ReplayedResolution(t, hash, operatorId) == GotStatus(AwaitingOperator) {
      assert ResolvedAt(t, r, hash, operatorId);
    }
  }

  /** Freezing is granted exactly past final QA with a fit path and digest, or again with the frozen ones. */
  lemma ArtifactDecided(env: Env, l: Ledger, companyId: string, jobId: string, path: string, hash: string, clock: Clock)
    requires Grown(env, l)
    ensures var key, (l2, out) := Key(Strip(companyId), Strip(jobId)),
                                  RecordArtifact(env, l, companyId, jobId, path, hash, clock);
      var fit := key.companyId != "" && key.jobId != "" && Strip(path) != "" && env.pathOk(Strip(path))
                 && IsSha256(Strip(hash));
      && (out == Missing <==> fit && key !in l)
      && (out == Refused ==>
            !fit || (key in l && l[key].job.status != FinalQaReady
                     && (l[key].job.status == ArtifactFrozen ==>
                           (l[key].job.artifactPath, l[key].job.artifactHash) != (Some(Strip(path)),
                                                                                  Some(Strip(hash))))))
      && (!out.GotArtifact? ==> l2 == l && out in {Missing, Refused, Aborted})
      && (out.GotArtifact? ==>
            && out == GotArtifact(Strip(path), Strip(hash)) && fit && key in l && key in l2
            && l2[key].job.status == ArtifactFrozen
            && if l[key].job.status == ArtifactFrozen then l2 == l
               else
                 && l[key].job.status == FinalQaReady && l2 == l[key := l2[key]]
                 && l2[key].job.artifactPath == Some(Strip(path)) && l2[key].job.artifactHash == Some(Strip(hash))
                 && OneEvent(l[key], l2[key], clock, ArtifactFrozen,
                             (Frozen, map[FPath := StrV(Strip(path)), FManifestHash := StrV(Strip(hash))])))
  {
    hide Accepts, SchemaOk, Healthy, EventUnused, Strip, PacketOk, IsSha256;
    var key := Key(Strip(companyId), Strip(jobId));
    if key in l {
      HeadPacket(env, key, l[key]);
      AcceptedIsChained(env, key, l[key]);
      StripAgain(path);
      if IsSha256(Strip(hash)) {
        DigestIsTrimmed(Strip(hash));
      }
      var bound := TryBindArtifact(l[key], Strip(path), Strip(hash));
      if bound.Some? {
        AppendedSays(env, key, l[key], bound.value, clock, FrozenDraft(Strip(path), Strip(hash)));
      }
    }
  }

  /** Preparing is refused exactly where the input does not bind the job to its snapshot, or a job that is
      there was prepared from other input or has moved on; it hands out the outline packet; a new job has
      exactly that packet, announced by one event, and the frozen context. */
  lemma PrepareDecided(env: Env, l: Ledger, job: JobInput, snap: SnapshotInput, session: string, clock: Clock)
    requires TextsOk(env) && Grown(env, l) && IdentifiersOk(job)
    ensures var key, (l2, out) := Key(job.companyId, job.jobId), Prepare(env, l, job, snap, session, clock);
      && (out.GotPacket? ==>
            && job.companyId == snap.companyId && job.snapshotId == snap.snapshotId
               && job.snapshotHash == snap.snapshotHash
            && env.contextHash(snap.context) == snap.snapshotHash && snap.context.Obj? && env.evidenceOk(snap.context)
            && out.packet.jobId == job.jobId && out.packet.companyId == job.companyId
            && out.packet.stageId == Outline && out.packet.sequence == 0 && out.packet.previous == None
            && out.packet.approvalId == Strip(job.approvalId)
               && out.packet.planFingerprint == Strip(job.planFingerprint)
            && out.packet.snapshotHash == job.snapshotHash && out.packet.evidenceHash == env.evidenceHash(snap.context)
            && out.packet.sessionRef == Strip(session)
            && out.packet.prompt == env.heading(Outline) + env.instructions(snap.context)
            && key in l2
            && if key in l then
                 && l2 == l && l[key].job.status == AwaitingOperator && l[key].job.packetText == Canonical(out.packet)
                 && l[key].job.contextText == Canonical(snap.context)
               else
                 && l2 == l[key := l2[key]]
                    && l2[key].packets == [PacketRow(Outline, 0, out.packet.inputHash, Canonical(out.packet))]
                 && l2[key].completions == map[] && l2[key].job.status == AwaitingOperator
                 && l2[key].job.packetText == Canonical(out.packet)
                    && l2[key].job.contextText == Canonical(snap.context)
                 && l2[key].job.artifactPath.None? && l2[key].job.artifactHash.None?
                 && |l2[key].events| == 1
                 && Says(l2[key].events[0],
                         (PacketPrepared, map[FStageId := StageV(Outline), FSequence := IntV(0),
                                              FInputHash := StrV(out.packet.inputHash)]), clock(0)))
      && (!out.GotPacket? ==> out == Refused && l2 == l)
  {
    hide Accepts, SchemaOk, Healthy, EventUnused, Strip, PacketOk, IsSha256, OutlinePacket, TextsOk;
    var built := OutlinePacket(env, job, snap, session);
    if built.Some? {
      OutlineFields(env, job, snap, session);
      OutlineHeaded(env, job, snap, session);
      PacketZero(env, built.value);
      OutlineBinds(env, job, snap, session);
      var p := built.value;
      AppendedSays(env, Key(job.companyId, job.jobId), FreshTables(p, snap.context), FreshTables(p, snap.context),
                   clock,
                   PreparedDraft(p));
    }
  }

  lemma OutlineBinds(env: Env, job: JobInput, snap: SnapshotInput, session: string)
    requires OutlinePacket(env, job, snap, session).Some?
    ensures
      && job.companyId == snap.companyId && job.snapshotId == snap.snapshotId && job.snapshotHash == snap.snapshotHash
    ensures env.contextHash(snap.context) == snap.snapshotHash && snap.context.Obj? && env.evidenceOk(snap.context)
  {
    hide Hashed, IsSha256, Strip;
  }

  /** And the other way round: fit input is accepted for a new job. The input hash is taken before the
      fields are trimmed, so approval and fingerprint have to be trimmed already. */
  lemma PrepareAccepts(env: Env, l: Ledger, job: JobInput, snap: SnapshotInput, session: string, clock: Clock)
    requires TextsOk(env) && IdentifiersOk(job) && Key(job.companyId, job.jobId) !in l
    requires
      && job.companyId == snap.companyId && job.snapshotId == snap.snapshotId && job.snapshotHash == snap.snapshotHash
    requires env.contextHash(snap.context) == snap.snapshotHash && snap.context.Obj? && env.evidenceOk(snap.context)
    requires IsSha256(job.planFingerprint) && Trimmed(job.approvalId) && Strip(session) != ""
    ensures Prepare(env, l, job, snap, session, clock).1.GotPacket?
  {
    hide IsSpace, IsSha256, Strip;
    var prompt := env.heading(Outline) + env.instructions(snap.context);
    assert Trimmed(prompt) by {
      assert prompt[0] == env.heading(Outline)[0];
      assert prompt[|prompt| - 1] == env.instructions(snap.context)[|env.instructions(snap.context)| - 1];
    }
    var evidence: Digest := env.evidenceHash(snap.context);
    var raw := Packet(job.jobId, job.companyId, Outline, 0, job.approvalId, job.planFingerprint, job.snapshotHash,
                      evidence,
                      PROVIDER_ID, MODEL_ID, Strip(session), PIPELINE_VERSION, None, "", prompt);
    var hash: Digest := env.packetHash(Identity(raw));
    StripTrims(session);
    DigestIsTrimmed(job.planFingerprint);
    TrimmedIsStripped(job.approvalId);
    PacketReload(env, raw.(inputHash := hash));
    assert Identity(raw.(inputHash := hash)) == Identity(raw);
    var context: Digest := env.contextHash(snap.context);
    ConstantsTrimmed();
  }

}
