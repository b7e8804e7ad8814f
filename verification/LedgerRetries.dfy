/**
 Repeating a call: which operations are idempotent, why a completion is admitted only once, and a
 run in which repeating a recovery fails.
 */
module LedgerRetries {
  import opened Texts
  import opened LedgerModel
  import opened LedgerSteps
  import opened LedgerAgreement
  import opened LedgerHistory
  import opened LedgerOutcomes

  /** The same call at another time. */
  function At(op: Op, clock: Clock): Op {
    op.(clock := clock)
  }

  predicate Succeeded(out: Outcome) {
    out.GotPacket? || out.GotStatus? || out.GotArtifact?
  }

  /** Every operation but a submission can be repeated after success: same answer, nothing written. */
  lemma RepeatIsIdempotent(env: Env, l: Ledger, op: Op, clock: Clock)
    requires Sound(env, l) && OpOk(env, op) && !op.OpBind? && Succeeded(Step(env, l, op).1)
    ensures Step(env, Step(env, l, op).0, At(op, clock)) == Step(env, l, op)
  {
    hide Accepts, SchemaOk, Bind, RecordArtifact, OutlinePacket, EventUnused, PacketOk, IsSha256, Strip, LastOf;
    StepSound(env, l, op);
    match op
    case OpArtifact(companyId, jobId, path, hash, first) =>
      ArtifactIsIdempotent(env, l, companyId, jobId, path, hash, first, clock);
    case OpResolve(_, _, expected, operatorId, _) =>
      if Target(op) in l {
        ResolutionIsLast(env, Target(op), l[Target(op)], op.clock, Strip(operatorId), Strip(expected));
      }
    case _ =>
  }

  lemma ArtifactIsIdempotent(env: Env, l: Ledger, companyId: string, jobId: string, path: string, hash: string,
                             first: Clock, again: Clock)
    requires Sound(env, l) && Succeeded(RecordArtifact(env, l, companyId, jobId, path, hash, first).1)
    ensures var done := RecordArtifact(env, l, companyId, jobId, path, hash, first);
            RecordArtifact(env, done.0, companyId, jobId, path, hash, again) == done
  {
    hide Accepts, SchemaOk, FreezeSteps, NewBinding, Strip, EventUnused;
    var key, b := Key(Strip(companyId), Strip(jobId)), NewBinding(env, path, hash);
    ArtifactSound(env, l, companyId, jobId, path, hash, first);
    BindingStable(env, path, hash);
    if FreezeSteps(env, key, l[key], b.value.0, b.value.1, first).Some? {
      FrozenBinding(env, key, l[key], b.value.0, b.value.1, first);
    }
  }

  lemma BindingStable(env: Env, path: string, hash: string)
    requires NewBinding(env, path, hash).Some?
    ensures var b := NewBinding(env, path, hash); NewBinding(env, b.value.0, b.value.1) == b
  {
    StripTrims(path);
    TrimmedIsStripped(Strip(path));
    DigestIsTrimmed(Strip(hash));
  }

  lemma FrozenBinding(env: Env, key: Key, t: Tables, path: string, hash: string, clock: Clock)
    requires FreezeSteps(env, key, t, path, hash, clock).Some?
    ensures var u := FreezeSteps(env, key, t, path, hash, clock).value;
            u.job.status == ArtifactFrozen && u.job.artifactPath == Some(path) && u.job.artifactHash == Some(hash)
  {
  }

  lemma ResolutionIsLast(env: Env, key: Key, t: Tables, clock: Clock, operatorId: string, h: string)
    ensures var u := Appended(env, key, WithStatus(t, AwaitingOperator), clock, ResolvedDraft(operatorId, h));
            ReplayedResolution(u, h, operatorId) == GotStatus(AwaitingOperator)
  {
    hide LastOf;
    var u := Appended(env, key, WithStatus(t, AwaitingOperator), clock, ResolvedDraft(operatorId, h));
    assert u.events[|t.events|].eventType == RecoveryResolved;
    assert LastOf(u.events, RecoveryResolved) == |t.events|;
  }

  /** Once a submission is admitted, no later submission for the same packet is, whatever runs in
      between: it is refused and changes nothing. */
  lemma AdmittedOnce(env: Env, l: Ledger, c: Completion, clock: Clock, ops: seq<Op>, again: Completion, later: Clock)
    requires Succeeded(Bind(env, l, c, clock).1)
    requires again.companyId == c.companyId && again.jobId == c.jobId && again.inputHash == c.inputHash
    ensures var l2 := Run(env, Bind(env, l, c, clock).0, ops);
            Bind(env, l2, again, later) == (l2, Refused)
  {
    var key, l1 := Key(c.companyId, c.jobId), Bind(env, l, c, clock).0;
    AdmissionStored(env, l, c, clock);
    RunExtends(env, l1, ops, key);
  }

  lemma AdmissionStored(env: Env, l: Ledger, c: Completion, clock: Clock)
    requires Succeeded(Bind(env, l, c, clock).1)
    ensures var key, l1 := Key(c.companyId, c.jobId), Bind(env, l, c, clock).0;
            key in l1 && c.inputHash in l1[key].completions
  {
    hide Accepts, Judge, NextPacket, AcceptSteps, RejectSteps, FinalSteps, AdvanceSteps, EventUnused, Appended;
    var key := Key(c.companyId, c.jobId);
    if key in l && l[key].job.packetText.Canonical? {
      var t, p := l[key], l[key].job.packetText.value;
      if FinalSteps(env, key, t, p, c, clock).Some? {
        FinalAppends(env, key, t, p, c, clock);
      }
      forall next | AdvanceSteps(env, key, t, p, c, next, clock).Some?
        ensures c.inputHash in AdvanceSteps(env, key, t, p, c, next, clock).value.completions
      {
        AdvanceAppends(env, key, t, p, c, next, clock);
      }
    }
  }

  // ---- A repeated recovery that fails -------------------------------------------------------------------------------

  /** The tables of a job after one status change with its event. */
  ghost function Moved(env: Env, key: Key, t: Tables, s: Status, clock: Clock, d: EventDraft): Tables {
    Appended(env, key, WithStatus(t, s), clock, d)
  }

  lemma MarkWorks(env: Env, l: Ledger, key: Key, clock: Clock)
    requires
      && Sound(env, l) && Trimmed(key.companyId) && Trimmed(key.jobId) && key in l && l[key].job.packetText.Canonical?
    requires l[key].job.status == AwaitingOperator && MarkRecovery(env, l, key.companyId, key.jobId, clock).1 != Aborted
    ensures MarkRecovery(env, l, key.companyId, key.jobId, clock).0 ==
      l[key := Moved(env, key, l[key], RecoveryRequired, clock, RecoveryDraft(l[key].job.packetText.value.inputHash))]
  {
    hide Accepts, EventUnused;
    TrimmedIsStripped(key.companyId); TrimmedIsStripped(key.jobId);
  }

  lemma ResolveWorks(env: Env, l: Ledger, key: Key, h: string, operatorId: string, clock: Clock)
    requires
      && Sound(env, l) && Trimmed(key.companyId) && Trimmed(key.jobId) && key in l && l[key].job.packetText.Canonical?
    requires Trimmed(operatorId) && IsSha256(h) && l[key].job.packetText.value.inputHash == h
    requires
      && l[key].job.status == RecoveryRequired
      && Resolve(env, l, key.companyId, key.jobId, h, operatorId, clock).1 != Aborted
    ensures Resolve(env, l, key.companyId, key.jobId, h, operatorId, clock).0 ==
      l[key := Moved(env, key, l[key], AwaitingOperator, clock, ResolvedDraft(operatorId, h))]
  {
    hide Accepts, EventUnused;
    TrimmedIsStripped(key.companyId); TrimmedIsStripped(key.jobId); TrimmedIsStripped(operatorId); DigestIsTrimmed(h);
  }

  /** What an admitted submission for a stage before the last leaves behind. */
  lemma BindAdvances(env: Env, l: Ledger, c: Completion, clock: Clock)
    requires TextsOk(env) && Grown(env, l) && CompletionOk(env, c) && Bind(env, l, c, clock).1 != Aborted
    requires Key(c.companyId, c.jobId) in l
    requires var t := l[Key(c.companyId, c.jobId)];
      && t.job.status == AwaitingOperator && c.inputHash !in t.completions && c.stageId != Revision
      && t.job.packetText.Canonical? && t.job.contextText.Canonical?
      && Judge(env, t.job.packetText.value, c, t.job.contextText.value) == Admit
    ensures var key, l2 := Key(c.companyId, c.jobId), Bind(env, l, c, clock).0;
      && key in l2 && l2[key].job.status == AwaitingOperator && l2[key].job.packetText.Canonical?
      && Appends(l[key], l2[key], [Submitted, Accepted, PacketPrepared])
  {
    hide Accepts, Judge, NextPacket, AcceptSteps, RejectSteps, FinalSteps, AdvanceSteps, EventUnused, Appended,
      CompletionOk, TextsOk, RecoveryTracked, PacketOk, Headed, Collides;
    var key, t := Key(c.companyId, c.jobId), l[Key(c.companyId, c.jobId)];
    var p := t.job.packetText.value;
    HeadPacket(env, key, t);
    NextOfStage(env, p, c);
    AdmitIdentity(env, p, c, t.job.contextText.value);
    var next := NextOf(env, p, c).value;
    AdvanceAppends(env, key, t, p, c, next, clock);
  }

  /** Marking and resolving recovery leaves the job as it was, two events longer. */
  lemma RecoveryRound(env: Env, l: Ledger, key: Key, operatorId: string, clock: Clock) returns (l2: Ledger)
    requires TextsOk(env) && Grown(env, l) && Trimmed(operatorId) && Trimmed(key.companyId) && Trimmed(key.jobId)
    requires key in l && l[key].job.status == AwaitingOperator && l[key].job.packetText.Canonical?
    requires MarkRecovery(env, l, key.companyId, key.jobId, clock).1 != Aborted
    requires Resolve(env, MarkRecovery(env, l, key.companyId, key.jobId, clock).0, key.companyId, key.jobId,
                     l[key].job.packetText.value.inputHash, operatorId, clock).1 != Aborted
    ensures var h := l[key].job.packetText.value.inputHash;
      && l2 == Step(env, Step(env, l, OpRecovery(key.companyId, key.jobId, clock)).0,
                    OpResolve(key.companyId, key.jobId, h, operatorId, clock)).0
      && Grown(env, l2) && key in l2
      && var t, u := l[key], l2[key];
         OnlyLogged(t, u) && |u.events| == |t.events| + 2 && u.events[|t.events| + 1].eventType == RecoveryResolved
  {
    hide Accepts, SchemaOk, RecoveryTracked, TextsOk, Trimmed, IsSha256, MarkRecovery, Resolve, LastOf, Headed,
      EventUnused, PacketOk;
    var t := l[key];
    var h := t.job.packetText.value.inputHash;
    HeadPacket(env, key, t);
    var op1, op2 :=
      OpRecovery(key.companyId, key.jobId, clock), OpResolve(key.companyId, key.jobId, h, operatorId, clock);
    MarkWorks(env, l, key, clock);
    StepGrown(env, l, op1);
    var l1 := Step(env, l, op1).0;
    ResolveWorks(env, l1, key, h, operatorId, clock);
    StepGrown(env, l1, op2);
    l2 := Step(env, l1, op2).0;
  }

  /** None of these calls is aborted; `AbortedByCollision` says what an abort would take. */
  ghost predicate NoneAborted(env: Env, l: Ledger, ops: seq<Op>)
    decreases |ops|
  {
    ops == [] || (Step(env, l, ops[0]).1 != Aborted && NoneAborted(env, Step(env, l, ops[0]).0, ops[1..]))
  }

  /** An operator recovers a stage, has it admitted, and resolves the next stage without having
      marked it: the answer is an integrity error although nothing is corrupt. */
  lemma RecoveryThenAdvance(env: Env, l: Ledger, c: Completion, operatorId: string, clock: Clock) returns (ops: seq<Op>)
    requires
      && TextsOk(env) && Grown(env, l) && CompletionOk(env, c) && Trimmed(operatorId) && Key(c.companyId, c.jobId) in l
    requires var t := l[Key(c.companyId, c.jobId)];
      && t.job.status == AwaitingOperator && c.inputHash !in t.completions && c.stageId != Revision
      && t.job.packetText.Canonical? && t.job.contextText.Canonical?
      && Judge(env, t.job.packetText.value, c, t.job.contextText.value) == Admit
    ensures ops == [OpRecovery(c.companyId, c.jobId, clock),
                    OpResolve(c.companyId, c.jobId, c.inputHash, operatorId, clock), OpBind(c, clock)]
    ensures Sound(env, Run(env, l, ops))
    ensures NoneAborted(env, l, ops) ==>
      var l3, key := Run(env, l, ops), Key(c.companyId, c.jobId);
      && key in l3 && l3[key].job.packetText.Canonical?
      && Resolve(env, l3, c.companyId, c.jobId, l3[key].job.packetText.value.inputHash, operatorId, clock).1 == Corrupt
  {
    hide Accepts, SchemaOk, Healthy, TextsOk, Judge, CompletionOk, Bind, MarkRecovery, Resolve, LastOf, PacketOk;
    var key, t := Key(c.companyId, c.jobId), l[Key(c.companyId, c.jobId)];
    var op1 := OpRecovery(c.companyId, c.jobId, clock);
    var op2 := OpResolve(c.companyId, c.jobId, c.inputHash, operatorId, clock);
    var op3 := OpBind(c, clock);
    ops := [op1, op2, op3];
    RunsAgree(env, l, ops);
    ThreeSteps(env, l, op1, op2, op3);
    if NoneAborted(env, l, ops) {
      AdmitIdentity(env, t.job.packetText.value, c, t.job.contextText.value);
      CompletionIdentity(env, c);
      var l2 := RecoveryRound(env, l, key, operatorId, clock);
      BindAdvances(env, l2, c, clock);
      StepGrown(env, l2, op3);
      var l3 := Step(env, l2, op3).0;
      ResolvedBeforeHead(t, l2[key], l3[key]);
      ResolvesCorrupt(env, l3, key, operatorId, clock);
    }
  }

  lemma ResolvesCorrupt(env: Env, l: Ledger, key: Key, operatorId: string, clock: Clock)
    requires Grown(env, l) && Trimmed(operatorId) && Trimmed(key.companyId) && Trimmed(key.jobId)
    requires key in l && l[key].job.packetText.Canonical? && l[key].job.status == AwaitingOperator
    requires 0 <= LastOf(l[key].events, RecoveryResolved) < LastOf(l[key].events, PacketPrepared)
    ensures Resolve(env, l, key.companyId, key.jobId, l[key].job.packetText.value.inputHash, operatorId,
                    clock).1 == Corrupt
  {
    hide Accepts, SchemaOk, Healthy, Resolve, LastOf, PacketOk;
    HeadPacket(env, key, l[key]);
    TrimmedIsStripped(key.companyId); TrimmedIsStripped(key.jobId); TrimmedIsStripped(operatorId);
    var h := l[key].job.packetText.value.inputHash;
    DigestIsTrimmed(h);
    CorruptExactly(env, l, OpResolve(key.companyId, key.jobId, h, operatorId, clock));
  }

  lemma CompletionIdentity(env: Env, c: Completion)
    requires CompletionOk(env, c)
    ensures Trimmed(c.companyId) && Trimmed(c.jobId) && IsSha256(c.inputHash)
  {
  }

  lemma ResolvedBeforeHead(t: Tables, t2: Tables, t3: Tables)
    requires |t2.events| == |t.events| + 2 && t2.events[|t.events| + 1].eventType == RecoveryResolved
    requires Appends(t2, t3, [Submitted, Accepted, PacketPrepared])
    ensures 0 <= LastOf(t3.events, RecoveryResolved) < LastOf(t3.events, PacketPrepared)
  {
    hide LastOf;
    var n := |t2.events|;
    assert t3.events[n].eventType == Submitted && t3.events[n + 1].eventType == Accepted;
    assert t3.events[n + 2].eventType == PacketPrepared && t3.events[n - 1].eventType == RecoveryResolved;
  }

  lemma ThreeSteps(env: Env, l: Ledger, a: Op, b: Op, c: Op)
    ensures var l1 := Step(env, l, a).0; var l2 := Step(env, l1, b).0;
      && Run(env, l, [a, b, c]) == Step(env, l2, c).0
      && (NoneAborted(env, l, [a, b, c])
          <==> Step(env, l, a).1 != Aborted && Step(env, l1, b).1 != Aborted && Step(env, l2, c).1 != Aborted)
  {
    hide Step;
    var l1 := Step(env, l, a).0;
    var l2 := Step(env, l1, b).0;
    assert [a, b, c][1..] == [b, c] && [b, c][1..] == [c] && [c][1..] == [];
    assert Run(env, l, [a, b, c]) == Run(env, l1, [b, c]);
    assert Run(env, l1, [b, c]) == Run(env, l2, [c]);
    assert Run(env, l2, [c]) == Run(env, Step(env, l2, c).0, []);
    assert NoneAborted(env, l2, [c]) <==> Step(env, l2, c).1 != Aborted;
    assert NoneAborted(env, l1, [b, c]) <==> Step(env, l1, b).1 != Aborted && NoneAborted(env, l2, [c]);
  }
}
