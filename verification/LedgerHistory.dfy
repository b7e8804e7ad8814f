/**
 What each operation changes, over whole runs: it touches only its own job, it only extends that
 job's history, and a call that fails commits nothing.
 */
module LedgerHistory {
  import opened Texts
  import opened LedgerModel
  import opened LedgerSteps
  import opened LedgerAgreement

  // ---- What a step adds -----------------------------------------------------------------------------------------

  /** `u` extends the events of `t` by events of exactly these types. */
  ghost predicate Appends(t: Tables, u: Tables, types: seq<EventType>) {
    && |u.events| == |t.events| + |types| && t.events <= u.events
    && forall k :: |t.events| <= k < |u.events| ==> u.events[k].eventType == types[k - |t.events|]
  }

  /** Nothing but the events and the event head differs. */
  ghost predicate OnlyLogged(t: Tables, u: Tables) {
    u == t.(events := u.events,
            job := t.job.(eventCount := u.job.eventCount, headHash := u.job.headHash, headMac := u.job.headMac))
  }

  lemma RejectAppends(env: Env, key: Key, t: Tables, p: Packet, c: Completion, reason: Reason, clock: Clock)
    requires RejectSteps(env, key, t, p, c, reason, clock).Some?
    ensures var u := RejectSteps(env, key, t, p, c, reason, clock).value;
            OnlyLogged(t, u) && Appends(t, u, [Submitted, Rejected])
  {
  }

  lemma AcceptAppends(env: Env, key: Key, t: Tables, p: Packet, c: Completion, clock: Clock)
    requires AcceptSteps(env, key, t, p, c, clock).Some?
    ensures var u := AcceptSteps(env, key, t, p, c, clock).value;
      && Appends(t, u, [Submitted, Accepted]) && c.inputHash !in t.completions
      && u.completions == t.completions[c.inputHash := CompletionRow(env.completionHash(c), Canonical(c))]
      && OnlyLogged(t, u.(completions := t.completions))
  {
  }

  lemma FinalAppends(env: Env, key: Key, t: Tables, p: Packet, c: Completion, clock: Clock)
    requires FinalSteps(env, key, t, p, c, clock).Some?
    ensures var u := FinalSteps(env, key, t, p, c, clock).value;
      && Appends(t, u, [Submitted, Accepted, FinalQa]) && c.inputHash !in t.completions
      && u.completions == t.completions[c.inputHash := CompletionRow(env.completionHash(c), Canonical(c))]
      && u.job.status == FinalQaReady
      && OnlyLogged(WithStatus(t, FinalQaReady), u.(completions := t.completions))
  {
    hide AcceptSteps;
    AcceptAppends(env, key, t, p, c, clock);
  }

  lemma AdvanceAppends(env: Env, key: Key, t: Tables, p: Packet, c: Completion, next: Packet, clock: Clock)
    requires AdvanceSteps(env, key, t, p, c, next, clock).Some?
    ensures var u := AdvanceSteps(env, key, t, p, c, next, clock).value;
      && Appends(t, u, [Submitted, Accepted, PacketPrepared]) && c.inputHash !in t.completions
      && u.completions == t.completions[c.inputHash := CompletionRow(env.completionHash(c), Canonical(c))]
      && u.packets == t.packets + [PacketRowFor(next)]
      && u.job.status == AwaitingOperator && u.job.packetText == Canonical(next)
      && OnlyLogged(t, u.(completions := t.completions, packets := t.packets,
                          job := u.job.(status := t.job.status, packetText := t.job.packetText)))
      && forall i :: 0 <= i < |t.packets| ==> t.packets[i].inputHash != next.inputHash
  {
    hide AcceptSteps;
    AcceptAppends(env, key, t, p, c, clock);
  }

  /** Later tables keep every event, packet, completion and binding column of earlier ones. */
  ghost predicate Extends(t: Tables, u: Tables) {
    && t.events <= u.events && t.packets <= u.packets
    && (forall h :: h in t.completions ==> h in u.completions && u.completions[h] == t.completions[h])
    && u.job.approvalId == t.job.approvalId && u.job.planFingerprint == t.job.planFingerprint
    && u.job.snapshotHash == t.job.snapshotHash && u.job.evidenceHash == t.job.evidenceHash
    && u.job.contextText == t.job.contextText
    && (t.job.artifactPath.Some? ==>
          u.job.artifactPath == t.job.artifactPath && u.job.artifactHash == t.job.artifactHash)
  }

  /** The job that an operation addresses. */
  function Target(op: Op): Key {
    match op
    case OpPrepare(job, _, _, _) => Key(job.companyId, job.jobId)
    case OpBind(c, _) => Key(c.companyId, c.jobId)
    case OpArtifact(companyId, jobId, _, _, _) => Key(Strip(companyId), Strip(jobId))
    case OpRecovery(companyId, jobId, _) => Key(Strip(companyId), Strip(jobId))
    case OpResolve(companyId, jobId, _, _, _) => Key(Strip(companyId), Strip(jobId))
    case OpCancel(companyId, jobId, _, _) => Key(Strip(companyId), Strip(jobId))
  }

  lemma BindExtends(env: Env, l: Ledger, c: Completion, clock: Clock)
    ensures var k, l2 := Key(c.companyId, c.jobId), Bind(env, l, c, clock).0;
            if k !in l then l2 == l else l2.Keys == l.Keys && l2 == l[k := l2[k]] && Extends(l[k], l2[k])
  {
    hide Accepts, Judge, NextPacket, AcceptSteps, RejectSteps, FinalSteps, AdvanceSteps, EventUnused, Appended;
    var k := Key(c.companyId, c.jobId);
    if k in l && l[k].job.packetText.Canonical? {
      var t := l[k];
      var p := t.job.packetText.value;
      forall r | RejectSteps(env, k, t, p, c, r, clock).Some?
        ensures Extends(t, RejectSteps(env, k, t, p, c, r, clock).value)
      {
        RejectAppends(env, k, t, p, c, r, clock);
      }
      if FinalSteps(env, k, t, p, c, clock).Some? {
        FinalAppends(env, k, t, p, c, clock);
      }
      forall next | AdvanceSteps(env, k, t, p, c, next, clock).Some?
        ensures Extends(t, AdvanceSteps(env, k, t, p, c, next, clock).value)
      {
        AdvanceAppends(env, k, t, p, c, next, clock);
      }
    }
  }

  lemma AppendedExtends(env: Env, key: Key, t: Tables, u: Tables, clock: Clock, d: EventDraft)
    requires u == t.(job := u.job) && SameBinding(t.job, u.job)
    requires t.job.artifactPath.Some? ==>
      u.job.artifactPath == t.job.artifactPath && u.job.artifactHash == t.job.artifactHash
    ensures Extends(t, Appended(env, key, u, clock, d))
  {
  }

  /** Every operation, even on a ledger the validator refuses, touches only its own job and only
      extends that job's history. */
  lemma StepExtends(env: Env, l: Ledger, op: Op, key: Key)
    requires key in l
    ensures key in Step(env, l, op).0 && Extends(l[key], Step(env, l, op).0[key])
    ensures key != Target(op) ==> Step(env, l, op).0[key] == l[key]
  {
    hide Accepts, Bind, OutlinePacket, NewBinding, EventUnused, IsSha256, Strip, Appended;
    var t := l[key];
    match op
    case OpPrepare(_, _, _, _) =>
    case OpBind(c, clock) => BindExtends(env, l, c, clock);
    case OpArtifact(_, _, path, hash, clock) =>
      var b := NewBinding(env, path, hash);
      if b.Some? && TryBindArtifact(t, b.value.0, b.value.1).Some? {
        AppendedExtends(env, key, t, TryBindArtifact(t, b.value.0, b.value.1).value, clock,
                        FrozenDraft(b.value.0, b.value.1));
      }
    case OpRecovery(_, _, clock) =>
      if t.job.packetText.Canonical? {
        AppendedExtends(env, key, t, WithStatus(t, RecoveryRequired), clock,
                        RecoveryDraft(t.job.packetText.value.inputHash));
      }
    case OpResolve(_, _, expected, operatorId, clock) =>
      AppendedExtends(env, key, t, WithStatus(t, AwaitingOperator), clock,
                      ResolvedDraft(Strip(operatorId), Strip(expected)));
    case OpCancel(_, _, operatorId, clock) =>
      if t.job.packetText.Canonical? {
        AppendedExtends(env, key, t, WithStatus(t, CancelRequested), clock,
                        CancelDraft(Strip(operatorId), t.job.status, t.job.packetText.value.inputHash));
      }
  }

  /** Over any run, the earlier tables of a job are a prefix of the later ones. */
  lemma {:induction false} RunExtends(env: Env, l: Ledger, ops: seq<Op>, key: Key)
    requires key in l
    ensures key in Run(env, l, ops) && Extends(l[key], Run(env, l, ops)[key])
    decreases |ops|
  {
    hide Step;
    if ops != [] {
      StepExtends(env, l, ops[0], key);
      RunExtends(env, Step(env, l, ops[0]).0, ops[1..], key);
    }
  }

  /** A call that returns no result leaves every table as it was; only a rejection with its two
      events is committed along with an exception. */
  lemma FailureCommitsNothing(env: Env, l: Ledger, op: Op)
    requires !Step(env, l, op).1.GotPacket? && !Step(env, l, op).1.GotStatus? && !Step(env, l, op).1.GotArtifact?
    requires !Step(env, l, op).1.RejectedFor?
    ensures Step(env, l, op).0 == l
  {
    hide Accepts, OutlinePacket, NewBinding, EventUnused, IsSha256, Strip, Judge, NextPacket, AcceptSteps, RejectSteps,
      FinalSteps, AdvanceSteps, FreezeSteps, TryAppend, ReplayedResolution;
  }
}
