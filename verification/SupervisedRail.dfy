/**
 The ledger as the object that updates its tables in place. Every method runs the replay validator
 first, writes row by row, and restores the tables it started from when a constraint aborts or a
 later check raises. Its new state and its outcome are those of `LedgerSteps`.
 */
module SupervisedRail {
  import opened Texts
  import opened JsonValue
  import opened LedgerModel
  import opened LedgerSteps
  import opened LedgerAgreement
  import opened LedgerHistory
  import opened LedgerOutcomes
  import opened LedgerContents
  import LedgerTheorems
  import LedgerValidator

  /** What the declared constraints of the database give for every job. */
  ghost predicate Schema(l: Ledger) {
    forall key :: key in l ==> SchemaOk(l[key])
  }

  /** A job's own tables decide what happens to them; refused tables are left alone. */
  lemma StepIsLocal(env: Env, l: Ledger, op: Op, key: Key)
    requires key in l && key == Target(op)
    ensures var m := Step(env, map[key := l[key]], op).0;
            key in m && Step(env, l, op).0 == l[key := m[key]]
    ensures !Accepts(env, key, l[key]) ==> Step(env, l, op).0 == l
  {
    hide Accepts, OutlinePacket, NewBinding, EventUnused, IsSha256, Strip, Judge, NextPacket, AcceptSteps, TrySetHead,
      RejectSteps, FinalSteps, AdvanceSteps, FreezeSteps, TryAppend, ReplayedResolution, LastOf;
  }

  /** The constraints stay satisfied whatever the state of the other jobs' tables. */
  lemma StepSchema(env: Env, l: Ledger, op: Op)
    requires Schema(l) && OpOk(env, op)
    ensures Schema(Step(env, l, op).0)
  {
    hide Accepts, SchemaOk, Step;
    var key := Target(op);
    if key in l {
      StepIsLocal(env, l, op, key);
      if Accepts(env, key, l[key]) {
        StepSound(env, map[key := l[key]], op);
      }
    } else {
      StepStarts(env, l, op);
      StepSound(env, map[], op);
    }
  }

  lemma StepStarts(env: Env, l: Ledger, op: Op)
    requires Target(op) !in l
    ensures var m := Step(env, map[], op).0;
            Step(env, l, op).0 == if Target(op) in m then l[Target(op) := m[Target(op)]] else l
  {
    hide OutlinePacket, NewBinding, IsSha256, Strip;
  }

  lemma FreshAppends(env: Env, key: Key, p: Packet, context: Json, clock: Clock)
    ensures var t := FreshTables(p, context);
            TryAppend(env, key, t, clock, PreparedDraft(p)) == Some(Appended(env, key, t, clock, PreparedDraft(p)))
  {
  }

  class SupervisedRail {
    const env: Env
    var ledger: Ledger

    constructor (env: Env)
      ensures this.env == env && ledger == map[]
    {
      this.env := env;
      ledger := map[];
    }

    /** `_append_event`: insert the event row, then advance the stored head to it. */
    method AppendEvent(key: Key, clock: Clock, d: EventDraft) returns (ok: bool)
      requires key in ledger
      modifies this`ledger
      ensures ok == TryAppend(env, key, old(ledger[key]), clock, d).Some?
      ensures ledger == if ok then old(ledger)[key := TryAppend(env, key, old(ledger[key]), clock, d).value]
        else old(ledger)
    {
      var t := ledger[key];
      var body := BodyOf(key, t.job, clock, d);
      var row := RowOf(env, body);
      if exists i :: 0 <= i < |t.events| && (t.events[i].hash == row.hash || t.events[i].sequence == row.sequence) {
        assert !EventUnused(env, key, t, clock, d);
        return false;
      }
      ledger := ledger[key := t.(events := t.events + [row])];
      var job := t.job.(eventCount := row.sequence + 1, headHash := Some(row.hash), headMac := Some(row.mac));
      ledger := ledger[key := ledger[key].(job := job)];
      return true;
    }

    /** `_validated_status_projection` on one job's tables. */
    method Validate(key: Key) returns (status: Option<Status>)
      requires Schema(ledger) && key in ledger
      ensures status.Some? <==> Accepts(env, key, ledger[key])
      ensures status.Some? ==> status.value == ledger[key].job.status
    {
      status := LedgerValidator.ValidatedStatus(env, key, ledger[key]);
    }

    /** Set the status of a job and record why, or leave everything as it was. */
    method ChangeStatus(key: Key, status: Status, clock: Clock, d: EventDraft) returns (ok: bool)
      requires key in ledger
      modifies this`ledger
      ensures var t := TryAppend(env, key, WithStatus(old(ledger[key]), status), clock, d);
              ok == t.Some? && ledger == if ok then old(ledger)[key := t.value] else old(ledger)
    {
      hide TryAppend;
      var before := ledger;
      ledger := ledger[key := WithStatus(ledger[key], status)];
      ok := AppendEvent(key, clock, d);
      if !ok {
        ledger := before;
      }
    }

    method MarkOperatorRecoveryRequired(company: string, job: string, clock: Clock) returns (out: Outcome)
      requires Schema(ledger)
      modifies this`ledger
      ensures (ledger, out) == MarkRecovery(env, old(ledger), company, job, clock)
      ensures Schema(ledger)
    {
      hide Accepts, SchemaOk, TryAppend, Strip;
      StepSchema(env, ledger, OpRecovery(company, job, clock));
      var key := Key(Strip(company), Strip(job));
      if key.companyId == "" || key.jobId == "" {
        return Refused;
      }
      if key !in ledger {
        return Missing;
      }
      var status := Validate(key);
      if status.None? {
        return Corrupt;
      }
      if status.value == RecoveryRequired {
        return GotStatus(RecoveryRequired);
      }
      if status.value != AwaitingOperator || ledger[key].job.packetText.Garbage? {
        return Refused;
      }
      var packet := ledger[key].job.packetText.value;
      var ok := ChangeStatus(key, RecoveryRequired, clock, RecoveryDraft(packet.inputHash));
      out := if ok then GotStatus(RecoveryRequired) else Aborted;
    }

    method RequestCancel(company: string, job: string, operator: string, clock: Clock) returns (out: Outcome)
      requires Schema(ledger)
      modifies this`ledger
      ensures (ledger, out) == Cancel(env, old(ledger), company, job, operator, clock)
      ensures Schema(ledger)
    {
      hide Accepts, SchemaOk, TryAppend, Strip;
      StepSchema(env, ledger, OpCancel(company, job, operator, clock));
      var key, operatorId := Key(Strip(company), Strip(job)), Strip(operator);
      if key.companyId == "" || key.jobId == "" || operatorId == "" {
        return Refused;
      }
      if key !in ledger {
        return Missing;
      }
      var status := Validate(key);
      if status.None? {
        return Corrupt;
      }
      if status.value == CancelRequested {
        return GotStatus(CancelRequested);
      }
      if (status.value != AwaitingOperator && status.value != RecoveryRequired) || ledger[key].job.packetText.Garbage? {
        return Refused;
      }
      var packet := ledger[key].job.packetText.value;
      var ok := ChangeStatus(key, CancelRequested, clock, CancelDraft(operatorId, status.value, packet.inputHash));
      out := if ok then GotStatus(CancelRequested) else Aborted;
    }

    method ResolveRecoveryForExactBinding(company: string, job: string, expectedHash: string, operator: string,
                                          clock: Clock)
      returns (out: Outcome)
      requires Schema(ledger)
      modifies this`ledger
      ensures (ledger, out) == Resolve(env, old(ledger), company, job, expectedHash, operator, clock)
      ensures Schema(ledger)
    {
      hide Accepts, SchemaOk, TryAppend, Strip, LastOf, IsSha256;
      StepSchema(env, ledger, OpResolve(company, job, expectedHash, operator, clock));
      var key, expected, operatorId := Key(Strip(company), Strip(job)), Strip(expectedHash), Strip(operator);
      if key.companyId == "" || key.jobId == "" || !IsSha256(expected) || operatorId == "" {
        return Refused;
      }
      if key !in ledger {
        return Missing;
      }
      var status := Validate(key);
      if status.None? {
        return Corrupt;
      }
      var t := ledger[key];
      if t.job.packetText.Garbage? || t.job.packetText.value.inputHash != expected {
        return Refused;
      }
      if status.value == AwaitingOperator {
        return ReplayedResolution(t, expected, operatorId);
      }
      if status.value != RecoveryRequired {
        return Refused;
      }
      var ok := ChangeStatus(key, AwaitingOperator, clock, ResolvedDraft(operatorId, expected));
      out := if ok then GotStatus(AwaitingOperator) else Aborted;
    }

    method RecordFrozenArtifact(company: string, job: string, rawPath: string, rawHash: string, clock: Clock)
      returns (out: Outcome)
      requires Schema(ledger)
      modifies this`ledger
      ensures (ledger, out) == RecordArtifact(env, old(ledger), company, job, rawPath, rawHash, clock)
      ensures Schema(ledger)
    {
      hide Accepts, SchemaOk, TryAppend, Strip, NewBinding;
      StepSchema(env, ledger, OpArtifact(company, job, rawPath, rawHash, clock));
      var key, binding := Key(Strip(company), Strip(job)), NewBinding(env, rawPath, rawHash);
      if key.companyId == "" || key.jobId == "" || binding.None? {
        return Refused;
      }
      if key !in ledger {
        return Missing;
      }
      var status := Validate(key);
      if status.None? {
        return Corrupt;
      }
      var (path, hash) := binding.value;
      var t := ledger[key];
      if status.value == ArtifactFrozen {
        if && t.job.artifactPath.Some? && t.job.artifactHash.Some?
           && NewBinding(env, t.job.artifactPath.value, t.job.artifactHash.value) == binding
        {
          return GotArtifact(path, hash);
        }
        return Refused;
      }
      if status.value != FinalQaReady {
        return Refused;
      }
      var bound := TryBindArtifact(t, path, hash);
      if bound.None? {
        return Aborted;
      }
      var before := ledger;
      ledger := ledger[key := bound.value];
      var ok := AppendEvent(key, clock, FrozenDraft(path, hash));
      if !ok {
        ledger := before;
        return Aborted;
      }
      assert ledger == before[key := FreezeSteps(env, key, t, path, hash, clock).value];
      return GotArtifact(path, hash);
    }

    method PreparePacket(job: JobInput, snap: SnapshotInput, session: string, clock: Clock) returns (out: Outcome)
      requires Schema(ledger) && IdentifiersOk(job)
      modifies this`ledger
      ensures (ledger, out) == Prepare(env, old(ledger), job, snap, session, clock)
      ensures Schema(ledger)
    {
      hide Accepts, SchemaOk, OutlinePacket;
      StepSchema(env, ledger, OpPrepare(job, snap, session, clock));
      var built := OutlinePacket(env, job, snap, session);
      if built.None? {
        return Refused;
      }
      var packet, key := built.value, Key(job.companyId, job.jobId);
      if key in ledger {
        var status := Validate(key);
        if status.None? {
          return Corrupt;
        }
        var row := ledger[key].job;
        if || status.value != AwaitingOperator || row.packetText != Canonical(packet)
           || row.approvalId != packet.approvalId || row.planFingerprint != packet.planFingerprint
           || row.snapshotHash != packet.snapshotHash || row.evidenceHash != packet.evidenceHash
           || row.contextText != Canonical(snap.context)
        {
          return Refused;
        }
        return GotPacket(packet);
      }
      ledger := ledger[key := FreshTables(packet, snap.context)];
      var ok := AppendEvent(key, clock, PreparedDraft(packet));
      assert ledger == old(ledger)[key := Appended(env, key, FreshTables(packet, snap.context), clock,
                                                   PreparedDraft(packet))] by {
        hide *;
        FreshAppends(env, key, packet, snap.context, clock);
      }
      return GotPacket(packet);
    }

    /** Append the submission, insert the completion and append the acceptance. */
    method AdmitCompletion(key: Key, p: Packet, c: Completion, clock: Clock) returns (ok: bool)
      requires key in ledger
      modifies this`ledger
      ensures var t := AcceptSteps(env, key, old(ledger[key]), p, c, clock);
              ok == t.Some? && (ok ==> ledger == old(ledger)[key := t.value])
    {
      hide TryAppend;
      var hash := env.completionHash(c);
      ok := AppendEvent(key, clock, SubmittedDraft(p, c));
      if !ok {
        return;
      }
      var inserted := TryInsertCompletion(ledger[key], c.inputHash, CompletionRow(hash, Canonical(c)));
      if inserted.None? {
        return false;
      }
      ledger := ledger[key := inserted.value];
      ok := AppendEvent(key, clock, AcceptedDraft(c, hash));
    }

    /** Insert the next packet, announce it and make it the head. */
    method AdvancePacket(key: Key, next: Packet, clock: Clock) returns (ok: bool)
      requires key in ledger
      modifies this`ledger
      ensures var t := AdvanceFrom(env, key, old(ledger[key]), next, clock);
              ok == t.Some? && (ok ==> ledger == old(ledger)[key := t.value])
    {
      hide TryAppend;
      var inserted := TryInsertPacket(ledger[key], next);
      if inserted.None? {
        return false;
      }
      ledger := ledger[key := inserted.value];
      ok := AppendEvent(key, clock, PreparedDraft(next));
      if !ok {
        return;
      }
      var moved := TrySetHead(ledger[key], AwaitingOperator, Canonical(next));
      if moved.None? {
        return false;
      }
      ledger := ledger[key := moved.value];
    }

    method BindCompletion(c: Completion, clock: Clock) returns (out: Outcome)
      requires Schema(ledger) && CompletionOk(env, c)
      modifies this`ledger
      ensures (ledger, out) == Bind(env, old(ledger), c, clock)
      ensures Schema(ledger)
      ensures TextsOk(env) && Grown(env, old(ledger)) && out.GotPacket? ==>
        var key := Key(c.companyId, c.jobId);
        key in old(ledger) && key in ledger && HandsOut(env, old(ledger[key]), ledger[key], c, out.packet)
    {
      hide Accepts, SchemaOk, TryAppend, Judge, AcceptSteps, NextPacket, CompletionOk, TextsOk, Grown, HandsOut;
      StepSchema(env, ledger, OpBind(c, clock));
      if TextsOk(env) && Grown(env, ledger) && Bind(env, ledger, c, clock).1.GotPacket? {
        BindHandsOut(env, ledger, c, clock);
      }
      var key := Key(c.companyId, c.jobId);
      if key in ledger && c.inputHash in ledger[key].completions {
        return Refused;
      }
      if key !in ledger {
        return Missing;
      }
      var status := Validate(key);
      if status.None? {
        return Corrupt;
      }
      var t := ledger[key];
      if status.value != AwaitingOperator || t.job.packetText.Garbage? || t.job.contextText.Garbage? {
        return Refused;
      }
      out := BindAwaitingCompletion(key, c, clock);
    }

    /** `bind_completion` past its guards. */
    method BindAwaitingCompletion(key: Key, c: Completion, clock: Clock) returns (out: Outcome)
      requires key in ledger && ledger[key].job.packetText.Canonical? && ledger[key].job.contextText.Canonical?
      modifies this`ledger
      ensures (ledger, out) == BindAwaiting(env, old(ledger), key, c, clock)
      ensures
        && TextsOk(env) && Accepts(env, key, old(ledger[key])) && Healthy(env, old(ledger[key])) && out.GotPacket? ==>
        key in ledger && HandsOut(env, old(ledger[key]), ledger[key], c, out.packet)
    {
      hide TryAppend, Judge, AcceptSteps, NextPacket, TryInsertPacket, TrySetHead, TextsOk, Accepts, Healthy, HandsOut;
      var before, t, p := ledger, ledger[key], ledger[key].job.packetText.value;
      var verdict := Judge(env, p, c, t.job.contextText.value);
      if verdict.Admit? {
        var ok := AdmitCompletion(key, p, c, clock);
        if !ok {
          ledger := before;
          return Aborted;
        }
        if !(0 <= p.sequence < STAGE_COUNT - 1) {
          ledger := ledger[key := WithStatus(ledger[key], FinalQaReady)];
          ok := AppendEvent(key, clock, FinalDraft(c.inputHash));
          if !ok {
            ledger := before;
            return Aborted;
          }
          assert ledger == before[key := FinalSteps(env, key, t, p, c, clock).value];
          return GotStatus(FinalQaReady);
        }
        var next := NextPacket(env, p, env.completionHash(c), c.payload);
        if next.None? {
          ledger := before;
          return Refused;
        }
        ok := AdvancePacket(key, next.value, clock);
        if !ok {
          ledger := before;
          return Aborted;
        }
        assert ledger == before[key := AdvanceSteps(env, key, t, p, c, next.value, clock).value];
        if TextsOk(env) && Accepts(env, key, t) && Healthy(env, t) {
          AdmitIdentity(env, p, c, t.job.contextText.value);
          AdvanceHandsOut(env, key, t, c, next.value, clock);
        }
        return GotPacket(next.value);
      }
      var ok := AppendEvent(key, clock, SubmittedDraft(p, c));
      if !ok {
        return Aborted;
      }
      if verdict.Fault? {
        ledger := before;
        return Faulted;
      }
      ok := AppendEvent(key, clock, RejectedDraft(p, c, ReasonText(verdict.reason)));
      if !ok {
        ledger := before;
        return Aborted;
      }
      assert ledger == before[key := RejectSteps(env, key, t, p, c, verdict.reason, clock).value];
      return RejectedFor(verdict.reason);
    }

    /** `status`: the stored status, on tables that validate. */
    method Status(key: Key) returns (out: Outcome)
      requires Schema(ledger)
      ensures out == if key !in ledger then Missing else if Accepts(env, key, ledger[key])
        then GotStatus(ledger[key].job.status) else Corrupt
    {
      hide Accepts, SchemaOk;
      if key !in ledger {
        return Missing;
      }
      var status := Validate(key);
      out := if status.None? then Corrupt else GotStatus(status.value);
    }

    /** `outstanding_packet`: on an accepted ledger that awaits its operator, the last packet. */
    method OutstandingPacket(key: Key) returns (out: Outcome)
      requires Schema(ledger)
      ensures key !in ledger ==> out == Missing
      ensures key in ledger && !Accepts(env, key, ledger[key]) ==> out == Corrupt
      ensures key in ledger && Accepts(env, key, ledger[key]) ==>
        var t := ledger[key];
        if t.job.status != AwaitingOperator then out == Missing
        else out.GotPacket? && PacketOk(env, out.packet) && t.packets[|t.packets| - 1] == PacketRowFor(out.packet)
    {
      hide Accepts, SchemaOk, PacketOk, NewPacket;
      if key !in ledger {
        return Missing;
      }
      var status := Validate(key);
      if status.None? {
        return Corrupt;
      }
      if status.value != AwaitingOperator {
        return Missing;
      }
      HeadPacket(env, key, ledger[key]);
      var raw := ledger[key].job.packetText.value;
      PacketReload(env, raw);
      var packet := NewPacket(env, raw);
      out := if packet.None? then Refused else GotPacket(packet.value);
    }

    /** `final_completion`: on an accepted ledger past final QA it always finds the completion of the
        last stage, and none of its own checks fires. */
    method FinalCompletion(company: string, job: string) returns (out: Option<Completion>, error: Outcome)
      requires Schema(ledger)
      ensures out.Some? <==>
        var key := Key(Strip(company), Strip(job));
        && key.companyId != "" && key.jobId != "" && key in ledger && Accepts(env, key, ledger[key])
        && ledger[key].job.status in {FinalQaReady, ArtifactFrozen}
      ensures out.Some? ==>
        var t := ledger[Key(Strip(company), Strip(job))];
        && |t.packets| == STAGE_COUNT && t.packets[STAGE_COUNT - 1].text.Canonical? && t.job.contextText.Canonical?
        && t.packets[STAGE_COUNT - 1].inputHash in t.completions
        && t.completions[t.packets[STAGE_COUNT - 1].inputHash].text.Canonical?
        && NewCompletion(env, t.completions[t.packets[STAGE_COUNT - 1].inputHash].text.value) == out
        && Judge(env, t.packets[STAGE_COUNT - 1].text.value, out.value, t.job.contextText.value) == Admit
    {
      hide Accepts, SchemaOk, NewCompletion, Judge, Strip;
      var key := Key(Strip(company), Strip(job));
      if key.companyId == "" || key.jobId == "" {
        return None, Refused;
      }
      if key !in ledger {
        return None, Missing;
      }
      var status := Validate(key);
      if status.None? {
        return None, Corrupt;
      }
      if status.value != FinalQaReady && status.value != ArtifactFrozen {
        return None, Refused;
      }
      var t := ledger[key];
      FinalRow(env, key, t);
      var i := 0;
      while i < |t.packets| && (t.packets[i].stageId != Revision || t.packets[i].sequence != STAGE_COUNT - 1)
        invariant 0 <= i < |t.packets|
        invariant forall k :: 0 <= k < i ==> t.packets[k].sequence != STAGE_COUNT - 1
        decreases |t.packets| - i
      {
        i := i + 1;
      }
      var row := t.completions[t.packets[i].inputHash];
      if row.text.Garbage? || env.completionHash(row.text.value) != row.hash {
        return None, Refused;
      }
      out := NewCompletion(env, row.text.value);
      return out, Refused;
    }
  }

  /** On an accepted ledger past final QA, packet 3 is the revision and its completion checks out. */
  lemma FinalRow(env: Env, key: Key, t: Tables)
    requires SchemaOk(t) && Accepts(env, key, t) && t.job.status in {FinalQaReady, ArtifactFrozen}
    ensures |t.packets| == STAGE_COUNT
    ensures forall i :: 0 <= i < STAGE_COUNT ==> t.packets[i].stageId == StageId(i) && t.packets[i].sequence == i
    ensures var p := t.packets[STAGE_COUNT - 1];
      && p.text.Canonical? && t.job.contextText.Canonical? && p.inputHash in t.completions
      && var row := t.completions[p.inputHash];
         && row.text.Canonical? && row.hash == env.completionHash(row.text.value)
         && NewCompletion(env, row.text.value).Some?
         && Judge(env, p.text.value, NewCompletion(env, row.text.value).value, t.job.contextText.value) == Admit
  {
    hide Accepts, SchemaOk, NewCompletion, Judge;
    LedgerTheorems.FinalThenArtifact(env, key, t);
    LedgerTheorems.PacketsAreStages(env, key, t);
    LedgerTheorems.CompletedPackets(env, key, t);
    LedgerTheorems.CompletionsWereChecked(env, key, t, STAGE_COUNT - 1);
  }
}
