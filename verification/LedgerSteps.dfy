/**
 What each operation of the supervised ledger does to the tables: which event rows it appends,
 which materialized rows it adds, and when it changes nothing. SQL UNIQUE constraints, foreign
 keys and triggers are guards; a guard that fails aborts the whole transaction.
 */
module LedgerSteps {
  import opened Texts
  import opened JsonValue
  import opened LedgerModel

  /** The text of `recorded_at` for each event number of one call. */
  type Clock = int -> string

  datatype EventDraft = EventDraft(eventType: EventType, details: Details)

  datatype Reason = IdentityMismatch | AttestationMismatch | PayloadInvalid | EvidenceMismatch

  datatype Outcome =
    | GotPacket(packet: Packet)          // a packet was returned
    | GotStatus(status: Status)          // a status was returned
    | GotArtifact(path: string, hash: string)
    | RejectedFor(reason: Reason)        // ValueError after a committed rejection
    | Refused                            // ValueError, nothing changed
    | Missing                            // LookupError
    | Corrupt                            // DataIntegrityError
    | Aborted                            // a constraint or trigger aborted the transaction
    | Faulted                            // any other exception

  // ---- Event drafts -------------------------------------------------------------------------------

  function PreparedDraft(p: Packet): EventDraft {
    EventDraft(PacketPrepared,
               map[FStageId := StageV(p.stageId), FSequence := IntV(p.sequence), FInputHash := StrV(p.inputHash)])
  }

  function SubmissionDetails(p: Packet, c: Completion): Details {
    map[FStageId := StageV(p.stageId), FOutstanding := StrV(p.inputHash), FSubmittedStage := StageV(c.stageId),
        FSubmittedHash := StrV(c.inputHash), FOperator := StrV(c.operatorId)]
  }

  function SubmittedDraft(p: Packet, c: Completion): EventDraft {
    EventDraft(Submitted, SubmissionDetails(p, c))
  }

  function ReasonText(r: Reason): string {
    match r
    case IdentityMismatch => "IDENTITY_MISMATCH"
    case AttestationMismatch => "ATTESTATION_MISMATCH"
    case PayloadInvalid => "PAYLOAD_INVALID"
    case EvidenceMismatch => "EVIDENCE_MISMATCH"
  }

  function RejectedDraft(p: Packet, c: Completion, reason: string): EventDraft {
    EventDraft(Rejected, SubmissionDetails(p, c)[FReason := StrV(reason)])
  }

  function AcceptedDraft(c: Completion, hash: string): EventDraft {
    EventDraft(Accepted, map[FStageId := StageV(c.stageId), FInputHash := StrV(c.inputHash),
                             FCompletionHash := StrV(hash)])
  }

  function FinalDraft(inputHash: string): EventDraft {
    EventDraft(FinalQa, map[FFinalHash := StrV(inputHash)])
  }

  function RecoveryDraft(inputHash: string): EventDraft {
    EventDraft(RecoveryNeeded, map[FOutstanding := StrV(inputHash)])
  }

  function ResolvedDraft(operatorId: string, inputHash: string): EventDraft {
    EventDraft(RecoveryResolved, map[FOperator := StrV(operatorId), FOutstanding := StrV(inputHash),
                                FReplacement := BoolV(false), FMaxRetries := IntV(0)])
  }

  function CancelDraft(operatorId: string, prior: Status, inputHash: string): EventDraft {
    EventDraft(CancelAsked,
               map[FOperator := StrV(operatorId), FPriorStatus := StatusV(prior), FOutstanding := StrV(inputHash),
                           FLocalOnly := BoolV(true), FUpstream := BoolV(false)])
  }

  function FrozenDraft(path: string, hash: string): EventDraft {
    EventDraft(Frozen, map[FPath := StrV(path), FManifestHash := StrV(hash)])
  }

  // ---- SQL statements with their guards -------------------------------------------------------------

  function BodyOf(key: Key, job: JobRow, clock: Clock, d: EventDraft): EventBody {
    EventBody(key.companyId, key.jobId, job.eventCount, job.headHash, d.eventType, clock(job.eventCount), d.details)
  }

  function RowOf(env: Env, e: EventBody): EventRow {
    EventRow(e.sequence, e.predecessor, e.eventType, e.recordedAt, env.eventHash(e), env.eventMac(e), Canonical(e))
  }

  /** The tables after the event row is inserted and the head advanced to it. */
  function Appended(env: Env, key: Key, t: Tables, clock: Clock, d: EventDraft): Tables {
    var row := RowOf(env, BodyOf(key, t.job, clock, d));
    t.(events := t.events + [row],
       job := t.job.(eventCount := t.job.eventCount + 1, headHash := Some(row.hash), headMac := Some(row.mac)))
  }

  /** UNIQUE(company_id, job_id, event_hash) and UNIQUE(company_id, job_id, event_sequence). */
  predicate EventUnused(env: Env, key: Key, t: Tables, clock: Clock, d: EventDraft) {
    forall i :: 0 <= i < |t.events| ==>
      t.events[i].hash != env.eventHash(BodyOf(key, t.job, clock, d)) && t.events[i].sequence != t.job.eventCount
  }

  function TryAppend(env: Env, key: Key, t: Tables, clock: Clock, d: EventDraft): Option<Tables> {
    if EventUnused(env, key, t, clock, d) then Some(Appended(env, key, t, clock, d)) else None
  }

  function PacketRowFor(p: Packet): PacketRow {
    PacketRow(p.stageId, p.sequence, p.inputHash, Canonical(p))
  }

  /** INSERT INTO supervised_packets: primary key on stage and sequence, unique input hash. */
  function TryInsertPacket(t: Tables, p: Packet): Option<Tables> {
    if forall i :: 0 <= i < |t.packets| ==>
         t.packets[i].inputHash != p.inputHash
           && (t.packets[i].stageId, t.packets[i].sequence) != (p.stageId, p.sequence)
    then Some(t.(packets := t.packets + [PacketRowFor(p)]))
    else None
  }

  /** INSERT INTO supervised_completions: primary key, and a foreign key to the packet. */
  function TryInsertCompletion(t: Tables, inputHash: string, row: CompletionRow): Option<Tables> {
    if && inputHash !in t.completions
       && exists i :: 0 <= i < |t.packets| && t.packets[i].inputHash == inputHash
    then Some(t.(completions := t.completions[inputHash := row]))
    else None
  }

  /** UPDATE of status and packet head, with the trigger that only lets the head move to the next packet. */
  function TrySetHead(t: Tables, status: Status, text: Text<Packet>): Option<Tables> {
    if || t.job.packetText == text
       || exists i, j :: 0 <= i < |t.packets| && 0 <= j < |t.packets|
            && t.packets[j].sequence == t.packets[i].sequence + 1
            && t.packets[i].text == t.job.packetText && t.packets[j].text == text
    then Some(t.(job := t.job.(status := status, packetText := text)))
    else None
  }

  /** UPDATE binding the artifact, with the initial-binding and no-rebinding triggers. */
  function TryBindArtifact(t: Tables, path: string, hash: string): Option<Tables> {
    if t.job.artifactPath.None? && t.job.artifactHash.None? && t.job.status == FinalQaReady
    then Some(t.(job := t.job.(status := ArtifactFrozen, artifactPath := Some(path), artifactHash := Some(hash))))
    else None
  }

  function WithStatus(t: Tables, s: Status): Tables {
    t.(job := t.job.(status := s))
  }

  // ---- prepare_packet ----------------------------------------------------------------------------------

  datatype JobInput = JobInput(
    jobId: string, companyId: string, snapshotId: string, snapshotHash: string,
    approvalId: string, planFingerprint: string)

  datatype SnapshotInput = SnapshotInput(companyId: string, snapshotId: string, snapshotHash: string, context: Json)

  const PROVIDER_ID := "openai-codex"
  const MODEL_ID := "gpt-5.6-terra"
  const PIPELINE_VERSION := "supervised-subscription-v1"

  /** Identifiers match `[a-z0-9][a-z0-9-]{1,63}`, so they carry no surrounding white space. */
  predicate IdentifiersOk(job: JobInput) {
    Trimmed(job.jobId) && Trimmed(job.companyId)
  }

  /** A packet hashed over its own identity and then constructed. */
  function Hashed(env: Env, raw: Packet): Option<Packet> {
    NewPacket(env, raw.(inputHash := env.packetHash(Identity(raw))))
  }

  /** `build_stage_packet` for the outline stage; `None` where it raises. */
  function OutlinePacket(env: Env, job: JobInput, snap: SnapshotInput, session: string): Option<Packet> {
    if || job.companyId != snap.companyId || job.snapshotId != snap.snapshotId || job.snapshotHash != snap.snapshotHash
       || env.contextHash(snap.context) != snap.snapshotHash
       || !IsSha256(Strip(job.planFingerprint)) || Strip(job.approvalId) == "" || Strip(session) == ""
       || !snap.context.Obj? || !env.evidenceOk(snap.context)
    then None
    else Hashed(env, Packet(
      job.jobId, job.companyId, Outline, 0, job.approvalId, job.planFingerprint,
      snap.snapshotHash, env.evidenceHash(snap.context), PROVIDER_ID, MODEL_ID, Strip(session), PIPELINE_VERSION,
      None, "", env.heading(Outline) + env.instructions(snap.context)))
  }

  function FreshTables(p: Packet, context: Json): Tables {
    Tables(
      JobRow(AwaitingOperator, Canonical(p), p.approvalId, p.planFingerprint, p.snapshotHash, p.evidenceHash,
             Canonical(context), 0, None, None, None, None),
      [PacketRowFor(p)], map[], [])
  }

  ghost function Prepare(env: Env, l: Ledger, job: JobInput, snap: SnapshotInput, session: string,
                         clock: Clock): (Ledger, Outcome)
  {
    var key := Key(job.companyId, job.jobId);
    var built := OutlinePacket(env, job, snap, session);
    if built.None? then (l, Refused)
    else
      var p := built.value;
      if key !in l then
        (l[key := Appended(env, key, FreshTables(p, snap.context), clock, PreparedDraft(p))], GotPacket(p))
      else if !Accepts(env, key, l[key]) then (l, Corrupt)
      else
        var job' := l[key].job;
        if || job'.status != AwaitingOperator || job'.packetText != Canonical(p)
           || job'.approvalId != p.approvalId || job'.planFingerprint != p.planFingerprint
           || job'.snapshotHash != p.snapshotHash || job'.evidenceHash != p.evidenceHash
           || job'.contextText != Canonical(snap.context)
        then (l, Refused)
        else (l, GotPacket(p))
  }

  // ---- bind_completion ---------------------------------------------------------------------------------

  datatype Verdict = Admit | Reject(reason: Reason) | Fault

  /** The checks of `bind_completion`, in the order in which they run. */
  function Judge(env: Env, p: Packet, c: Completion, context: Json): Verdict {
    if || c.companyId != p.companyId || c.jobId != p.jobId || c.stageId != p.stageId || c.inputHash != p.inputHash
    then Reject(IdentityMismatch)
    else if c.sessionRef != p.sessionRef || c.providerId != p.providerId || c.modelId != p.modelId
    then Reject(AttestationMismatch)
    else match env.payloadCheck(p.stageId, c.payload)
      case BadValue => Reject(PayloadInvalid)
      case OtherError => Fault
      case Pass =>
        if p.stageId != StageId(STAGE_COUNT - 1) then Admit
        else match env.sourcesCheck(c.payload, context)
          case BadValue => Reject(EvidenceMismatch)
          case OtherError => Fault
          case Pass => Admit
  }

  /** `_next_packet` for a stage that has a successor; `None` where it raises. */
  function NextPacket(env: Env, p: Packet, hash: string, payload: Json): Option<Packet>
    requires 0 <= p.sequence < STAGE_COUNT - 1
  {
    var heading := env.heading(p.stageId);
    if !(heading <= p.prompt) then None
    else
      var stage := StageId(p.sequence + 1);
      Hashed(env, p.(
        stageId := stage, sequence := p.sequence + 1, previous := Some(hash), inputHash := "",
        prompt := env.heading(stage) + env.history(p.stageId, hash, payload) + p.prompt[|heading|..]))
  }

  /** The submitted and rejected events, committed together. */
  function RejectSteps(env: Env, key: Key, t: Tables, p: Packet, c: Completion, reason: Reason,
                       clock: Clock): Option<Tables>
  {
    var t1 :- TryAppend(env, key, t, clock, SubmittedDraft(p, c));
    TryAppend(env, key, t1, clock, RejectedDraft(p, c, ReasonText(reason)))
  }

  /** Submission, completion row and acceptance event: common to every admitted completion. */
  function AcceptSteps(env: Env, key: Key, t: Tables, p: Packet, c: Completion, clock: Clock): Option<Tables> {
    var hash := env.completionHash(c);
    var t1 :- TryAppend(env, key, t, clock, SubmittedDraft(p, c));
    var t2 :- TryInsertCompletion(t1, c.inputHash, CompletionRow(hash, Canonical(c)));
    TryAppend(env, key, t2, clock, AcceptedDraft(c, hash))
  }

  function FinalSteps(env: Env, key: Key, t: Tables, p: Packet, c: Completion, clock: Clock): Option<Tables> {
    var t1 :- AcceptSteps(env, key, t, p, c, clock);
    TryAppend(env, key, WithStatus(t1, FinalQaReady), clock, FinalDraft(c.inputHash))
  }

  /** The next packet inserted, announced and made the head. */
  function AdvanceFrom(env: Env, key: Key, t: Tables, next: Packet, clock: Clock): Option<Tables> {
    var t1 :- TryInsertPacket(t, next);
    var t2 :- TryAppend(env, key, t1, clock, PreparedDraft(next));
    TrySetHead(t2, AwaitingOperator, Canonical(next))
  }

  function AdvanceSteps(env: Env, key: Key, t: Tables, p: Packet, c: Completion, next: Packet,
                        clock: Clock): Option<Tables>
  {
    var t1 :- AcceptSteps(env, key, t, p, c, clock);
    AdvanceFrom(env, key, t1, next, clock)
  }

  function Commit(l: Ledger, key: Key, t: Option<Tables>, done: Outcome): (Ledger, Outcome) {
    if t.None? then (l, Aborted) else (l[key := t.value], done)
  }

  ghost function Bind(env: Env, l: Ledger, c: Completion, clock: Clock): (Ledger, Outcome) {
    var key := Key(c.companyId, c.jobId);
    if key in l && c.inputHash in l[key].completions then (l, Refused)
    else if key !in l then (l, Missing)
    else if !Accepts(env, key, l[key]) then (l, Corrupt)
    else if l[key].job.status != AwaitingOperator || l[key].job.packetText.Garbage? || l[key].job.contextText.Garbage?
    then (l, Refused)
    else
      BindAwaiting(env, l, key, c, clock)
  }

  /** `bind_completion` past its guards. */
  function BindAwaiting(env: Env, l: Ledger, key: Key, c: Completion, clock: Clock): (Ledger, Outcome)
    requires key in l && l[key].job.packetText.Canonical? && l[key].job.contextText.Canonical?
  {
      var t := l[key];
      var p := t.job.packetText.value;
      match Judge(env, p, c, t.job.contextText.value)
      case Reject(reason) => Commit(l, key, RejectSteps(env, key, t, p, c, reason, clock), RejectedFor(reason))
      case Fault => if TryAppend(env, key, t, clock, SubmittedDraft(p, c)).None? then (l, Aborted) else (l, Faulted)
      case Admit =>
        if AcceptSteps(env, key, t, p, c, clock).None? then (l, Aborted)
        else if !(0 <= p.sequence < STAGE_COUNT - 1) then
          Commit(l, key, FinalSteps(env, key, t, p, c, clock), GotStatus(FinalQaReady))
        else
          var next := NextPacket(env, p, env.completionHash(c), c.payload);
          if next.None? then (l, Refused)
          else Commit(l, key, AdvanceSteps(env, key, t, p, c, next.value, clock), GotPacket(next.value))
  }

  // ---- record_artifact, recovery and cancellation ------------------------------------------------------------

  /** `FrozenArtifactBinding` construction. */
  function NewBinding(env: Env, path: string, hash: string): Option<(string, string)> {
    if Strip(path) == "" || !env.pathOk(Strip(path)) || !IsSha256(Strip(hash)) then None
    else Some((Strip(path), Strip(hash)))
  }

  ghost function RecordArtifact(env: Env, l: Ledger, companyId: string, jobId: string, path: string, hash: string,
                                clock: Clock): (Ledger, Outcome)
  {
    var key := Key(Strip(companyId), Strip(jobId));
    var b := NewBinding(env, path, hash);
    if key.companyId == "" || key.jobId == "" || b.None? then (l, Refused)
    else if key !in l then (l, Missing)
    else if !Accepts(env, key, l[key]) then (l, Corrupt)
    else
      var t := l[key];
      if t.job.status == ArtifactFrozen then
        if && t.job.artifactPath.Some? && t.job.artifactHash.Some?
           && NewBinding(env, t.job.artifactPath.value, t.job.artifactHash.value) == b
        then (l, GotArtifact(b.value.0, b.value.1))
        else (l, Refused)
      else if t.job.status != FinalQaReady then (l, Refused)
      else Commit(l, key, FreezeSteps(env, key, t, b.value.0, b.value.1, clock), GotArtifact(b.value.0, b.value.1))
  }

  function FreezeSteps(env: Env, key: Key, t: Tables, path: string, hash: string, clock: Clock): Option<Tables> {
    var t1 :- TryBindArtifact(t, path, hash);
    TryAppend(env, key, t1, clock, FrozenDraft(path, hash))
  }

  ghost function MarkRecovery(env: Env, l: Ledger, companyId: string, jobId: string, clock: Clock): (Ledger, Outcome) {
    var key := Key(Strip(companyId), Strip(jobId));
    if key.companyId == "" || key.jobId == "" then (l, Refused)
    else if key !in l then (l, Missing)
    else if !Accepts(env, key, l[key]) then (l, Corrupt)
    else
      var t := l[key];
      if t.job.status == RecoveryRequired then (l, GotStatus(RecoveryRequired))
      else if t.job.status != AwaitingOperator || t.job.packetText.Garbage? then (l, Refused)
      else Commit(l, key,
        TryAppend(env, key, WithStatus(t, RecoveryRequired), clock, RecoveryDraft(t.job.packetText.value.inputHash)),
        GotStatus(RecoveryRequired))
  }

  ghost function Cancel(env: Env, l: Ledger, companyId: string, jobId: string, operatorId: string,
                        clock: Clock): (Ledger, Outcome)
  {
    var key := Key(Strip(companyId), Strip(jobId));
    if key.companyId == "" || key.jobId == "" || Strip(operatorId) == "" then (l, Refused)
    else if key !in l then (l, Missing)
    else if !Accepts(env, key, l[key]) then (l, Corrupt)
    else
      var t := l[key];
      if t.job.status == CancelRequested then (l, GotStatus(CancelRequested))
      else if t.job.status !in {AwaitingOperator, RecoveryRequired} || t.job.packetText.Garbage? then (l, Refused)
      else Commit(l, key,
        TryAppend(env, key, WithStatus(t, CancelRequested), clock,
                  CancelDraft(Strip(operatorId), t.job.status, t.job.packetText.value.inputHash)),
        GotStatus(CancelRequested))
  }

  /** Position of the last event of a type, or -1. */
  function LastOf(events: seq<EventRow>, e: EventType): (i: int)
    ensures -1 <= i < |events|
    ensures i >= 0 ==> events[i].eventType == e
    ensures forall k :: i < k < |events| ==> events[k].eventType != e
  {
    if events == [] then -1
    else if events[|events| - 1].eventType == e then |events| - 1
    else LastOf(events[..|events| - 1], e)
  }

  /** The answer on a ledger that already awaits its operator: judged by the last resolution alone.
      The stored body is re-read only for these two fields, since the validator has just
      authenticated it and checked its shape. */
  function ReplayedResolution(t: Tables, expected: string, operatorId: string): Outcome {
    var i := LastOf(t.events, RecoveryResolved);
    if i < 0 then Refused
    else if t.events[i].text.Garbage? then Corrupt
    else
      var d := t.events[i].text.value.details;
      if !(FOutstanding in d && d[FOutstanding] == StrV(expected)) then Corrupt
      else if !(FOperator in d && d[FOperator] == StrV(operatorId)) then Refused
      else GotStatus(AwaitingOperator)
  }

  ghost function Resolve(env: Env, l: Ledger, companyId: string, jobId: string, expectedHash: string,
                         operatorId: string, clock: Clock): (Ledger, Outcome)
  {
    var key := Key(Strip(companyId), Strip(jobId));
    var expected := Strip(expectedHash);
    if key.companyId == "" || key.jobId == "" || !IsSha256(expected) || Strip(operatorId) == "" then (l, Refused)
    else if key !in l then (l, Missing)
    else if !Accepts(env, key, l[key]) then (l, Corrupt)
    else
      var t := l[key];
      if t.job.packetText.Garbage? || t.job.packetText.value.inputHash != expected then (l, Refused)
      else if t.job.status == AwaitingOperator then (l, ReplayedResolution(t, expected, Strip(operatorId)))
      else if t.job.status != RecoveryRequired then (l, Refused)
      else Commit(l, key,
        TryAppend(env, key, WithStatus(t, AwaitingOperator), clock, ResolvedDraft(Strip(operatorId), expected)),
        GotStatus(AwaitingOperator))
  }

  // ---- Runs -------------------------------------------------------------------------------------------------

  datatype Op =
    | OpPrepare(job: JobInput, snap: SnapshotInput, session: string, clock: Clock)
    | OpBind(completion: Completion, clock: Clock)
    | OpArtifact(companyId: string, jobId: string, path: string, hash: string, clock: Clock)
    | OpRecovery(companyId: string, jobId: string, clock: Clock)
    | OpResolve(companyId: string, jobId: string, expected: string, operatorId: string, clock: Clock)
    | OpCancel(companyId: string, jobId: string, operatorId: string, clock: Clock)

  /** What the typed arguments of each call already guarantee. */
  predicate OpOk(env: Env, op: Op) {
    match op
    case OpPrepare(job, _, _, _) => IdentifiersOk(job)
    case OpBind(c, _) => CompletionOk(env, c)
    case _ => true
  }

  ghost function Step(env: Env, l: Ledger, op: Op): (Ledger, Outcome) {
    match op
    case OpPrepare(job, snap, session, clock) => Prepare(env, l, job, snap, session, clock)
    case OpBind(c, clock) => Bind(env, l, c, clock)
    case OpArtifact(companyId, jobId, path, hash, clock) => RecordArtifact(env, l, companyId, jobId, path, hash, clock)
    case OpRecovery(companyId, jobId, clock) => MarkRecovery(env, l, companyId, jobId, clock)
    case OpResolve(companyId, jobId, expected, operatorId, clock) =>
      Resolve(env, l, companyId, jobId, expected, operatorId, clock)
    case OpCancel(companyId, jobId, operatorId, clock) => Cancel(env, l, companyId, jobId, operatorId, clock)
  }

  ghost function Run(env: Env, l: Ledger, ops: seq<Op>): Ledger
    decreases |ops|
  {
    if ops == [] then l else Run(env, Step(env, l, ops[0]).0, ops[1..])
  }
}
