/**
 The rows of the supervised ledger and, stated declaratively, what it means for the rows of one
 job to pass the replay validator. SHA-256, HMAC, the stage payload schema and the source
 provenance rules are function parameters collected in `Env`.
 */
module LedgerModel {
  import opened Texts
  import opened JsonValue

  /** A TEXT column holding canonical JSON: the value it encodes, or text that is not the
      canonical encoding of a value of the expected shape. */
  datatype Text<+T> = Canonical(value: T) | Garbage(raw: string)

  datatype Key = Key(companyId: string, jobId: string)

  const STAGE_COUNT := 4

  /** A stage identifier as text: one of the four supported ones, or any other text. */
  datatype Stage = Outline | Draft | Critic | Revision | OtherStage(raw: string)

  /** `STAGE_IDS`, by sequence number. */
  function StageId(sequence: int): Stage
    requires 0 <= sequence < STAGE_COUNT
  {
    if sequence == 0 then Outline else if sequence == 1 then Draft else if sequence == 2 then Critic else Revision
  }

  datatype Status =
    | PacketReady | AwaitingOperator | RecoveryRequired | CancelRequested | FinalQaReady | ArtifactFrozen
    | UnknownStatus(raw: string)

  datatype EventType =
    | PacketPrepared | Submitted | Accepted | Rejected
    | RecoveryNeeded | RecoveryResolved | CancelAsked | FinalQa | Frozen
    | UnknownEvent(raw: string)

  /** Keys of an event's `details` object. */
  datatype Field =
    | FStageId | FSequence | FInputHash | FCompletionHash | FOutstanding | FSubmittedStage | FSubmittedHash
    | FOperator | FReason | FReplacement | FMaxRetries | FPriorStatus | FLocalOnly | FUpstream
    | FFinalHash | FPath | FManifestHash
    | FOther(name: string)

  /** Values inside `details`. Text is `StageV` under a stage field, `StatusV` under the prior
      status field and `StrV` everywhere else. */
  datatype Detail =
    | StrV(s: string) | StageV(stage: Stage) | StatusV(status: Status) | IntV(i: int) | BoolV(b: bool) | OtherV

  type Details = map<Field, Detail>

  datatype EventBody = EventBody(
    companyId: string, jobId: string, sequence: int, predecessor: Option<string>,
    eventType: EventType, recordedAt: string, details: Details)

  datatype EventRow = EventRow(
    sequence: int, predecessor: Option<string>, eventType: EventType, recordedAt: string,
    hash: string, mac: string, text: Text<EventBody>)

  datatype Packet = Packet(
    jobId: string, companyId: string, stageId: Stage, sequence: int,
    approvalId: string, planFingerprint: string, snapshotHash: string, evidenceHash: string,
    providerId: string, modelId: string, sessionRef: string, template: string,
    previous: Option<string>, inputHash: string, prompt: string)

  datatype Completion = Completion(
    jobId: string, companyId: string, stageId: Stage, inputHash: string, payload: Json,
    sessionRef: string, providerId: string, modelId: string, operatorId: string, observedAt: string)

  datatype PacketRow = PacketRow(stageId: Stage, sequence: int, inputHash: string, text: Text<Packet>)

  datatype CompletionRow = CompletionRow(hash: string, text: Text<Completion>)

  datatype JobRow = JobRow(
    status: Status, packetText: Text<Packet>,
    approvalId: string, planFingerprint: string, snapshotHash: string, evidenceHash: string,
    contextText: Text<Json>,
    eventCount: int, headHash: Option<string>, headMac: Option<string>,
    artifactPath: Option<string>, artifactHash: Option<string>)

  /** Everything the ledger stores for one job: packet rows in `sequence` order, completion rows
      by input hash, event rows in `event_sequence` order. */
  datatype Tables = Tables(
    job: JobRow, packets: seq<PacketRow>, completions: map<string, CompletionRow>, events: seq<EventRow>)

  type Ledger = map<Key, Tables>

  /** How a payload or source check ends: passed, `ValueError`, or any other exception. */
  datatype Check = Pass | BadValue | OtherError

  datatype Env = Env(
    eventHash: EventBody -> Digest,
    eventMac: EventBody -> Digest,
    packetHash: Packet -> Digest,
    completionHash: Completion -> Digest,
    contextHash: Json -> Digest,
    evidenceHash: Json -> Digest,
    evidenceOk: Json -> bool,
    payloadCheck: (Stage, Json) -> Check,
    sourcesCheck: (Json, Json) -> Check,
    timeOk: string -> bool,
    pathOk: string -> bool,
    heading: Stage -> string,
    instructions: Json -> string,
    history: (Stage, string, Json) -> string)

  // ---- Constructors that trim and check their fields --------------------------------------

  /** `packet_identity_mapping`: the packet without its own hash. */
  function Identity(p: Packet): Packet {
    p.(inputHash := "")
  }

  /** `StagePacket.__post_init__`, where it raises and what it stores. */
  function NewPacket(env: Env, raw: Packet): Option<Packet> {
    var p := raw.(
      jobId := Strip(raw.jobId), companyId := Strip(raw.companyId), approvalId := Strip(raw.approvalId),
      planFingerprint := Strip(raw.planFingerprint), snapshotHash := Strip(raw.snapshotHash),
      evidenceHash := Strip(raw.evidenceHash), providerId := Strip(raw.providerId), modelId := Strip(raw.modelId),
      sessionRef := Strip(raw.sessionRef), template := Strip(raw.template), prompt := Strip(raw.prompt),
      inputHash := Strip(raw.inputHash),
      previous := if raw.previous.Some? then Some(Strip(raw.previous.value)) else None);
    if || p.jobId == "" || p.companyId == "" || p.approvalId == "" || p.providerId == "" || p.modelId == ""
       || p.sessionRef == "" || p.template == "" || p.prompt == ""
       || !(0 <= p.sequence < STAGE_COUNT) || p.stageId != StageId(p.sequence)
       || !IsSha256(p.planFingerprint) || !IsSha256(p.snapshotHash) || !IsSha256(p.evidenceHash)
       || !(if p.sequence == 0 then p.previous == None else p.previous.Some? && IsSha256(p.previous.value))
       || !IsSha256(p.inputHash)
       || env.packetHash(Identity(p)) != p.inputHash
    then None else Some(p)
  }

  /** The packets that survive `NewPacket` unchanged; exactly what construction can return. */
  predicate PacketOk(env: Env, p: Packet) {
    && Trimmed(p.jobId) && Trimmed(p.companyId) && Trimmed(p.approvalId)
    && Trimmed(p.providerId) && Trimmed(p.modelId) && Trimmed(p.sessionRef)
    && Trimmed(p.template) && Trimmed(p.prompt)
    && 0 <= p.sequence < STAGE_COUNT && p.stageId == StageId(p.sequence)
    && IsSha256(p.planFingerprint) && IsSha256(p.snapshotHash) && IsSha256(p.evidenceHash)
    && (if p.sequence == 0 then p.previous == None else p.previous.Some? && IsSha256(p.previous.value))
    && IsSha256(p.inputHash) && env.packetHash(Identity(p)) == p.inputHash
  }

  /** `ObservedCompletion` and `OperatorAttestation` construction from a stored value. */
  function NewCompletion(env: Env, raw: Completion): Option<Completion> {
    var c := raw.(
      jobId := Strip(raw.jobId), companyId := Strip(raw.companyId), inputHash := Strip(raw.inputHash),
      sessionRef := Strip(raw.sessionRef), providerId := Strip(raw.providerId), modelId := Strip(raw.modelId),
      operatorId := Strip(raw.operatorId));
    if || c.jobId == "" || c.companyId == "" || c.sessionRef == "" || c.providerId == "" || c.modelId == ""
       || c.operatorId == ""
       || c.stageId.OtherStage? || !IsSha256(c.inputHash) || !env.timeOk(c.observedAt)
    then None else Some(c)
  }

  /** What the constructor guarantees of a completion handed to `bind_completion`. */
  predicate CompletionOk(env: Env, c: Completion) {
    && Trimmed(c.jobId) && Trimmed(c.companyId) && !c.stageId.OtherStage? && IsSha256(c.inputHash)
    && Trimmed(c.sessionRef) && Trimmed(c.providerId) && Trimmed(c.modelId) && Trimmed(c.operatorId)
    && env.timeOk(c.observedAt)
  }

  lemma PacketReload(env: Env, raw: Packet)
    ensures NewPacket(env, raw) == Some(raw) <==> PacketOk(env, raw)
  {
    StripTrims(raw.jobId); StripTrims(raw.companyId); StripTrims(raw.approvalId);
    StripTrims(raw.providerId); StripTrims(raw.modelId); StripTrims(raw.sessionRef);
    StripTrims(raw.template); StripTrims(raw.prompt);
    if PacketOk(env, raw) {
      DigestIsTrimmed(raw.planFingerprint); DigestIsTrimmed(raw.snapshotHash);
      DigestIsTrimmed(raw.evidenceHash); DigestIsTrimmed(raw.inputHash);
      if raw.previous.Some? {
        DigestIsTrimmed(raw.previous.value);
      }
    }
  }

  /** Construction returns only packets that reload unchanged. */
  lemma NewPacketOk(env: Env, raw: Packet)
    requires NewPacket(env, raw).Some?
    ensures PacketOk(env, NewPacket(env, raw).value)
  {
    StripTrims(raw.jobId); StripTrims(raw.companyId); StripTrims(raw.approvalId);
    StripTrims(raw.providerId); StripTrims(raw.modelId); StripTrims(raw.sessionRef);
    StripTrims(raw.template); StripTrims(raw.prompt);
  }

  lemma CompletionReload(env: Env, c: Completion)
    requires CompletionOk(env, c)
    ensures NewCompletion(env, c) == Some(c)
  {
    DigestIsTrimmed(c.inputHash);
  }

  // ---- Reading `details` ---------------------------------------------------------------------

  function TextAt(d: Details, f: Field): Option<string> {
    if f in d && d[f].StrV? && Strip(d[f].s) != "" then Some(d[f].s) else None
  }

  function StageTextAt(d: Details, f: Field): Option<Stage> {
    if f in d && d[f].StageV? && (d[f].stage.OtherStage? ==> Strip(d[f].stage.raw) != "") then Some(d[f].stage)
      else None
  }

  function DigestAt(d: Details, f: Field): Option<string> {
    if f in d && d[f].StrV? && IsSha256(Strip(d[f].s)) then Some(Strip(d[f].s)) else None
  }

  // ---- Replaying the events ---------------------------------------------------------------------

  datatype PacketEvent = PacketEvent(stageId: Stage, sequence: int, inputHash: string, position: int)
  datatype AcceptedEvent = AcceptedEvent(stageId: Stage, inputHash: string, completionHash: string, position: int)

  datatype View = View(
    packets: seq<PacketEvent>, accepted: seq<AcceptedEvent>,
    final: Option<(string, int)>, artifact: Option<(string, string, int)>)

  const EMPTY_VIEW := View([], [], None, None)

  // What each event type requires of its details, and what it contributes.

  function PacketDetail(d: Details): Option<(Stage, int, string)> {
    if && d.Keys == {FStageId, FSequence, FInputHash} && StageTextAt(d, FStageId).Some? && DigestAt(d, FInputHash).Some?
       && d[FSequence].IntV?
    then Some((StageTextAt(d, FStageId).value, d[FSequence].i, DigestAt(d, FInputHash).value))
    else None
  }

  function AcceptedDetail(d: Details): Option<(Stage, string, string)> {
    if && d.Keys == {FStageId, FInputHash, FCompletionHash}
       && StageTextAt(d, FStageId).Some? && DigestAt(d, FInputHash).Some? && DigestAt(d, FCompletionHash).Some?
    then Some((StageTextAt(d, FStageId).value, DigestAt(d, FInputHash).value, DigestAt(d, FCompletionHash).value))
    else None
  }

  const SUBMITTED_KEYS := {FStageId, FOutstanding, FSubmittedStage, FSubmittedHash, FOperator}

  predicate SubmissionFieldsOk(d: Details) {
    && StageTextAt(d, FStageId).Some? && DigestAt(d, FOutstanding).Some?
    && StageTextAt(d, FSubmittedStage).Some? && DigestAt(d, FSubmittedHash).Some?
    && TextAt(d, FOperator).Some?
  }

  predicate ResolvedOk(d: Details) {
    && d.Keys == {FOperator, FOutstanding, FReplacement, FMaxRetries}
    && TextAt(d, FOperator).Some? && DigestAt(d, FOutstanding).Some?
    && d[FReplacement] == BoolV(false) && d[FMaxRetries] == IntV(0)
  }

  predicate CancelOk(d: Details) {
    && d.Keys == {FOperator, FPriorStatus, FOutstanding, FLocalOnly, FUpstream}
    && TextAt(d, FOperator).Some? && DigestAt(d, FOutstanding).Some?
    && d[FPriorStatus] in {StatusV(AwaitingOperator), StatusV(RecoveryRequired)}
    && d[FLocalOnly] == BoolV(true) && d[FUpstream] == BoolV(false)
  }

  /** Events that are checked but leave the view alone. */
  predicate NeutralOk(e: EventType, d: Details) {
    match e
    case Submitted => d.Keys == SUBMITTED_KEYS && SubmissionFieldsOk(d)
    case Rejected => d.Keys == SUBMITTED_KEYS + {FReason} && SubmissionFieldsOk(d) && TextAt(d, FReason).Some?
    case RecoveryNeeded => d.Keys == {FOutstanding} && DigestAt(d, FOutstanding).Some?
    case RecoveryResolved => ResolvedOk(d)
    case CancelAsked => CancelOk(d)
    case _ => false
  }

  function FinalDetail(d: Details): Option<string> {
    if d.Keys == {FFinalHash} then DigestAt(d, FFinalHash) else None
  }

  function FrozenDetail(d: Details): Option<(string, string)> {
    if d.Keys == {FPath, FManifestHash} && TextAt(d, FPath).Some? && DigestAt(d, FManifestHash).Some?
    then Some((TextAt(d, FPath).value, DigestAt(d, FManifestHash).value))
    else None
  }

  /** One iteration of the event loop of `_validate_authenticated_materializations`. */
  function Replay1(v: View, position: int, e: EventBody): Option<View> {
    match e.eventType
    case PacketPrepared =>
      var n, f := |v.packets|, PacketDetail(e.details);
      if f.None? || f.value.1 != n || n >= STAGE_COUNT || f.value.0 != StageId(n) then None
      else Some(v.(packets := v.packets + [PacketEvent(StageId(n), n, f.value.2, position)]))
    case Accepted =>
      var n, f := |v.accepted|, AcceptedDetail(e.details);
      if f.None? || n >= |v.packets| || f.value.0 != v.packets[n].stageId || f.value.1 != v.packets[n].inputHash
        then None
      else Some(v.(accepted := v.accepted + [AcceptedEvent(f.value.0, f.value.1, f.value.2, position)]))
    case FinalQa =>
      var f := FinalDetail(e.details);
      if v.final.Some? || f.None? then None else Some(v.(final := Some((f.value, position))))
    case Frozen =>
      var f := FrozenDetail(e.details);
      if v.artifact.Some? || f.None? then None
      else Some(v.(artifact := Some((f.value.0, f.value.1, position))))
    case _ =>
      if NeutralOk(e.eventType, e.details) then Some(v) else None
  }

  /** The view after all events, or `None` as soon as one is refused. */
  function Replay(bodies: seq<EventBody>): Option<View> {
    if bodies == [] then Some(EMPTY_VIEW)
    else
      var n := |bodies| - 1;
      var v := Replay(bodies[..n]);
      if v.None? then None else Replay1(v.value, n, bodies[n])
  }

  /** Shape of every view that replay builds: stages in order, acceptances matched to packets in
      order, positions increasing and below the number of events. */
  predicate ViewShape(v: View, n: int) {
    && |v.accepted| <= |v.packets| <= STAGE_COUNT
    && (forall i :: 0 <= i < |v.packets| ==>
          v.packets[i].sequence == i && v.packets[i].stageId == StageId(i) && 0 <= v.packets[i].position < n)
    && (forall i :: 0 <= i < |v.accepted| ==>
          && v.accepted[i].stageId == v.packets[i].stageId && v.accepted[i].inputHash == v.packets[i].inputHash
          && 0 <= v.accepted[i].position < n)
    && (v.final.Some? ==> 0 <= v.final.value.1 < n)
    && (v.artifact.Some? ==> 0 <= v.artifact.value.2 < n)
  }

  lemma PacketShape(v: View, n: int, hash: string)
    requires 0 <= n && ViewShape(v, n) && |v.packets| < STAGE_COUNT
    ensures var m := |v.packets|; ViewShape(v.(packets := v.packets + [PacketEvent(StageId(m), m, hash, n)]), n + 1)
  {
    hide StageId;
  }

  lemma AcceptedShape(v: View, n: int, hash: string)
    requires 0 <= n && ViewShape(v, n) && |v.accepted| < |v.packets|
    ensures var p := v.packets[|v.accepted|];
            ViewShape(v.(accepted := v.accepted + [AcceptedEvent(p.stageId, p.inputHash, hash, n)]), n + 1)
  {
    hide StageId;
  }

  lemma Replay1Shape(v: View, n: int, e: EventBody)
    requires 0 <= n && ViewShape(v, n) && Replay1(v, n, e).Some?
    ensures ViewShape(Replay1(v, n, e).value, n + 1)
  {
    hide NeutralOk, FinalDetail, FrozenDetail, PacketDetail, AcceptedDetail, StageId;
    match e.eventType
    case PacketPrepared => PacketShape(v, n, PacketDetail(e.details).value.2);
    case Accepted => AcceptedShape(v, n, AcceptedDetail(e.details).value.2);
    case _ =>
  }

  lemma {:induction false} ReplayShape(bodies: seq<EventBody>)
    requires Replay(bodies).Some?
    ensures ViewShape(Replay(bodies).value, |bodies|)
    decreases |bodies|
  {
    if bodies != [] {
      var n := |bodies| - 1;
      ReplayShape(bodies[..n]);
      Replay1Shape(Replay(bodies[..n]).value, n, bodies[n]);
    }
  }

  function Bodies(events: seq<EventRow>): seq<EventBody>
    requires forall i :: 0 <= i < |events| ==> events[i].text.Canonical?
  {
    seq(|events|, i requires 0 <= i < |events| => events[i].text.value)
  }

  // ---- What the validator accepts ------------------------------------------------------------------

  /** Event row `i` is authentic: chained to row `i - 1`, hashed, authenticated, in agreement
      with the body it encodes. */
  predicate LinkOk(env: Env, key: Key, events: seq<EventRow>, i: int)
    requires 0 <= i < |events|
  {
    var row := events[i];
    && row.sequence == i
    && row.predecessor == (if i == 0 then None else Some(events[i - 1].hash))
    && row.text.Canonical?
    && var e := row.text.value;
       && e.companyId == key.companyId && e.jobId == key.jobId
       && e.sequence == i && e.predecessor == row.predecessor
       && e.eventType == row.eventType && e.recordedAt == row.recordedAt
       && row.hash == env.eventHash(e) && row.mac == env.eventMac(e)
  }

  predicate ChainOk(env: Env, key: Key, events: seq<EventRow>)
    ensures ChainOk(env, key, events) ==> forall i :: 0 <= i < |events| ==> events[i].text.Canonical?
  {
    assert forall i :: 0 <= i < |events| && LinkOk(env, key, events, i) ==> events[i].text.Canonical?;
    forall i :: 0 <= i < |events| ==> LinkOk(env, key, events, i)
  }

  predicate HeadOk(job: JobRow, events: seq<EventRow>) {
    && 0 < job.eventCount == |events|
    && job.headHash == Some(events[|events| - 1].hash)
    && job.headMac == Some(events[|events| - 1].mac)
  }

  /** Position checks after the event loop. */
  predicate OrderOk(v: View) {
    && v.packets != []
    && |v.accepted| <= |v.packets|
    && (forall i :: 0 <= i < |v.accepted| ==> v.packets[i].position < v.accepted[i].position)
    && (forall i, j :: 0 <= i < |v.accepted| && i + 1 == j < |v.packets| ==>
          v.accepted[i].position < v.packets[j].position)
    && (v.final.Some? ==>
          && |v.accepted| == STAGE_COUNT
          && v.final.value.0 == v.accepted[STAGE_COUNT - 1].inputHash
          && v.accepted[STAGE_COUNT - 1].position < v.final.value.1)
    && (v.artifact.Some? ==> v.final.Some? && v.final.value.1 < v.artifact.value.2)
  }

  predicate ContextOk(env: Env, job: JobRow) {
    && job.contextText.Canonical? && job.contextText.value.Obj?
    && env.contextHash(job.contextText.value) == job.snapshotHash
  }

  predicate PacketRowOk(env: Env, key: Key, job: JobRow, e: PacketEvent, row: PacketRow) {
    && row.stageId == e.stageId && row.sequence == e.sequence && row.inputHash == e.inputHash
    && row.text.Canonical?
    && var p := row.text.value;
       && PacketOk(env, p)
       && p.companyId == key.companyId && p.jobId == key.jobId
       && p.stageId == row.stageId && p.sequence == row.sequence && p.inputHash == row.inputHash
       && p.approvalId == job.approvalId && p.planFingerprint == job.planFingerprint
       && p.snapshotHash == job.snapshotHash && p.evidenceHash == job.evidenceHash
  }

  predicate PacketsOk(env: Env, key: Key, t: Tables, v: View) {
    && |t.packets| == |v.packets|
    && (forall i :: 0 <= i < |t.packets| ==> PacketRowOk(env, key, t.job, v.packets[i], t.packets[i]))
    && t.packets != []
    && t.job.packetText == t.packets[|t.packets| - 1].text
  }

  predicate CompletionRowOk(env: Env, key: Key, context: Json, p: Packet, e: AcceptedEvent, row: CompletionRow) {
    && row.hash == e.completionHash
    && row.text.Canonical?
    && env.completionHash(row.text.value) == row.hash
    && NewCompletion(env, row.text.value).Some?
    && var c := NewCompletion(env, row.text.value).value;
       && env.payloadCheck(p.stageId, c.payload) == Pass
       && (p.stageId == StageId(STAGE_COUNT - 1) ==> env.sourcesCheck(c.payload, context) == Pass)
       && c.companyId == key.companyId && c.jobId == key.jobId
       && c.stageId == p.stageId && c.inputHash == p.inputHash
       && c.sessionRef == p.sessionRef && c.providerId == p.providerId && c.modelId == p.modelId
  }

  /** Packet `i` has a completion, and it matches acceptance `i`. */
  predicate CompletionAt(env: Env, key: Key, t: Tables, accepted: seq<AcceptedEvent>, i: int)
    requires 0 <= i < |accepted|
  {
    && i < |t.packets|
    && t.packets[i].text.Canonical? && t.job.contextText.Canonical?
    && t.packets[i].inputHash in t.completions
    && CompletionRowOk(env, key, t.job.contextText.value, t.packets[i].text.value, accepted[i],
                       t.completions[t.packets[i].inputHash])
  }

  /** Exactly the first `|accepted|` packets have a completion, and each one checks. */
  predicate CompletionsOk(env: Env, key: Key, t: Tables, v: View) {
    && |t.completions| == |v.accepted|
    && forall i :: 0 <= i < |v.accepted| ==> CompletionAt(env, key, t, v.accepted, i)
  }

  /** Packet `i` names the accepted completion of packet `i - 1` as its predecessor. */
  predicate LinkedAt(t: Tables, accepted: seq<AcceptedEvent>, i: int)
    requires 1 <= i < |t.packets|
  {
    && i - 1 < |accepted|
    && t.packets[i].text.Canonical?
    && t.packets[i].text.value.previous == Some(accepted[i - 1].completionHash)
  }

  predicate LinksOk(t: Tables, v: View) {
    forall i :: 1 <= i < |t.packets| ==> LinkedAt(t, v.accepted, i)
  }

  predicate ArtifactOk(job: JobRow, v: View) {
    if v.artifact.None? then job.artifactPath.None? && job.artifactHash.None?
    else job.artifactPath == Some(v.artifact.value.0) && job.artifactHash == Some(v.artifact.value.1)
  }

  /** The status that the last event of an accepted ledger implies. */
  function StatusAfter(e: EventType): Option<Status> {
    match e
    case PacketPrepared => Some(AwaitingOperator)
    case Rejected => Some(AwaitingOperator)
    case RecoveryResolved => Some(AwaitingOperator)
    case RecoveryNeeded => Some(RecoveryRequired)
    case CancelAsked => Some(CancelRequested)
    case FinalQa => Some(FinalQaReady)
    case Frozen => Some(ArtifactFrozen)
    case _ => None
  }

  /** The materialized tables agree with the view replayed from the events. */
  predicate MaterializedOk(env: Env, key: Key, t: Tables, v: View) {
    && ContextOk(env, t.job) && OrderOk(v) && PacketsOk(env, key, t, v)
    && CompletionsOk(env, key, t, v) && LinksOk(t, v) && ArtifactOk(t.job, v)
  }

  /** Exactly the tables on which `_validated_status_projection` returns, not raises. */
  predicate Accepts(env: Env, key: Key, t: Tables) {
    && HeadOk(t.job, t.events)
    && ChainOk(env, key, t.events)
    && Replay(Bodies(t.events)).Some?
    && MaterializedOk(env, key, t, Replay(Bodies(t.events)).value)
    && StatusAfter(t.events[|t.events| - 1].eventType) == Some(t.job.status)
  }

  /** What the declared UNIQUE and FOREIGN KEY constraints give for one job's rows. */
  predicate SchemaOk(t: Tables) {
    && (forall i, j :: 0 <= i < j < |t.packets| ==> t.packets[i].inputHash != t.packets[j].inputHash)
    && (forall h :: h in t.completions ==> exists i :: 0 <= i < |t.packets| && t.packets[i].inputHash == h)
    && (t.job.artifactPath.None? <==> t.job.artifactHash.None?)
  }
}
