/**
 What the events of an accepted ledger say: the fields each type of event must have, which event may
 come next in a replay, and how the events name the packets, completions and columns of the job.
 */
module LedgerEvents {
  import opened Texts
  import opened LedgerModel
  import opened LedgerAgreement
  import opened LedgerTheorems

  // ---- Forms --------------------------------------------------------------------------------------------------------

  /** What a field of an event may hold. */
  datatype Kind = AStage | AText | ADigest | ANumber | APriorStatus | Exactly(value: Detail)

  predicate Fits(k: Kind, v: Detail) {
    match k
    case AStage => v.StageV? && (v.stage.OtherStage? ==> Strip(v.stage.raw) != "")
    case AText => v.StrV? && Strip(v.s) != ""
    case ADigest => v.StrV? && IsSha256(Strip(v.s))
    case ANumber => v.IntV?
    case APriorStatus => v == StatusV(AwaitingOperator) || v == StatusV(RecoveryRequired)
    case Exactly(x) => v == x
  }

  /** The fields of each type of event; events of other types have no form. */
  function Form(e: EventType): Option<map<Field, Kind>> {
    match e
    case PacketPrepared => Some(map[FStageId := AStage, FSequence := ANumber, FInputHash := ADigest])
    case Accepted => Some(map[FStageId := AStage, FInputHash := ADigest, FCompletionHash := ADigest])
    case Submitted =>
      Some(map[FStageId := AStage, FOutstanding := ADigest, FSubmittedStage := AStage, FSubmittedHash := ADigest,
               FOperator := AText])
    case Rejected =>
      Some(map[FStageId := AStage, FOutstanding := ADigest, FSubmittedStage := AStage, FSubmittedHash := ADigest,
               FOperator := AText, FReason := AText])
    case RecoveryNeeded => Some(map[FOutstanding := ADigest])
    case RecoveryResolved =>
      Some(map[FOperator := AText, FOutstanding := ADigest, FReplacement := Exactly(BoolV(false)),
               FMaxRetries := Exactly(IntV(0))])
    case CancelAsked =>
      Some(map[FOperator := AText, FPriorStatus := APriorStatus, FOutstanding := ADigest,
               FLocalOnly := Exactly(BoolV(true)), FUpstream := Exactly(BoolV(false))])
    case FinalQa => Some(map[FFinalHash := ADigest])
    case Frozen => Some(map[FPath := AText, FManifestHash := ADigest])
    case UnknownEvent(_) => None
  }

  /** The event has exactly the fields of its form, each of its kind. */
  predicate HasForm(e: EventType, d: Details) {
    && Form(e).Some? && d.Keys == Form(e).value.Keys
    && forall f :: f in d ==> Fits(Form(e).value[f], d[f])
  }

  /** The text of a digest field, trimmed. */
  function DigestOf(d: Details, f: Field): string
    requires f in d && d[f].StrV?
  {
    Strip(d[f].s)
  }

  lemma RecordForms(d: Details)
    ensures PacketDetail(d).Some? <==> HasForm(PacketPrepared, d)
    ensures AcceptedDetail(d).Some? <==> HasForm(Accepted, d)
    ensures FinalDetail(d).Some? <==> HasForm(FinalQa, d)
    ensures FrozenDetail(d).Some? <==> HasForm(Frozen, d)
  {
    hide Strip, IsSha256;
    FieldsOf(PacketPrepared);
    FieldsOf(Accepted);
    FieldsOf(FinalQa);
    FieldsOf(Frozen);
  }

  /** The fields of the forms that replay reads. */
  lemma FieldsOf(e: EventType)
    ensures e.PacketPrepared? ==> Form(e).value.Keys == {FStageId, FSequence, FInputHash}
    ensures e.Accepted? ==> Form(e).value.Keys == {FStageId, FInputHash, FCompletionHash}
    ensures e.FinalQa? ==> Form(e).value.Keys == {FFinalHash}
    ensures e.Frozen? ==> Form(e).value.Keys == {FPath, FManifestHash}
  {
  }

  lemma SubmissionForms(e: EventType, d: Details)
    requires e.Submitted? || e.Rejected?
    ensures NeutralOk(e, d) <==> HasForm(e, d)
  {
    hide Strip, IsSha256;
  }

  lemma NeutralForms(e: EventType, d: Details)
    requires !e.PacketPrepared? && !e.Accepted? && !e.FinalQa? && !e.Frozen?
    ensures NeutralOk(e, d) <==> HasForm(e, d)
  {
    if e.Submitted? || e.Rejected? {
      SubmissionForms(e, d);
    } else {
      hide Strip, IsSha256, SubmissionFieldsOk, StageTextAt;
    }
  }

  // ---- Replay -------------------------------------------------------------------------------------------------------

  /** Which event may come next: it has its form, a packet is the next stage, an acceptance is that of the
      first packet without one, and final QA and the artifact come once. */
  predicate MayFollow(v: View, e: EventBody) {
    && HasForm(e.eventType, e.details)
    && (e.eventType.PacketPrepared? ==>
          && |v.packets| < 4 && e.details[FStageId] == StageV([Outline, Draft, Critic, Revision][|v.packets|])
          && e.details[FSequence] == IntV(|v.packets|))
    && (e.eventType.Accepted? ==>
          && |v.accepted| < |v.packets| && e.details[FStageId] == StageV(v.packets[|v.accepted|].stageId)
          && DigestOf(e.details, FInputHash) == v.packets[|v.accepted|].inputHash)
    && (e.eventType.FinalQa? ==> v.final.None?)
    && (e.eventType.Frozen? ==> v.artifact.None?)
  }

  /** The view after one more event. */
  function Recorded(v: View, position: int, e: EventBody): View
    requires HasForm(e.eventType, e.details) && (e.eventType.PacketPrepared? ==> 0 <= |v.packets| < 4)
  {
    var d := e.details;
    match e.eventType
    case PacketPrepared =>
      v.(packets := v.packets + [PacketEvent([Outline, Draft, Critic, Revision][|v.packets|], |v.packets|,
                                             DigestOf(d, FInputHash), position)])
    case Accepted =>
      v.(accepted := v.accepted + [AcceptedEvent(d[FStageId].stage, DigestOf(d, FInputHash),
                                                 DigestOf(d, FCompletionHash), position)])
    case FinalQa => v.(final := Some((DigestOf(d, FFinalHash), position)))
    case Frozen => v.(artifact := Some((d[FPath].s, DigestOf(d, FManifestHash), position)))
    case _ => v
  }

  /** Replay refuses an event exactly if it may not come next, and otherwise records it. */
  lemma ReplayDecided(v: View, position: int, e: EventBody)
    ensures Replay1(v, position, e) == if MayFollow(v, e) then Some(Recorded(v, position, e)) else None
  {
    hide Strip, IsSha256, Form, NeutralOk;
    RecordForms(e.details);
    FieldsOf(e.eventType);
    FormFields(e.eventType, e.details);
    match e.eventType
    case PacketPrepared =>
    case Accepted =>
    case FinalQa =>
    case Frozen =>
    case _ => NeutralForms(e.eventType, e.details);
  }

  /** The kinds of the fields that replay reads. */
  lemma FormFields(e: EventType, d: Details)
    ensures e.PacketPrepared? && HasForm(e, d) ==>
      Fits(AStage, d[FStageId]) && Fits(ANumber, d[FSequence]) && Fits(ADigest, d[FInputHash])
    ensures e.Accepted? && HasForm(e, d) ==>
      Fits(AStage, d[FStageId]) && Fits(ADigest, d[FInputHash]) && Fits(ADigest, d[FCompletionHash])
    ensures e.FinalQa? && HasForm(e, d) ==> Fits(ADigest, d[FFinalHash])
    ensures e.Frozen? && HasForm(e, d) ==> Fits(AText, d[FPath]) && Fits(ADigest, d[FManifestHash])
  {
    hide Fits;
  }

  // ---- Accepted ledgers ---------------------------------------------------------------------------------------------

  /** Number of events of one type. */
  function Earlier(bodies: seq<EventBody>, e: EventType): nat {
    if bodies == [] then 0
    else Earlier(bodies[..|bodies| - 1], e) + if bodies[|bodies| - 1].eventType == e then 1 else 0
  }

  /** Event `n` is what the view has recorded at its position. */
  ghost predicate ToldBy(v: View, bodies: seq<EventBody>, n: nat)
    requires n < |bodies|
  {
    var e := bodies[n];
    && HasForm(e.eventType, e.details)
    && (e.eventType.PacketPrepared? ==>
          var i := Earlier(bodies[..n], PacketPrepared);
          && i < |v.packets| && v.packets[i].position == n
          && e.details[FStageId] == StageV(v.packets[i].stageId) && e.details[FSequence] == IntV(v.packets[i].sequence)
          && DigestOf(e.details, FInputHash) == v.packets[i].inputHash)
    && (e.eventType.Accepted? ==>
          var i := Earlier(bodies[..n], Accepted);
          && i < |v.accepted| && v.accepted[i].position == n
          && e.details[FStageId] == StageV(v.accepted[i].stageId)
          && DigestOf(e.details, FInputHash) == v.accepted[i].inputHash
          && DigestOf(e.details, FCompletionHash) == v.accepted[i].completionHash)
    && (e.eventType.FinalQa? ==> v.final == Some((DigestOf(e.details, FFinalHash), n)))
    && (e.eventType.Frozen? ==> v.artifact == Some((e.details[FPath].s, DigestOf(e.details, FManifestHash), n)))
  }

  /** A view only grows. */
  ghost predicate ViewGrows(v: View, w: View) {
    && v.packets <= w.packets && v.accepted <= w.accepted
    && (v.final.Some? ==> w.final == v.final) && (v.artifact.Some? ==> w.artifact == v.artifact)
  }

  lemma ToldStays(v: View, w: View, bodies: seq<EventBody>, more: seq<EventBody>, n: nat)
    requires n < |bodies| && bodies <= more && ToldBy(v, bodies, n) && ViewGrows(v, w)
    ensures ToldBy(w, more, n)
  {
    hide HasForm, Earlier, Strip;
    assert more[..n] == bodies[..n] && more[n] == bodies[n];
  }

  lemma RecordTold(v: View, bodies: seq<EventBody>)
    requires bodies != [] && MayFollow(v, bodies[|bodies| - 1])
    requires |v.packets| == Earlier(bodies[..|bodies| - 1], PacketPrepared)
    requires |v.accepted| == Earlier(bodies[..|bodies| - 1], Accepted)
    ensures var n := |bodies| - 1;
      var w := Recorded(v, n, bodies[n]);
      && ToldBy(w, bodies, n) && ViewGrows(v, w)
      && |w.packets| == Earlier(bodies, PacketPrepared) && |w.accepted| == Earlier(bodies, Accepted)
  {
    hide Strip, IsSha256, Form, HasForm;
    var e := bodies[|bodies| - 1];
    FieldsOf(e.eventType);
    FormKeys(e.eventType, e.details);
    FormFields(e.eventType, e.details);
  }

  lemma FormKeys(e: EventType, d: Details)
    ensures HasForm(e, d) ==> d.Keys == Form(e).value.Keys
  {
  }

  /** Every event of a replayed history has its form and is recorded in the view. */
  lemma {:induction false} HistoryTold(bodies: seq<EventBody>)
    requires Replay(bodies).Some?
    ensures var v := Replay(bodies).value;
      && |v.packets| == Earlier(bodies, PacketPrepared) && |v.accepted| == Earlier(bodies, Accepted)
      && forall n :: 0 <= n < |bodies| ==> ToldBy(v, bodies, n)
    decreases |bodies|
  {
    hide Replay1, MayFollow, Recorded, ToldBy, ViewGrows;
    if bodies != [] {
      var m := |bodies| - 1;
      HistoryTold(bodies[..m]);
      var v := Replay(bodies[..m]).value;
      ReplayDecided(v, m, bodies[m]);
      RecordTold(v, bodies);
      forall n | 0 <= n < m ensures ToldBy(Replay(bodies).value, bodies, n) {
        ToldStays(v, Replay(bodies).value, bodies[..m], bodies, n);
      }
    }
  }

  lemma {:induction false} SameCounts(events: seq<EventRow>, bodies: seq<EventBody>, e: EventType)
    requires |bodies| == |events| && forall i :: 0 <= i < |events| ==> bodies[i].eventType == events[i].eventType
    ensures CountOf(events, e) == Earlier(bodies, e)
    decreases |events|
  {
    if events != [] {
      SameCounts(events[..|events| - 1], bodies[..|bodies| - 1], e);
    }
  }

  /** The tables are what the view has recorded. */
  ghost predicate TablesTold(t: Tables, v: View) {
    && |v.accepted| <= |v.packets| == |t.packets| <= 4
    && (forall i :: 0 <= i < |v.packets| ==>
          && v.packets[i].stageId == StageId(i) && v.packets[i].sequence == i
          && t.packets[i].inputHash == v.packets[i].inputHash)
    && (forall i :: 0 <= i < |v.accepted| ==>
          && v.accepted[i].stageId == StageId(i) && v.accepted[i].inputHash == t.packets[i].inputHash
          && t.packets[i].inputHash in t.completions
          && t.completions[t.packets[i].inputHash].hash == v.accepted[i].completionHash)
    && (v.final.Some? ==> |t.packets| == 4 && v.final.value.0 == t.packets[3].inputHash)
    && (v.artifact.Some? ==>
          t.job.artifactPath == Some(v.artifact.value.0) && t.job.artifactHash == Some(v.artifact.value.1))
  }

  lemma TablesAreTold(env: Env, key: Key, t: Tables)
    requires Accepts(env, key, t)
    ensures TablesTold(t, ViewOf(env, key, t))
  {
    hide Replay, ChainOk, PacketOk, ContextOk, LinksOk, CompletionRowOk, StageId, StatusAfter, HeadOk;
    AcceptedIsLogged(env, key, t);
    var v := ViewOf(env, key, t);
    forall i | 0 <= i < |v.packets| ensures t.packets[i].inputHash == v.packets[i].inputHash {
      assert PacketRowOk(env, key, t.job, v.packets[i], t.packets[i]);
    }
    forall i | 0 <= i < |v.accepted|
      ensures
        && t.packets[i].inputHash in t.completions
        && t.completions[t.packets[i].inputHash].hash == v.accepted[i].completionHash
    {
      assert CompletionAt(env, key, t, v.accepted, i);
      AcceptedHash(env, key, t, v, i);
    }
  }

  lemma AcceptedHash(env: Env, key: Key, t: Tables, v: View, i: nat)
    requires i < |v.accepted| && CompletionAt(env, key, t, v.accepted, i)
    ensures t.completions[t.packets[i].inputHash].hash == v.accepted[i].completionHash
  {
  }

  /** An event of this type, with so many of its type before it, is what the tables of the job hold: the
      packet of its place, the completion of its place, the last packet, or the columns of the artifact. */
  ghost predicate Placed(t: Tables, e: EventBody, i: nat) {
    && HasForm(e.eventType, e.details)
    && (e.eventType.PacketPrepared? || e.eventType.Accepted? ==>
          && i < |t.packets| <= 4 && e.details[FStageId] == StageV([Outline, Draft, Critic, Revision][i])
          && DigestOf(e.details, FInputHash) == t.packets[i].inputHash)
    && (e.eventType.PacketPrepared? ==> e.details[FSequence] == IntV(i))
    && (e.eventType.Accepted? ==>
          && t.packets[i].inputHash in t.completions
          && DigestOf(e.details, FCompletionHash) == t.completions[t.packets[i].inputHash].hash)
    && (e.eventType.FinalQa? ==> |t.packets| == 4 && DigestOf(e.details, FFinalHash) == t.packets[3].inputHash)
    && (e.eventType.Frozen? ==>
          && t.job.artifactPath == Some(e.details[FPath].s)
          && t.job.artifactHash == Some(DigestOf(e.details, FManifestHash)))
  }

  lemma ToldIsPlaced(t: Tables, v: View, bodies: seq<EventBody>, n: nat)
    requires n < |bodies| && TablesTold(t, v) && ToldBy(v, bodies, n)
    ensures Placed(t, bodies[n], Earlier(bodies[..n], bodies[n].eventType))
  {
    hide Strip, IsSha256, Form, HasForm, Earlier;
  }

  /** Every event of an accepted ledger has its form, and the tables are what the events say: the packets
      are the prepared ones in order, a completion is stored for every acceptance, under the packet and
      with the hash it names, and the columns of the artifact are those of the freezing event. */
  lemma EventsTell(env: Env, key: Key, t: Tables, n: nat)
    requires Accepts(env, key, t) && n < |t.events|
    ensures var row := t.events[n];
      && row.text.Canonical? && row.text.value.eventType == row.eventType
      && Placed(t, row.text.value, CountOf(t.events[..n], row.eventType))
  {
    hide Replay, LinkOk, MaterializedOk, TablesTold, ToldBy, Placed, Earlier, CountOf, StatusAfter;
    TablesAreTold(env, key, t);
    var bodies := Bodies(t.events);
    HistoryTold(bodies);
    Typed(env, key, t.events);
    SameCounts(t.events[..n], bodies[..n], t.events[n].eventType);
    ToldIsPlaced(t, ViewOf(env, key, t), bodies, n);
  }

  /** The last event of an accepted ledger tells its status. A job is never ready without a packet, and
      no history ends in a submission or an acceptance. */
  lemma StatusTells(env: Env, key: Key, t: Tables)
    requires Accepts(env, key, t)
    ensures t.events != []
    ensures (t.events[|t.events| - 1].eventType, t.job.status) in {
      (PacketPrepared, AwaitingOperator), (Rejected, AwaitingOperator), (RecoveryResolved, AwaitingOperator),
      (RecoveryNeeded, RecoveryRequired), (CancelAsked, CancelRequested), (FinalQa, FinalQaReady),
      (Frozen, ArtifactFrozen)}
  {
    hide Replay, ChainOk, MaterializedOk;
  }

  lemma Typed(env: Env, key: Key, events: seq<EventRow>)
    requires ChainOk(env, key, events)
    ensures forall i :: 0 <= i < |events| ==> events[i].text.value.eventType == events[i].eventType
  {
    forall i | 0 <= i < |events| ensures events[i].text.value.eventType == events[i].eventType {
      assert LinkOk(env, key, events, i);
    }
  }
}
