/**
 Which outcome each call has on a ledger that the operations built: an admitted completion always
 advances the pipeline, a constraint aborts a writer only where rows of the job collide, and a
 repeated recovery is answered with an integrity error exactly when an earlier stage was the one
 recovered. Nothing is assumed of the hashes.
 */
module LedgerOutcomes {
  import opened Texts
  import opened JsonValue
  import opened LedgerModel
  import opened LedgerSteps
  import opened LedgerAgreement
  import opened LedgerHistory

  // ---- Collisions among one job's rows ------------------------------------------------------------------------------

  /** The event bodies that appending these drafts in turn would store, from this count and head. */
  function Drafted(env: Env, key: Key, job: JobRow, clock: Clock, ds: seq<EventDraft>): seq<EventBody>
    decreases |ds|
  {
    if ds == [] then []
    else
      var e := BodyOf(key, job, clock, ds[0]);
      [e] + Drafted(env, key, job.(eventCount := job.eventCount + 1, headHash := Some(env.eventHash(e))), clock,
                    ds[1..])
  }

  /** Of the events that the job has and those that the call would append, two different ones have
      one hash. */
  ghost predicate EventsCollide(env: Env, key: Key, t: Tables, clock: Clock, ds: seq<EventDraft>) {
    && ChainOk(env, key, t.events)
    && var all := Bodies(t.events) + Drafted(env, key, t.job, clock, ds);
       exists i, j :: 0 <= i < j < |all| && all[i] != all[j] && env.eventHash(all[i]) == env.eventHash(all[j])
  }

  /** A stored packet of the job and a different new one have one hash. */
  ghost predicate PacketCollides(env: Env, t: Tables, next: Packet) {
    exists i :: && 0 <= i < |t.packets| && t.packets[i].text.Canonical?
                && Identity(t.packets[i].text.value) != Identity(next)
                && env.packetHash(Identity(t.packets[i].text.value)) == env.packetHash(Identity(next))
  }

  /** The packet that an admitted completion of this packet leads to, if there is one. */
  function NextOf(env: Env, p: Packet, c: Completion): Option<Packet> {
    if 0 <= p.sequence < STAGE_COUNT - 1 then NextPacket(env, p, env.completionHash(c), c.payload) else None
  }

  /** The events that a submission appends. */
  function SubmissionDrafts(env: Env, p: Packet, c: Completion, context: Json): seq<EventDraft> {
    match Judge(env, p, c, context)
    case Reject(r) => [SubmittedDraft(p, c), RejectedDraft(p, c, ReasonText(r))]
    case Fault => [SubmittedDraft(p, c)]
    case Admit =>
      [SubmittedDraft(p, c), AcceptedDraft(c, env.completionHash(c)),
       if NextOf(env, p, c).Some? then PreparedDraft(NextOf(env, p, c).value) else FinalDraft(c.inputHash)]
  }

  /** The events that any other call appends. */
  function CallDrafts(env: Env, t: Tables, op: Op): seq<EventDraft>
    requires t.job.packetText.Canonical?
  {
    var h := t.job.packetText.value.inputHash;
    match op
    case OpArtifact(_, _, path, hash, _) =>
      var b := NewBinding(env, path, hash);
      if b.Some? then [FrozenDraft(b.value.0, b.value.1)] else []
    case OpRecovery(_, _, _) => [RecoveryDraft(h)]
    case OpResolve(_, _, expected, operatorId, _) => [ResolvedDraft(Strip(operatorId), Strip(expected))]
    case OpCancel(_, _, operatorId, _) => [CancelDraft(Strip(operatorId), t.job.status, h)]
    case _ => []
  }

  /** Rows of this job and the rows that this call adds to them exhibit a hash collision. */
  ghost predicate Collides(env: Env, t: Tables, op: Op) {
    && t.job.packetText.Canonical? && t.job.contextText.Canonical?
    && var p := t.job.packetText.value;
       if op.OpBind? then
         var c := op.completion;
         || EventsCollide(env, Target(op), t, op.clock, SubmissionDrafts(env, p, c, t.job.contextText.value))
         || (NextOf(env, p, c).Some? && PacketCollides(env, t, NextOf(env, p, c).value))
       else EventsCollide(env, Target(op), t, op.clock, CallDrafts(env, t, op))
  }

  /** Prompt headings start, and instruction texts start and end, with visible characters. */
  ghost predicate TextsOk(env: Env) {
    && (forall s: Stage :: env.heading(s) != "" && !IsSpace(env.heading(s)[0]))
    && (forall c: Json :: Trimmed(env.instructions(c)))
  }

  // ---- Constraints abort only on a collision ------------------------------------------------------------------------

  /** What the append lemmas need of an accepted job. */
  ghost predicate Chained(env: Env, key: Key, t: Tables) {
    && ChainOk(env, key, t.events) && t.job.eventCount == |t.events| > 0
    && t.job.headHash == Some(t.events[|t.events| - 1].hash)
  }

  lemma AcceptedIsChained(env: Env, key: Key, t: Tables)
    requires Accepts(env, key, t)
    ensures Chained(env, key, t)
  {
  }

  /** Drafted bodies depend on the count and the head alone. */
  lemma {:induction false} DraftedSame(env: Env, key: Key, a: JobRow, b: JobRow, clock: Clock, ds: seq<EventDraft>)
    requires a.eventCount == b.eventCount && a.headHash == b.headHash
    ensures Drafted(env, key, a, clock, ds) == Drafted(env, key, b, clock, ds)
    decreases |ds|
  {
    if ds != [] {
      var e := BodyOf(key, a, clock, ds[0]);
      DraftedSame(env, key, a.(eventCount := a.eventCount + 1, headHash := Some(env.eventHash(e))),
                  b.(eventCount := b.eventCount + 1, headHash := Some(env.eventHash(e))), clock, ds[1..]);
    }
  }

  /** Appending works unless two of the events collide, and leaves the rest of the call to do. `u`
      is `t` with columns changed that no event depends on. */
  lemma AppendWorks(env: Env, key: Key, t: Tables, u: Tables, clock: Clock, d: EventDraft, ds: seq<EventDraft>)
    requires Chained(env, key, t) && !EventsCollide(env, key, t, clock, [d] + ds)
    requires u.events == t.events && u.job.eventCount == t.job.eventCount && u.job.headHash == t.job.headHash
    ensures TryAppend(env, key, u, clock, d) == Some(Appended(env, key, u, clock, d))
    ensures Chained(env, key, Appended(env, key, u, clock, d))
    ensures !EventsCollide(env, key, Appended(env, key, u, clock, d), clock, ds)
  {
    hide ReplayedResolution, Accepts;
    var e, v := BodyOf(key, u.job, clock, d), Appended(env, key, u, clock, d);
    var old_, rest := Bodies(t.events), Drafted(env, key, v.job, clock, ds);
    ChainAppend(env, key, t.events, e);
    assert ([d] + ds)[1..] == ds;
    DraftedSame(env, key, v.job, t.job.(eventCount := t.job.eventCount + 1, headHash := Some(env.eventHash(e))),
                clock, ds);
    assert Drafted(env, key, t.job, clock, [d] + ds) == [e] + rest;
    var all := old_ + ([e] + rest);
    assert Bodies(v.events) + rest == all;
    forall i | 0 <= i < |t.events|
      ensures t.events[i].hash != env.eventHash(e) && t.events[i].sequence != u.job.eventCount
    {
      assert LinkOk(env, key, t.events, i);
      assert all[i] == t.events[i].text.value && all[|t.events|] == e;
    }
  }

  lemma RejectWorks(env: Env, key: Key, t: Tables, p: Packet, c: Completion, reason: Reason, clock: Clock)
    requires Chained(env, key, t)
    requires !EventsCollide(env, key, t, clock, [SubmittedDraft(p, c), RejectedDraft(p, c, ReasonText(reason))])
    ensures RejectSteps(env, key, t, p, c, reason, clock).Some?
  {
    hide EventsCollide, EventUnused, ChainOk;
    var d1, d2 := SubmittedDraft(p, c), RejectedDraft(p, c, ReasonText(reason));
    assert [d1] + [d2] == [d1, d2] && [d2] + [] == [d2];
    AppendWorks(env, key, t, t, clock, d1, [d2]);
    var t1 := Appended(env, key, t, clock, d1);
    AppendWorks(env, key, t1, t1, clock, d2, []);
  }

  lemma AcceptWorks(env: Env, key: Key, t: Tables, p: Packet, c: Completion, clock: Clock, ds: seq<EventDraft>)
    requires Chained(env, key, t)
    requires !EventsCollide(env, key, t, clock, [SubmittedDraft(p, c), AcceptedDraft(c, env.completionHash(c))] + ds)
    requires c.inputHash !in t.completions && t.packets != [] && t.packets[|t.packets| - 1].inputHash == c.inputHash
    ensures AcceptSteps(env, key, t, p, c, clock).Some?
    ensures var t1 := AcceptSteps(env, key, t, p, c, clock).value;
            Chained(env, key, t1) && t1.packets == t.packets && !EventsCollide(env, key, t1, clock, ds)
  {
    hide EventsCollide, EventUnused, ChainOk;
    var d1, d2 := SubmittedDraft(p, c), AcceptedDraft(c, env.completionHash(c));
    assert [d1, d2] + ds == [d1] + ([d2] + ds);
    AppendWorks(env, key, t, t, clock, d1, [d2] + ds);
    var t1 := Appended(env, key, t, clock, d1);
    var t2 := t1.(completions := t1.completions[c.inputHash := CompletionRow(env.completionHash(c), Canonical(c))]);
    AppendWorks(env, key, t1, t2, clock, d2, ds);
  }

  lemma FinalWorks(env: Env, key: Key, t: Tables, p: Packet, c: Completion, clock: Clock)
    requires Chained(env, key, t)
    requires !EventsCollide(env, key, t, clock,
                            [SubmittedDraft(p, c), AcceptedDraft(c, env.completionHash(c))] + [FinalDraft(c.inputHash)])
    requires c.inputHash !in t.completions && t.packets != [] && t.packets[|t.packets| - 1].inputHash == c.inputHash
    ensures FinalSteps(env, key, t, p, c, clock).Some?
  {
    hide EventsCollide, EventUnused, ChainOk, AcceptSteps;
    AcceptWorks(env, key, t, p, c, clock, [FinalDraft(c.inputHash)]);
    var t1 := AcceptSteps(env, key, t, p, c, clock).value;
    assert [FinalDraft(c.inputHash)] + [] == [FinalDraft(c.inputHash)];
    AppendWorks(env, key, t1, WithStatus(t1, FinalQaReady), clock, FinalDraft(c.inputHash), []);
  }

  /** A packet of the next stage violates no constraint of the packet table unless its hash collides
      with that of a stored one. */
  lemma PacketIsNew(env: Env, key: Key, t: Tables, next: Packet)
    requires Accepts(env, key, t) && PacketOk(env, next) && next.sequence == |t.packets| < STAGE_COUNT
    ensures PacketCollides(env, t, next)
      || TryInsertPacket(t, next) == Some(t.(packets := t.packets + [PacketRowFor(next)]))
  {
    hide CompletionsOk, LinksOk, ContextOk, OrderOk, ChainOk, Replay, ArtifactOk;
    AcceptedIsLogged(env, key, t);
    var v := ViewOf(env, key, t);
    if !PacketCollides(env, t, next) {
      forall i | 0 <= i < |t.packets|
        ensures t.packets[i].inputHash != next.inputHash && t.packets[i].sequence != next.sequence
      {
        assert PacketRowOk(env, key, t.job, v.packets[i], t.packets[i]);
        var p := t.packets[i].text.value;
        assert Identity(p).sequence == i && Identity(next).sequence == next.sequence;
      }
    }
  }

  lemma AdvanceWorks(env: Env, key: Key, t: Tables, c: Completion, next: Packet, clock: Clock)
    requires Accepts(env, key, t) && !PacketCollides(env, t, next)
    requires
      && t.job.packetText.Canonical? && t.job.packetText.value.inputHash == c.inputHash && c.inputHash !in t.completions
    requires PacketOk(env, next) && next.sequence == |t.packets| < STAGE_COUNT
    requires !EventsCollide(env, key, t, clock,
                            [SubmittedDraft(t.job.packetText.value, c),
                             AcceptedDraft(c, env.completionHash(c))] + [PreparedDraft(next)])
    ensures AdvanceSteps(env, key, t, t.job.packetText.value, c, next, clock).Some?
  {
    hide EventsCollide, PacketCollides, EventUnused, ChainOk, AcceptSteps, PacketOk, Accepts;
    var p := t.job.packetText.value;
    HeadPacket(env, key, t);
    AcceptedIsChained(env, key, t);
    AcceptWorks(env, key, t, p, c, clock, [PreparedDraft(next)]);
    AcceptAppends(env, key, t, p, c, clock);
    var t1 := AcceptSteps(env, key, t, p, c, clock).value;
    PacketIsNew(env, key, t, next);
    var t2 := t1.(packets := t1.packets + [PacketRowFor(next)]);
    assert [PreparedDraft(next)] + [] == [PreparedDraft(next)];
    AppendWorks(env, key, t1, t2, clock, PreparedDraft(next), []);
    HeadMoves(Appended(env, key, t2, clock, PreparedDraft(next)), p, next, |t.packets| - 1);
  }

  /** A call that appends one event. */
  lemma SingleWorks(env: Env, key: Key, t: Tables, u: Tables, clock: Clock, d: EventDraft)
    requires Accepts(env, key, t) && !EventsCollide(env, key, t, clock, [d])
    requires u.events == t.events && u.job.eventCount == t.job.eventCount && u.job.headHash == t.job.headHash
    ensures TryAppend(env, key, u, clock, d).Some?
  {
    hide EventsCollide, EventUnused, ChainOk, Accepts;
    AcceptedIsChained(env, key, t);
    assert [d] + [] == [d];
    AppendWorks(env, key, t, u, clock, d, []);
  }

  lemma FreezeWorks(env: Env, key: Key, t: Tables, path: string, hash: string, clock: Clock)
    requires
      && Accepts(env, key, t) && !EventsCollide(env, key, t, clock, [FrozenDraft(path, hash)])
      && t.job.status == FinalQaReady
    ensures FreezeSteps(env, key, t, path, hash, clock).Some?
  {
    hide EventsCollide, EventUnused, ChainOk, CompletionsOk, LinksOk, PacketsOk, ContextOk, Replay;
    AcceptedIsLogged(env, key, t);
    FinalRecorded(env, key, t, ViewOf(env, key, t));
    SingleWorks(env, key, t, TryBindArtifact(t, path, hash).value, clock, FrozenDraft(path, hash));
  }

  // ---- Prompts ------------------------------------------------------------------------------------------------------

  /** The prompt opens with the heading of its stage and goes on after it. */
  predicate Headed(env: Env, p: Packet) {
    env.heading(p.stageId) <= p.prompt && |env.heading(p.stageId)| < |p.prompt|
  }

  /** `_next_packet` never raises on a headed packet, and returns a headed packet. */
  lemma NextPacketExists(env: Env, p: Packet, hash: string, payload: Json)
    requires TextsOk(env) && PacketOk(env, p) && Headed(env, p) && 0 <= p.sequence < STAGE_COUNT - 1 && IsSha256(hash)
    ensures NextPacket(env, p, hash, payload).Some? && Headed(env, NextPacket(env, p, hash, payload).value)
    ensures NextPacket(env, p, hash, payload).value.prompt
         == env.heading(StageId(p.sequence + 1)) + (env.history(p.stageId, hash,
                                                                payload) + p.prompt[|env.heading(p.stageId)|..])
  {
    hide IsSpace, IsSha256, NewPacket;
    var heading, stage := env.heading(p.stageId), StageId(p.sequence + 1);
    var prompt := env.heading(stage) + env.history(p.stageId, hash, payload) + p.prompt[|heading|..];
    assert Trimmed(prompt) by {
      assert prompt[0] == env.heading(stage)[0];
      assert prompt[|prompt| - 1] == p.prompt[|p.prompt| - 1];
    }
    var raw :=
      p.(stageId := stage, sequence := p.sequence + 1, previous := Some(hash), inputHash := "", prompt := prompt);
    var q := raw.(inputHash := env.packetHash(Identity(raw)));
    assert Identity(q) == Identity(raw);
    PacketReload(env, q);
    assert NextPacket(env, p, hash, payload) == Some(q);
  }

  /** The first packet of a job is headed. */
  lemma OutlineHeaded(env: Env, job: JobInput, snap: SnapshotInput, session: string)
    requires TextsOk(env) && OutlinePacket(env, job, snap, session).Some?
    ensures Headed(env, OutlinePacket(env, job, snap, session).value)
    ensures OutlinePacket(env, job, snap, session).value.prompt == env.heading(Outline) + env.instructions(snap.context)
  {
    hide IsSpace, IsSha256, Strip, Hashed;
    var prompt := env.heading(Outline) + env.instructions(snap.context);
    assert Trimmed(prompt) by {
      assert prompt[0] == env.heading(Outline)[0];
      assert prompt[|prompt| - 1] == env.instructions(snap.context)[|env.instructions(snap.context)| - 1];
    }
    TrimmedIsStripped(prompt);
    HashedPrompt(env, Packet(
      job.jobId, job.companyId, Outline, 0, job.approvalId, job.planFingerprint,
      snap.snapshotHash, env.evidenceHash(snap.context), PROVIDER_ID, MODEL_ID, Strip(session), PIPELINE_VERSION,
      None, "", prompt));
  }

  lemma HashedPrompt(env: Env, raw: Packet)
    requires Hashed(env, raw).Some?
    ensures Hashed(env, raw).value.prompt == Strip(raw.prompt) && Hashed(env, raw).value.stageId == raw.stageId
  {
    hide IsSha256, Strip;
  }

  // ---- What the prompts tell ----------------------------------------------------------------------------------------

  /** Packet `j` has its completion in the table. */
  predicate Completed(t: Tables, j: int) {
    && 0 <= j < |t.packets| && t.packets[j].inputHash in t.completions
    && t.completions[t.packets[j].inputHash].text.Canonical?
  }

  /** The histories of the first `i` stages, the latest first, each from the stored completion of its
      packet: the stage, the hash of the completion and its payload. */
  function Histories(env: Env, t: Tables, i: nat): string
    requires i <= STAGE_COUNT
  {
    if i == 0 then ""
    else if !Completed(t, i - 1) then Histories(env, t, i - 1)
    else
      var row := t.completions[t.packets[i - 1].inputHash];
      env.history(StageId(i - 1), row.hash, row.text.value.payload) + Histories(env, t, i - 1)
  }

  /** The prompt of packet `i`: its heading, everything accepted before it, and the instructions of the
      frozen context. */
  predicate PromptOk(env: Env, t: Tables, i: nat)
    requires i < |t.packets|
  {
    && i < STAGE_COUNT && t.packets[i].text.Canonical? && t.job.contextText.Canonical?
    && t.packets[i].text.value.prompt
       == env.heading(StageId(i)) + (Histories(env, t, i) + env.instructions(t.job.contextText.value))
    && forall j :: 0 <= j < i ==> Completed(t, j)
  }

  predicate Prompted(env: Env, t: Tables) {
    forall i :: 0 <= i < |t.packets| ==> PromptOk(env, t, i)
  }

  lemma {:induction false} HistoriesKept(env: Env, t: Tables, u: Tables, i: nat)
    requires i <= STAGE_COUNT && Extends(t, u) && forall j :: 0 <= j < i ==> Completed(t, j)
    ensures Histories(env, u, i) == Histories(env, t, i)
    ensures forall j :: 0 <= j < i ==> Completed(u, j)
  {
    if i > 0 {
      HistoriesKept(env, t, u, i - 1);
      assert Completed(t, i - 1);
    }
  }

  /** What a packet's prompt tells does not change as the job goes on. */
  lemma PromptKept(env: Env, t: Tables, u: Tables, i: nat)
    requires i < |t.packets| && PromptOk(env, t, i) && Extends(t, u)
    ensures i < |u.packets| && PromptOk(env, u, i)
  {
    HistoriesKept(env, t, u, i);
    assert u.packets[i] == t.packets[i];
  }

  lemma PromptedKept(env: Env, t: Tables, u: Tables)
    requires Prompted(env, t) && Extends(t, u) && |u.packets| == |t.packets|
    ensures Prompted(env, u)
  {
    hide PromptOk, Extends;
    forall i | 0 <= i < |u.packets| ensures PromptOk(env, u, i) {
      PromptKept(env, t, u, i);
    }
  }

  /** The next packet tells what the one before it told, and the completion just accepted. */
  lemma PromptedAdvance(env: Env, key: Key, t: Tables, u: Tables, c: Completion, next: Packet)
    requires TextsOk(env) && Accepts(env, key, t) && Healthy(env, t) && Extends(t, u)
    requires t.job.packetText.Canonical? && t.job.packetText.value.inputHash == c.inputHash
    requires NextOf(env, t.job.packetText.value, c) == Some(next) && |u.packets| == |t.packets| + 1
    requires u.packets[|t.packets|] == PacketRowFor(next)
    requires c.inputHash in u.completions
    requires u.completions[c.inputHash] == CompletionRow(env.completionHash(c), Canonical(c))
    ensures Prompted(env, u)
  {
    hide PromptOk, Extends, NextPacket, TextsOk, PacketOk, IsSha256, RecoveryTracked, Accepts, Histories, Prompted;
    HeadPacket(env, key, t);
    var n, p := |t.packets|, t.job.packetText.value;
    var hash: Digest := env.completionHash(c);
    NextPacketExists(env, p, hash, c.payload);
    PromptOf(env, t, n - 1);
    assert p.stageId == StageId(n - 1) by { StageOf(env, p); }
    forall i | 0 <= i < |u.packets| ensures PromptOk(env, u, i) {
      if i < n {
        PromptOf(env, t, i);
        PromptKept(env, t, u, i);
      } else {
        PromptNext(env, t, u, c, next);
      }
    }
    assert Prompted(env, u) by { AllPrompts(env, u); }
  }

  lemma StageOf(env: Env, p: Packet)
    requires PacketOk(env, p)
    ensures 0 <= p.sequence < STAGE_COUNT && p.stageId == StageId(p.sequence)
  {
  }

  lemma AllPrompts(env: Env, t: Tables)
    requires forall i :: 0 <= i < |t.packets| ==> PromptOk(env, t, i)
    ensures Prompted(env, t)
  {
  }

  lemma PromptOf(env: Env, t: Tables, i: nat)
    requires Prompted(env, t) && i < |t.packets|
    ensures PromptOk(env, t, i) && t.packets[i].text.Canonical?
    ensures i < STAGE_COUNT && t.packets[i].text.value.prompt
         == env.heading(StageId(i)) + (Histories(env, t, i) + env.instructions(t.job.contextText.value))
  {
    hide Histories;
  }

  lemma PromptNext(env: Env, t: Tables, u: Tables, c: Completion, next: Packet)
    requires t.packets != [] && Extends(t, u) && |u.packets| == |t.packets| + 1 && |t.packets| < STAGE_COUNT
    requires PromptOk(env, t, |t.packets| - 1)
    requires u.packets[|t.packets|] == PacketRowFor(next)
    requires t.packets[|t.packets| - 1].inputHash == c.inputHash && c.inputHash in u.completions
    requires u.completions[c.inputHash] == CompletionRow(env.completionHash(c), Canonical(c))
    requires var n, prompt := |t.packets|, t.packets[|t.packets| - 1].text.value.prompt;
      next.prompt == env.heading(StageId(n)) + (env.history(StageId(n - 1), env.completionHash(c), c.payload)
                                                + prompt[|env.heading(StageId(n - 1))|..])
    ensures PromptOk(env, u, |t.packets|)
  {
    var n := |t.packets|;
    HistoriesKept(env, t, u, n - 1);
    assert u.packets[n - 1] == t.packets[n - 1];
    assert Completed(u, n - 1);
    var h, told := env.heading(StageId(n - 1)), Histories(env, t, n - 1) + env.instructions(t.job.contextText.value);
    assert (h + told)[|h|..] == told;
    var latest := env.history(StageId(n - 1), env.completionHash(c), c.payload);
    assert latest + told == (latest + Histories(env, u, n - 1)) + env.instructions(u.job.contextText.value);
  }

  // ---- Which packet a resolution named ------------------------------------------------------------------------------

  /** Event `r` is a resolution that named packet `i`. */
  ghost predicate NamesPacket(t: Tables, r: int, i: int) {
    && 0 <= r < |t.events| && 0 <= i < |t.packets|
    && t.events[r].text.Canonical? && FOutstanding in t.events[r].text.value.details
    && t.events[r].text.value.details[FOutstanding] == StrV(t.packets[i].inputHash)
  }

  /** The last resolution named the head packet if it came after that packet was prepared, and an
      earlier packet otherwise. */
  ghost predicate RecoveryTracked(t: Tables) {
    var r, q := LastOf(t.events, RecoveryResolved), LastOf(t.events, PacketPrepared);
    r >= 0 ==> exists i :: NamesPacket(t, r, i) && (i == |t.packets| - 1 <==> q < r)
  }

  lemma LastOfKept(a: seq<EventRow>, b: seq<EventRow>, e: EventType)
    requires a <= b && forall k :: |a| <= k < |b| ==> b[k].eventType != e
    ensures LastOf(b, e) == LastOf(a, e)
  {
  }

  /** Events of other types leave the tracking alone. */
  lemma TrackedKept(t: Tables, u: Tables, types: seq<EventType>)
    requires RecoveryTracked(t) && u.packets == t.packets && Appends(t, u, types)
    requires RecoveryResolved !in types && PacketPrepared !in types
    ensures RecoveryTracked(u)
  {
    hide LastOf;
    LastOfKept(t.events, u.events, RecoveryResolved);
    LastOfKept(t.events, u.events, PacketPrepared);
    var r := LastOf(t.events, RecoveryResolved);
    if r >= 0 {
      var i :| NamesPacket(t, r, i) && (i == |t.packets| - 1 <==> LastOf(t.events, PacketPrepared) < r);
      assert NamesPacket(u, r, i);
    }
  }

  /** A newly prepared packet becomes the head, so the last resolution named an earlier one. */
  lemma TrackedAdvance(t: Tables, u: Tables)
    requires RecoveryTracked(t) && |u.packets| == |t.packets| + 1 && t.packets <= u.packets
    requires Appends(t, u, [Submitted, Accepted, PacketPrepared])
    ensures RecoveryTracked(u)
  {
    hide LastOf;
    var n := |t.events|;
    assert u.events[n].eventType == Submitted && u.events[n + 1].eventType == Accepted;
    assert u.events[n + 2].eventType == PacketPrepared;
    LastOfKept(t.events, u.events, RecoveryResolved);
    var r := LastOf(t.events, RecoveryResolved);
    assert LastOf(u.events, PacketPrepared) == |u.events| - 1;
    if r >= 0 {
      var i :| NamesPacket(t, r, i) && (i == |t.packets| - 1 <==> LastOf(t.events, PacketPrepared) < r);
      assert NamesPacket(u, r, i);
    }
  }

  /** A resolution that names the head packet. */
  lemma TrackedResolution(env: Env, key: Key, t: Tables, clock: Clock, operatorId: string, h: string)
    requires t.packets != [] && t.packets[|t.packets| - 1].inputHash == h
    ensures RecoveryTracked(Appended(env, key, t, clock, ResolvedDraft(operatorId, h)))
  {
    hide LastOf;
    var u := Appended(env, key, t, clock, ResolvedDraft(operatorId, h));
    assert u.events[|t.events|].eventType == RecoveryResolved;
    assert LastOf(u.events, RecoveryResolved) == |t.events|;
    assert LastOf(u.events, PacketPrepared) < |t.events|;
    assert NamesPacket(u, |t.events|, |t.packets| - 1);
  }

  // ---- The invariant of reachable ledgers ---------------------------------------------------------------------------

  ghost predicate Tracked(env: Env, t: Tables) {
    (t.job.packetText.Canonical? ==> Headed(env, t.job.packetText.value)) && RecoveryTracked(t)
  }

  ghost predicate Healthy(env: Env, t: Tables) {
    Tracked(env, t) && Prompted(env, t)
  }

  /** What validator acceptance does not say but the operations maintain. */
  ghost predicate Grown(env: Env, l: Ledger) {
    Sound(env, l) && forall key :: key in l ==> Healthy(env, l[key])
  }

  lemma BindTracked(env: Env, l: Ledger, c: Completion, clock: Clock, key: Key)
    requires TextsOk(env) && Grown(env, l) && CompletionOk(env, c) && key == Key(c.companyId, c.jobId) && key in l
    ensures key in Bind(env, l, c, clock).0 && Tracked(env, Bind(env, l, c, clock).0[key])
  {
    hide Accepts, SchemaOk, Judge, NextPacket, AcceptSteps, RejectSteps, FinalSteps, AdvanceSteps, EventUnused,
      Appended, CompletionOk, PacketOk, TextsOk, RecoveryTracked, IsSha256, Prompted;
    var t := l[key];
    if Accepts(env, key, t) && t.job.packetText.Canonical? {
      HeadPacket(env, key, t);
      var p, hash: Digest := t.job.packetText.value, env.completionHash(c);
      forall r | RejectSteps(env, key, t, p, c, r, clock).Some?
        ensures Tracked(env, RejectSteps(env, key, t, p, c, r, clock).value)
      {
        RejectAppends(env, key, t, p, c, r, clock);
        TrackedKept(t, RejectSteps(env, key, t, p, c, r, clock).value, [Submitted, Rejected]);
      }
      if FinalSteps(env, key, t, p, c, clock).Some? {
        FinalAppends(env, key, t, p, c, clock);
        TrackedKept(t, FinalSteps(env, key, t, p, c, clock).value, [Submitted, Accepted, FinalQa]);
      }
      if p.sequence < STAGE_COUNT - 1 {
        NextPacketExists(env, p, hash, c.payload);
        var next := NextPacket(env, p, hash, c.payload).value;
        if AdvanceSteps(env, key, t, p, c, next, clock).Some? {
          AdvanceAppends(env, key, t, p, c, next, clock);
          TrackedAdvance(t, AdvanceSteps(env, key, t, p, c, next, clock).value);
        }
      }
    }
  }

  /** Artifact, recovery, resolution and cancellation append one event and keep the packets. */
  lemma OtherTracked(env: Env, l: Ledger, op: Op, key: Key)
    requires Grown(env, l) && key in l && key == Target(op) && !op.OpBind?
    ensures key in Step(env, l, op).0 && Tracked(env, Step(env, l, op).0[key])
  {
    hide Accepts, SchemaOk, Bind, OutlinePacket, NewBinding, EventUnused, PacketOk, RecoveryTracked, IsSha256, Strip,
      ReplayedResolution, Prompted;
    var t := l[key];
    HeadPacket(env, key, t);
    var h := t.job.packetText.value.inputHash;
    match op
    case OpPrepare(_, _, _, _) =>
    case OpArtifact(_, _, path, hash, clock) =>
      var b := NewBinding(env, path, hash);
      if b.Some? && TryBindArtifact(t, b.value.0, b.value.1).Some? {
        var t1 := TryBindArtifact(t, b.value.0, b.value.1).value;
        TrackedKept(t, Appended(env, key, t1, clock, FrozenDraft(b.value.0, b.value.1)), [Frozen]);
      }
    case OpRecovery(_, _, clock) =>
      TrackedKept(t, Appended(env, key, WithStatus(t, RecoveryRequired), clock, RecoveryDraft(h)), [RecoveryNeeded]);
    case OpResolve(_, _, expected, operatorId, clock) =>
      if Strip(expected) == h {
        TrackedResolution(env, key, WithStatus(t, AwaitingOperator), clock, Strip(operatorId), h);
      }
    case OpCancel(_, _, operatorId, clock) =>
      TrackedKept(t, Appended(env, key, WithStatus(t, CancelRequested), clock,
                              CancelDraft(Strip(operatorId), t.job.status, h)), [CancelAsked]);
  }

  lemma PrepareHealthy(env: Env, l: Ledger, op: Op)
    requires TextsOk(env) && op.OpPrepare? && Target(op) !in l
    ensures Target(op) in Step(env, l, op).0 ==> Healthy(env, Step(env, l, op).0[Target(op)])
  {
    hide OutlinePacket, Headed, TextsOk, Healthy, Appended, FreshTables;
    var built := OutlinePacket(env, op.job, op.snap, op.session);
    if built.Some? {
      OutlineHeaded(env, op.job, op.snap, op.session);
      FreshHealthy(env, Target(op), built.value, op.snap.context, op.clock);
    }
  }

  lemma FreshHealthy(env: Env, key: Key, p: Packet, context: Json, clock: Clock)
    requires TextsOk(env) && Headed(env, p)
    requires p.prompt == env.heading(Outline) + env.instructions(context)
    ensures Healthy(env, Appended(env, key, FreshTables(p, context), clock, PreparedDraft(p)))
  {
  }

  /** Where no packet is added. */
  lemma PacketsStay(env: Env, l: Ledger, op: Op)
    requires !op.OpBind? && Target(op) in l
    ensures Target(op) in Step(env, l, op).0 && Step(env, l, op).0[Target(op)].packets == l[Target(op)].packets
  {
    hide Accepts, OutlinePacket, NewBinding, EventUnused, IsSha256, Strip, ReplayedResolution;
  }

  lemma BindPrompted(env: Env, l: Ledger, c: Completion, clock: Clock)
    requires TextsOk(env) && Grown(env, l) && Key(c.companyId, c.jobId) in l
    ensures var key := Key(c.companyId, c.jobId);
      key in Bind(env, l, c, clock).0 && Prompted(env, Bind(env, l, c, clock).0[key])
  {
    hide Accepts, SchemaOk, NextPacket, AcceptSteps, RejectSteps, FinalSteps, AdvanceSteps, PacketOk, TextsOk, Tracked,
      IsSha256, Prompted, Extends;
    var key := Key(c.companyId, c.jobId);
    var t := l[key];
    BindExtends(env, l, c, clock);
    var u := Bind(env, l, c, clock).0[key];
    if |u.packets| == |t.packets| {
      PromptedKept(env, t, u);
    } else {
      HeadPacket(env, key, t);
      var p := t.job.packetText.value;
      forall r | RejectSteps(env, key, t, p, c, r, clock).Some?
        ensures RejectSteps(env, key, t, p, c, r, clock).value.packets == t.packets
      {
        RejectAppends(env, key, t, p, c, r, clock);
      }
      if FinalSteps(env, key, t, p, c, clock).Some? {
        FinalAppends(env, key, t, p, c, clock);
      }
      var next := NextOf(env, p, c).value;
      AdvanceAppends(env, key, t, p, c, next, clock);
      AdmitIdentity(env, p, c, t.job.contextText.value);
      PromptedAdvance(env, key, t, u, c, next);
    }
  }

  lemma StepKeys(env: Env, l: Ledger, op: Op, key: Key)
    requires key in Step(env, l, op).0 && key !in l
    ensures key == Target(op) && op.OpPrepare?
  {
    hide Accepts, OutlinePacket, NewBinding, EventUnused, IsSha256, Strip, Judge, NextPacket, AcceptSteps, RejectSteps,
      FinalSteps, AdvanceSteps, FreezeSteps, TryAppend, ReplayedResolution;
  }

  lemma StepGrown(env: Env, l: Ledger, op: Op)
    requires TextsOk(env) && Grown(env, l) && OpOk(env, op)
    ensures Grown(env, Step(env, l, op).0)
  {
    hide Step, Sound, Healthy;
    StepSound(env, l, op);
    var l2 := Step(env, l, op).0;
    forall key | key in l2 ensures Healthy(env, l2[key]) {
      StepHealthy(env, l, op, key);
    }
  }

  lemma StepHealthy(env: Env, l: Ledger, op: Op, key: Key)
    requires TextsOk(env) && Grown(env, l) && OpOk(env, op) && key in Step(env, l, op).0
    ensures Healthy(env, Step(env, l, op).0[key])
  {
    hide Tracked, Prompted, Extends, Sound, Bind, Prepare, RecordArtifact, MarkRecovery, Resolve, Cancel, TextsOk,
      CompletionOk;
    if key !in l {
      StepKeys(env, l, op, key);
      PrepareHealthy(env, l, op);
    } else {
      StepExtends(env, l, op, key);
      if key == Target(op) {
        if op.OpBind? {
          BindTracked(env, l, op.completion, op.clock, key);
          BindPrompted(env, l, op.completion, op.clock);
        } else {
          OtherTracked(env, l, op, key);
          PacketsStay(env, l, op);
          PromptedKept(env, l[key], Step(env, l, op).0[key]);
        }
      }
    }
  }

  /** Every ledger built from nothing keeps the invariant. */
  lemma {:induction false} RunsGrow(env: Env, l: Ledger, ops: seq<Op>)
    requires TextsOk(env) && Grown(env, l)
    requires forall i :: 0 <= i < |ops| ==> OpOk(env, ops[i])
    ensures Grown(env, Run(env, l, ops))
    decreases |ops|
  {
    hide Step, Grown;
    if ops != [] {
      StepGrown(env, l, ops[0]);
      RunsGrow(env, Step(env, l, ops[0]).0, ops[1..]);
    }
  }

  // ---- Outcomes -----------------------------------------------------------------------------------------------------

  /** Past its guards, no statement of a submission aborts unless rows collide, and the next packet
      can be built. */
  lemma BindWorks(env: Env, key: Key, t: Tables, c: Completion, clock: Clock)
    requires TextsOk(env) && Accepts(env, key, t) && Healthy(env, t) && CompletionOk(env, c)
    requires key == Key(c.companyId, c.jobId) && c.inputHash !in t.completions
    requires !Collides(env, t, OpBind(c, clock))
    requires t.job.packetText.Canonical? && t.job.contextText.Canonical?
    ensures var p := t.job.packetText.value;
      match Judge(env, p, c, t.job.contextText.value)
      case Reject(r) => RejectSteps(env, key, t, p, c, r, clock).Some?
      case Fault => TryAppend(env, key, t, clock, SubmittedDraft(p, c)).Some?
      case Admit =>
        && AcceptSteps(env, key, t, p, c, clock).Some?
        && if !(0 <= p.sequence < STAGE_COUNT - 1) then FinalSteps(env, key, t, p, c, clock).Some?
           else NextOf(env, p, c).Some? && AdvanceSteps(env, key, t, p, c, NextOf(env, p, c).value, clock).Some?
  {
    hide Accepts, AcceptSteps, RejectSteps, FinalSteps, AdvanceSteps, EventUnused, Appended, NextOf, CompletionOk,
      TextsOk, RecoveryTracked, EventsCollide, PacketCollides, ChainOk, PacketOk, Judge;
    HeadPacket(env, key, t);
    AcceptedIsChained(env, key, t);
    var p := t.job.packetText.value;
    match Judge(env, p, c, t.job.contextText.value)
    case Reject(r) => RejectWorks(env, key, t, p, c, r, clock);
    case Fault => SingleWorks(env, key, t, t, clock, SubmittedDraft(p, c));
    case Admit =>
      AdmitIdentity(env, p, c, t.job.contextText.value);
      NextOfStage(env, p, c);
      var d1, d2 := SubmittedDraft(p, c), AcceptedDraft(c, env.completionHash(c));
      if NextOf(env, p, c).Some? {
        var next := NextOf(env, p, c).value;
        assert [d1, d2] + [PreparedDraft(next)] == [d1, d2, PreparedDraft(next)];
        AcceptWorks(env, key, t, p, c, clock, [PreparedDraft(next)]);
        AdvanceWorks(env, key, t, c, next, clock);
      } else {
        assert [d1, d2] + [FinalDraft(c.inputHash)] == [d1, d2, FinalDraft(c.inputHash)];
        AcceptWorks(env, key, t, p, c, clock, [FinalDraft(c.inputHash)]);
        FinalWorks(env, key, t, p, c, clock);
      }
  }

  /** The next packet exists exactly for the stages before the last. */
  lemma NextOfStage(env: Env, p: Packet, c: Completion)
    requires TextsOk(env) && PacketOk(env, p) && Headed(env, p)
    ensures NextOf(env, p, c).Some? <==> p.sequence < STAGE_COUNT - 1
    ensures NextOf(env, p, c).Some? ==>
      var q := NextOf(env, p, c).value;
      PacketOk(env, q) && q.sequence == p.sequence + 1 && q.previous == Some(env.completionHash(c))
    ensures p.stageId == StageId(p.sequence)
  {
    hide NextPacket, TextsOk, Headed, IsSha256, Trimmed;
    if p.sequence < STAGE_COUNT - 1 {
      var hash: Digest := env.completionHash(c);
      NextPacketExists(env, p, hash, c.payload);
      NextPacketFields(env, p, hash, c.payload);
    }
  }

  lemma AdmitIdentity(env: Env, p: Packet, c: Completion, context: Json)
    requires Judge(env, p, c, context) == Admit
    ensures c.inputHash == p.inputHash && c.stageId == p.stageId
  {
  }

  /** The completion names the outstanding packet. */
  predicate Names(p: Packet, c: Completion) {
    c.companyId == p.companyId && c.jobId == p.jobId && c.stageId == p.stageId && c.inputHash == p.inputHash
  }

  /** Its operator worked in the session and with the model that the packet designates. */
  predicate Attests(p: Packet, c: Completion) {
    c.sessionRef == p.sessionRef && c.providerId == p.providerId && c.modelId == p.modelId
  }

  /** How the payload check ends, and how the check of the sources of the last stage ends. */
  function PayloadCheck(env: Env, p: Packet, c: Completion): Check {
    env.payloadCheck(p.stageId, c.payload)
  }

  function SourcesCheck(env: Env, p: Packet, c: Completion, context: Json): Check {
    if p.stageId == Revision then env.sourcesCheck(c.payload, context) else Pass
  }

  /** The verdict on a submission: the first check that fails names the reason. */
  lemma JudgeDecides(env: Env, p: Packet, c: Completion, context: Json)
    ensures var verdict, payload, sources :=
        Judge(env, p, c, context), PayloadCheck(env, p, c), SourcesCheck(env, p, c, context);
      && (verdict == Reject(IdentityMismatch) <==> !Names(p, c))
      && (verdict == Reject(AttestationMismatch) <==> Names(p, c) && !Attests(p, c))
      && (verdict == Reject(PayloadInvalid) <==> Names(p, c) && Attests(p, c) && payload == BadValue)
      && (verdict == Reject(EvidenceMismatch) <==>
            Names(p, c) && Attests(p, c) && payload == Pass && sources == BadValue)
      && (verdict == Fault <==>
            && Names(p, c) && Attests(p, c)
            && (payload == OtherError || (payload == Pass && sources == OtherError)))
      && (verdict == Admit <==> Names(p, c) && Attests(p, c) && payload == Pass && sources == Pass)
  {
  }

  /** On a grown ledger a submission is decided by the job's status and by its checks alone: admitted
      exactly when the job awaits this stage, has no completion for it yet and every check passes, and
      the next packet can always be built; rejected under the name of the first check that fails. The
      one exception is an abort, and an abort exhibits a collision among the rows of this job and the
      call. */
  lemma BindDecided(env: Env, l: Ledger, c: Completion, clock: Clock)
    requires TextsOk(env) && Grown(env, l) && CompletionOk(env, c)
    ensures var key, out := Key(c.companyId, c.jobId), Bind(env, l, c, clock).1;
      && (out == Missing <==> key !in l)
      && (key in l ==>
            var t := l[key];
            && t.job.packetText.Canonical? && t.job.contextText.Canonical?
            && var p := t.job.packetText.value;
               var open := c.inputHash !in t.completions && t.job.status == AwaitingOperator;
               var payload, sources := PayloadCheck(env, p, c), SourcesCheck(env, p, c, t.job.contextText.value);
               var known := open && Names(p, c) && Attests(p, c);
               && (out == Refused <==> !open)
               && (out == Aborted ==> open && Collides(env, t, OpBind(c, clock)))
               && (out != Aborted ==>
                     && (out == RejectedFor(IdentityMismatch) <==> open && !Names(p, c))
                     && (out == RejectedFor(AttestationMismatch) <==> open && Names(p, c) && !Attests(p, c))
                     && (out == RejectedFor(PayloadInvalid) <==> known && payload == BadValue)
                     && (out == RejectedFor(EvidenceMismatch) <==> known && payload == Pass && sources == BadValue)
                     && (out == Faulted <==>
                           known && (payload == OtherError || (payload == Pass && sources == OtherError)))
                     && (out == GotStatus(FinalQaReady) <==>
                           known && payload == Pass && sources == Pass && p.stageId == Revision)
                     && (out.GotPacket? <==> known && payload == Pass && sources == Pass && p.stageId != Revision)))
  {
    hide Accepts, SchemaOk, Judge, NextPacket, AcceptSteps, RejectSteps, FinalSteps, AdvanceSteps, EventUnused,
      Appended, CompletionOk, TextsOk, RecoveryTracked, Collides, IsSha256, PacketOk, Headed, Names, Attests,
      PayloadCheck, SourcesCheck, Prompted;
    var key := Key(c.companyId, c.jobId);
    if key in l {
      var t := l[key];
      HeadPacket(env, key, t);
      var p := t.job.packetText.value;
      NextOfStage(env, p, c);
      JudgeDecides(env, p, c, t.job.contextText.value);
      if c.inputHash !in t.completions && !Collides(env, t, OpBind(c, clock)) {
        BindWorks(env, key, t, c, clock);
      }
    }
  }

  /** A call is aborted by a UNIQUE constraint, a foreign key or a trigger only if two rows of the
      job, stored or about to be, exhibit a hash collision. */
  lemma AbortedByCollision(env: Env, l: Ledger, op: Op)
    requires TextsOk(env) && Grown(env, l) && OpOk(env, op) && Step(env, l, op).1 == Aborted
    ensures Target(op) in l && Collides(env, l[Target(op)], op)
  {
    hide Accepts, SchemaOk, Bind, OutlinePacket, NewBinding, FreezeSteps, EventUnused, Collides, PacketOk, TextsOk,
      CompletionOk, Healthy, IsSha256, Strip, LastOf, TryAppend;
    var key := Target(op);
    if op.OpBind? {
      BindDecided(env, l, op.completion, op.clock);
    } else if key in l && !Collides(env, l[key], op) {
      OtherWorks(env, l[key], op);
    }
  }

  lemma OtherWorks(env: Env, t: Tables, op: Op)
    requires Accepts(env, Target(op), t) && !op.OpBind? && !Collides(env, t, op)
    ensures t.job.packetText.Canonical?
    ensures var key, h := Target(op), t.job.packetText.value.inputHash;
      match op
      case OpArtifact(_, _, path, hash, clock) =>
        NewBinding(env, path, hash).Some? && t.job.status == FinalQaReady ==>
          FreezeSteps(env, key, t, NewBinding(env, path, hash).value.0, NewBinding(env, path, hash).value.1,
                      clock).Some?
      case OpRecovery(_, _, clock) =>
        TryAppend(env, key, WithStatus(t, RecoveryRequired), clock, RecoveryDraft(h)).Some?
      case OpResolve(_, _, expected, operatorId, clock) =>
        TryAppend(env, key, WithStatus(t, AwaitingOperator), clock,
                  ResolvedDraft(Strip(operatorId), Strip(expected))).Some?
      case OpCancel(_, _, operatorId, clock) =>
        TryAppend(env, key, WithStatus(t, CancelRequested), clock,
                  CancelDraft(Strip(operatorId), t.job.status, h)).Some?
      case _ => true
  {
    hide Accepts, NewBinding, FreezeSteps, EventUnused, EventsCollide, Strip, ChainOk, TryAppend, PacketOk;
    var key := Target(op);
    HeadPacket(env, key, t);
    var h := t.job.packetText.value.inputHash;
    match op
    case OpArtifact(_, _, path, hash, clock) =>
      var b := NewBinding(env, path, hash);
      if b.Some? && t.job.status == FinalQaReady {
        FreezeWorks(env, key, t, b.value.0, b.value.1, clock);
      }
    case OpRecovery(_, _, clock) => SingleWorks(env, key, t, WithStatus(t, RecoveryRequired), clock, RecoveryDraft(h));
    case OpResolve(_, _, expected, operatorId, clock) =>
      SingleWorks(env, key, t, WithStatus(t, AwaitingOperator), clock,
                  ResolvedDraft(Strip(operatorId), Strip(expected)));
    case OpCancel(_, _, operatorId, clock) =>
      SingleWorks(env, key, t, WithStatus(t, CancelRequested), clock, CancelDraft(Strip(operatorId), t.job.status, h));
    case _ =>
  }

  /** A repeated resolution of the head packet finds a contradicting event exactly when the last
      resolution came before that packet. */
  lemma ReplayCorrupt(t: Tables, expected: string, operatorId: string)
    requires SchemaOk(t) && RecoveryTracked(t) && t.packets != [] && t.packets[|t.packets| - 1].inputHash == expected
    ensures ReplayedResolution(t, expected, operatorId) == Corrupt
            <==> 0 <= LastOf(t.events, RecoveryResolved) < LastOf(t.events, PacketPrepared)
  {
    hide LastOf;
    var r, q := LastOf(t.events, RecoveryResolved), LastOf(t.events, PacketPrepared);
    if r >= 0 {
      var i :| NamesPacket(t, r, i) && (i == |t.packets| - 1 <==> q < r);
      assert q >= 0 ==> q != r;
    }
  }

  /** The integrity error is raised on a grown ledger by exactly one call: a recovery resolution
      for the outstanding packet of an awaiting job, when some packet was recovered before but the
      outstanding one was prepared after that. */
  lemma CorruptExactly(env: Env, l: Ledger, op: Op)
    requires Grown(env, l) && OpOk(env, op)
    ensures Step(env, l, op).1 == Corrupt <==>
      && op.OpResolve? && Strip(op.companyId) != "" && Strip(op.jobId) != "" && Strip(op.operatorId) != ""
      && Target(op) in l
      && var t := l[Target(op)];
         && t.job.status == AwaitingOperator
         && t.job.packetText.Canonical? && t.job.packetText.value.inputHash == Strip(op.expected)
         && 0 <= LastOf(t.events, RecoveryResolved) < LastOf(t.events, PacketPrepared)
  {
    hide Accepts, Bind, OutlinePacket, NewBinding, FreezeSteps, EventUnused, PacketOk, TextsOk, CompletionOk, Headed,
      IsSha256, Strip, LastOf, TryAppend, Appended, ReplayedResolution, RecoveryTracked, SchemaOk;
    var key := Target(op);
    if op.OpBind? {
      BindNotCorrupt(env, l, op.completion, op.clock);
    } else if op.OpResolve? && key in l {
      var t := l[key];
      HeadPacket(env, key, t);
      ReplayCorrupt(t, t.packets[|t.packets| - 1].inputHash, Strip(op.operatorId));
    }
  }

  lemma BindNotCorrupt(env: Env, l: Ledger, c: Completion, clock: Clock)
    requires Grown(env, l)
    ensures Bind(env, l, c, clock).1 != Corrupt
  {
    hide Accepts, SchemaOk, Judge, NextPacket, AcceptSteps, RejectSteps, FinalSteps, AdvanceSteps, TryAppend, Healthy;
  }
}
