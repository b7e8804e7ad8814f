/** A concrete run that shows the assumptions of the outcome theorems met, and the integrity error
    raised on a ledger that the validator accepts. */
module LedgerExample {
  import opened Texts
  import opened JsonValue
  import opened LedgerModel
  import opened LedgerSteps
  import opened LedgerAgreement
  import opened LedgerHistory
  import opened LedgerOutcomes
  import opened LedgerRetries

  function HexDigit(n: int): (c: char)
    requires 0 <= n < 16
    ensures IsHex(c)
  {
    if n < 10 then '0' + n as char else 'a' + (n - 10) as char
  }

  /** A digest that tells its number modulo sixteen. */
  function Mark(n: int): (d: Digest)
    ensures d[0] == HexDigit(n % 16)
  {
    seq(64, _ => HexDigit(n % 16))
  }

  const ID := "ab"

  function ExampleEnv(): Env {
    Env((e: EventBody) => Mark(e.sequence), (e: EventBody) => Mark(0), (p: Packet) => Mark(p.sequence),
        (c: Completion) => Mark(0),
        (c: Json) => Mark(0), (c: Json) => Mark(0), (c: Json) => true, (s: Stage, c: Json) => Pass,
        (c: Json, d: Json) => Pass,
        (s: string) => true, (s: string) => true, (s: Stage) => ID, (c: Json) => ID,
        (s: Stage, h: string, c: Json) => "")
  }

  lemma MarksDiffer(m: int, n: int)
    requires 0 <= m < n < 16
    ensures Mark(m) != Mark(n)
  {
  }

  lemma ExampleAssumptions()
    ensures TextsOk(ExampleEnv())
  {
    hide Mark;
  }

  // ---- No collisions on small jobs ----------------------------------------------------------------------------------

  lemma {:induction false} DraftsNumbered(env: Env, key: Key, job: JobRow, clock: Clock, ds: seq<EventDraft>)
    ensures var es := Drafted(env, key, job, clock, ds);
            |es| == |ds| && forall i :: 0 <= i < |es| ==> es[i].sequence == job.eventCount + i
    decreases |ds|
  {
    if ds != [] {
      var e := BodyOf(key, job, clock, ds[0]);
      DraftsNumbered(env, key, job.(eventCount := job.eventCount + 1, headHash := Some(env.eventHash(e))), clock,
                     ds[1..]);
    }
  }

  /** The hash tells the number of an event, so the first sixteen differ. */
  lemma EventsDiffer(key: Key, t: Tables, clock: Clock, ds: seq<EventDraft>)
    requires t.job.eventCount == |t.events| && |t.events| + |ds| <= 16
    ensures !EventsCollide(ExampleEnv(), key, t, clock, ds)
  {
    hide Mark, Drafted;
    var env := ExampleEnv();
    if ChainOk(env, key, t.events) {
      DraftsNumbered(env, key, t.job, clock, ds);
      var all := Bodies(t.events) + Drafted(env, key, t.job, clock, ds);
      forall i | 0 <= i < |all| ensures all[i].sequence == i {
        if i < |t.events| {
          assert LinkOk(env, key, t.events, i);
        }
      }
      forall i, j | 0 <= i < j < |all| ensures env.eventHash(all[i]) != env.eventHash(all[j]) {
        MarksDiffer(i, j);
      }
    }
  }

  /** The hash tells the stage of a packet. */
  lemma PacketsDiffer(key: Key, t: Tables, next: Packet)
    requires Accepts(ExampleEnv(), key, t) && next.sequence == |t.packets| < STAGE_COUNT
    ensures !PacketCollides(ExampleEnv(), t, next)
  {
    hide Mark, Replay, ChainOk, HeadOk, OrderOk, CompletionsOk, LinksOk, ArtifactOk, ContextOk, Trimmed, IsSha256;
    var env := ExampleEnv();
    AcceptedIsLogged(env, key, t);
    forall i | 0 <= i < |t.packets| && t.packets[i].text.Canonical?
      ensures env.packetHash(Identity(t.packets[i].text.value)) != env.packetHash(Identity(next))
    {
      assert PacketRowOk(env, key, t.job, ViewOf(env, key, t).packets[i], t.packets[i]);
      MarksDiffer(i, next.sequence);
    }
  }

  lemma SmallNeverAborts(l: Ledger, op: Op)
    requires Grown(ExampleEnv(), l) && OpOk(ExampleEnv(), op) && Target(op) in l && |l[Target(op)].events| <= 12
    ensures Step(ExampleEnv(), l, op).1 != Aborted
  {
    hide Step, ExampleEnv, Accepts, EventsCollide, PacketCollides, TextsOk, PacketOk, Headed, RecoveryTracked,
      NextPacket, Judge;
    var env, key, t := ExampleEnv(), Target(op), l[Target(op)];
    ExampleAssumptions();
    HeadPacket(env, key, t);
    CountMatches(env, key, t);
    var p := t.job.packetText.value;
    if op.OpBind? {
      var c := op.completion;
      NextOfStage(env, p, c);
      EventsDiffer(key, t, op.clock, SubmissionDrafts(env, p, c, t.job.contextText.value));
      if NextOf(env, p, c).Some? {
        PacketsDiffer(key, t, NextOf(env, p, c).value);
      }
    } else {
      EventsDiffer(key, t, op.clock, CallDrafts(env, t, op));
    }
    if Step(env, l, op).1 == Aborted {
      AbortedByCollision(env, l, op);
    }
  }

  lemma CountMatches(env: Env, key: Key, t: Tables)
    requires Accepts(env, key, t)
    ensures t.job.eventCount == |t.events|
  {
  }

  function Clock0(): Clock {
    (i: int) => ""
  }

  function ExampleJob(): JobInput {
    JobInput(ID, ID, ID, Mark(0), ID, Mark(0))
  }

  function ExampleSnapshot(): SnapshotInput {
    SnapshotInput(ID, ID, Mark(0), Obj(map[]))
  }

  function FirstPacket(): Packet {
    Packet(ID, ID, Outline, 0, ID, Mark(0), Mark(0), Mark(0), PROVIDER_ID, MODEL_ID, ID, PIPELINE_VERSION, None,
           Mark(0), ID + ID)
  }

  function ExampleCompletion(): Completion {
    Completion(ID, ID, Outline, Mark(0), Null, ID, PROVIDER_ID, MODEL_ID, ID, "")
  }

  lemma FirstPacketOk()
    ensures PacketOk(ExampleEnv(), FirstPacket())
  {
    hide Mark, IsSha256;
    var zero: Digest := Mark(0);
  }

  lemma FirstPacketBuilt()
    ensures OutlinePacket(ExampleEnv(), ExampleJob(), ExampleSnapshot(), ID) == Some(FirstPacket())
  {
    hide Mark, IsSha256, NewPacket, PacketOk;
    TrimmedIsStripped(ID);
    var zero: Digest := Mark(0);
    DigestIsTrimmed(zero);
    FirstPacketOk();
    PacketReload(ExampleEnv(), FirstPacket());
  }

  lemma CompletionFits()
    ensures CompletionOk(ExampleEnv(), ExampleCompletion())
    ensures Judge(ExampleEnv(), FirstPacket(), ExampleCompletion(), Obj(map[])) == Admit
  {
    hide Mark, IsSha256;
    var zero: Digest := Mark(0);
    DigestIsTrimmed(zero);
  }

  /** Prepare a job, recover its outline, submit the outline, and resolve the draft packet: every
      call before the last succeeds, the ledger passes the validator, and the last call reports
      corruption. */
  lemma CorruptOnHealthyLedger() returns (ops: seq<Op>, h: string)
    ensures forall i :: 0 <= i < |ops| ==> OpOk(ExampleEnv(), ops[i])
    ensures NoneAborted(ExampleEnv(), map[], ops) && Sound(ExampleEnv(), Run(ExampleEnv(), map[], ops))
    ensures Resolve(ExampleEnv(), Run(ExampleEnv(), map[], ops), ID, ID, h, ID, Clock0()).1 == Corrupt
  {
    hide Mark, IsSha256, OutlinePacket, FirstPacket, Step, Run, NoneAborted, Resolve, Sound, Appended, Judge, TextsOk,
      CompletionOk, ExampleEnv;
    var env, key, c := ExampleEnv(), Key(ID, ID), ExampleCompletion();
    ExampleAssumptions();
    CompletionFits();
    var l1 := Prepared();
    var rest := RecoveryThenAdvance(env, l1, c, ID, Clock0());
    NoAborts(l1);
    var prepare := OpPrepare(ExampleJob(), ExampleSnapshot(), ID, Clock0());
    ops, h := [prepare] + rest, Run(env, l1, rest)[key].job.packetText.value.inputHash;
    RunFirst(env, map[], prepare, rest);
  }

  /** None of the three calls after the first is aborted. */
  lemma NoAborts(l: Ledger)
    requires Grown(ExampleEnv(), l) && Key(ID, ID) in l
    requires var t := l[Key(ID, ID)];
      && |t.events| == 1 && t.job.status == AwaitingOperator && t.job.packetText == Canonical(FirstPacket())
    ensures NoneAborted(ExampleEnv(), l,
                        [OpRecovery(ID, ID, Clock0()), OpResolve(ID, ID, ExampleCompletion().inputHash, ID, Clock0()),
                                          OpBind(ExampleCompletion(), Clock0())])
  {
    hide Mark, IsSha256, TextsOk, CompletionOk, Grown, NoneAborted, Resolve, MarkRecovery, Bind, ExampleEnv;
    var env, key, c := ExampleEnv(), Key(ID, ID), ExampleCompletion();
    var op1, op2, op3 :=
      OpRecovery(ID, ID, Clock0()), OpResolve(ID, ID, c.inputHash, ID, Clock0()), OpBind(c, Clock0());
    ExampleAssumptions();
    CompletionFits();
    TrimmedIsStripped(ID);
    SmallNeverAborts(l, op1);
    StepGrown(env, l, op1);
    var l1 := Step(env, l, op1).0;
    MarkedSize(env, l, key);
    SmallNeverAborts(l1, op2);
    var l2 := RecoveryRound(env, l, key, ID, Clock0());
    SmallNeverAborts(l2, op3);
    ThreeSteps(env, l, op1, op2, op3);
  }

  lemma MarkedSize(env: Env, l: Ledger, key: Key)
    requires
      && Grown(env, l) && key in l && Trimmed(key.companyId) && Trimmed(key.jobId) && l[key].job.packetText.Canonical?
    requires
      && l[key].job.status == AwaitingOperator && MarkRecovery(env, l, key.companyId, key.jobId, Clock0()).1 != Aborted
    ensures var l1 := MarkRecovery(env, l, key.companyId, key.jobId, Clock0()).0;
      key in l1 && |l1[key].events| == |l[key].events| + 1
  {
    hide MarkRecovery, Healthy;
    MarkWorks(env, l, key, Clock0());
  }

  lemma RunFirst(env: Env, l: Ledger, first: Op, rest: seq<Op>)
    ensures Run(env, l, [first] + rest) == Run(env, Step(env, l, first).0, rest)
    ensures NoneAborted(env, l, [first] + rest) <==>
      Step(env, l, first).1 != Aborted && NoneAborted(env, Step(env, l, first).0, rest)
  {
    hide Step;
    assert ([first] + rest)[1..] == rest;
  }

  lemma Prepared() returns (l: Ledger)
    ensures Step(ExampleEnv(), map[], OpPrepare(ExampleJob(), ExampleSnapshot(), ID, Clock0())) == (l,
        GotPacket(FirstPacket()))
    ensures Grown(ExampleEnv(), l) && Key(ID, ID) in l
    ensures var t := l[Key(ID, ID)];
      && |t.events| == 1 && t.job.status == AwaitingOperator && t.completions == map[]
      && t.job.packetText == Canonical(FirstPacket()) && t.job.contextText == Canonical(Obj(map[]))
  {
    hide Mark, IsSha256, OutlinePacket, Accepts, Healthy, SchemaOk, TextsOk;
    var op := OpPrepare(ExampleJob(), ExampleSnapshot(), ID, Clock0());
    l := Step(ExampleEnv(), map[], op).0;
    FirstPacketBuilt();
    ExampleAssumptions();
    StepGrown(ExampleEnv(), map[], op);
  }
}
