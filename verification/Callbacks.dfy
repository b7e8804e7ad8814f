/**
 Callback replay protection: a nonce table that is pruned as it grows, semantic receipts, and
 requests that interleave between verifying their signature and being accepted.
 */
module Callbacks {
  import opened Texts

  /** Microseconds; signed timestamps are whole seconds. */
  type Time = int

  const SECOND := 1_000_000
  const MAX_SKEW := 300

  datatype ReceiptKey = ReceiptKey(company: string, job: string, snapshotHash: string, idempotencyKey: string)

  /** What the jobs table says about a callback's job. */
  datatype JobFacts = JobFacts(snapshotHash: string, active: bool)

  datatype Store = Store(nonces: map<string, Time>, receipts: set<ReceiptKey>)

  datatype Answer = Accepted | Duplicate | Rejected

  /** `_nonce_expiry`. */
  function Expiry(signed: nat, received: Time): Time {
    (if signed * SECOND < received then received else signed * SECOND) + (MAX_SKEW + 1) * SECOND
  }

  /** `consume_nonce`: drop what has expired by the receipt time, then insert if absent. */
  function Consume(nonces: map<string, Time>, nonce: string, received: Time, expires: Time): (map<string, Time>, bool) {
    var kept := map n | n in nonces && nonces[n] > received :: nonces[n];
    if nonce in kept then (kept, false) else (kept[nonce := expires], true)
  }

  /** `accept_callback`, one transaction: a rejection rolls everything back. */
  function Accept(s: Store, key: ReceiptKey, job: Option<JobFacts>, nonce: string, signed: nat,
                  received: Time): (Store, Answer)
  {
    if key.idempotencyKey != key.job || job.None? || job.value.snapshotHash != key.snapshotHash then (s, Rejected)
    else
      var out := Consume(s.nonces, nonce, received, Expiry(signed, received));
      if !out.1 then (s, Rejected)
      else if key in s.receipts then (Store(out.0, s.receipts), Duplicate)
      else if !job.value.active then (s, Rejected)
      else (Store(out.0, s.receipts + {key}), Accepted)
  }

  /** The timestamp check of `verify_request`, at whole seconds. */
  predicate Fresh(signed: nat, now: Time) {
    -MAX_SKEW <= now / SECOND - signed <= MAX_SKEW
  }

  /** Freshness in microseconds: the clock is in the skew window around the signed second. */
  lemma FreshWithin(signed: nat, now: Time)
    ensures Fresh(signed, now) <==> (signed - 300) * 1_000_000 <= now < (signed + 301) * 1_000_000
  {
  }

  /** What accepting a callback answers and stores. It is rejected, and nothing is stored, exactly if it
      does not name its own job and the hash of that job, its nonce is in use, or it comes first for
      a job that is not active. Otherwise its nonce is used until the later of the signed and the
      receipt time is 301 seconds past, whatever has expired is dropped, and its receipt is there. */
  lemma AcceptDecided(s: Store, key: ReceiptKey, job: Option<JobFacts>, nonce: string, signed: nat, received: Time)
    ensures var (t, answer) := Accept(s, key, job, nonce, signed, received);
      && answer == (if || key.idempotencyKey != key.job || job.None? || job.value.snapshotHash != key.snapshotHash
                       || (nonce in s.nonces && s.nonces[nonce] > received)
                       || (key !in s.receipts && !job.value.active)
                    then Rejected else if key in s.receipts then Duplicate else Accepted)
      && (answer.Rejected? ==> t == s)
      && (!answer.Rejected? ==>
            && t.receipts == s.receipts + {key}
            && (forall n :: n in t.nonces <==> n == nonce || (n in s.nonces && s.nonces[n] > received))
            && (forall n :: n in t.nonces && n != nonce ==> t.nonces[n] == s.nonces[n])
            && t.nonces[nonce] - 301_000_000
            == (if received <= signed * 1_000_000 then signed * 1_000_000 else received))
  {
  }

  /** The service over its tables, updated in place. */
  class CallbackService {
    var nonces: map<string, Time>
    var receipts: set<ReceiptKey>

    constructor ()
      ensures nonces == map[] && receipts == {}
    {
      nonces, receipts := map[], {};
    }

    method ConsumeNonce(nonce: string, received: Time, expires: Time) returns (ok: bool)
      modifies this`nonces
      ensures (nonces, ok) == Consume(old(nonces), nonce, received, expires)
      ensures ok <==> nonce !in old(nonces) || old(nonces)[nonce] <= received
    {
      nonces := map n | n in nonces && nonces[n] > received :: nonces[n];
      ok := nonce !in nonces;
      if ok {
        nonces := nonces[nonce := expires];
      }
    }

    method AcceptCallback(key: ReceiptKey, job: Option<JobFacts>, nonce: string, signed: nat, received: Time)
      returns (answer: Answer)
      modifies this
      ensures (Store(nonces, receipts), answer) == Accept(old(Store(nonces, receipts)), key, job, nonce, signed,
                                                          received)
      ensures answer == Rejected ==> nonces == old(nonces) && receipts == old(receipts)
      ensures answer == Accepted ==> job.Some? && job.value.active && key !in old(receipts)
      ensures answer != Rejected ==> receipts == old(receipts) + {key} && nonce in nonces
    {
      if key.idempotencyKey != key.job || job.None? || job.value.snapshotHash != key.snapshotHash {
        return Rejected;
      }
      var before := nonces;
      var ok := ConsumeNonce(nonce, received, Expiry(signed, received));
      if !ok {
        nonces := before;
        return Rejected;
      }
      if key in receipts {
        return Duplicate;
      }
      if !job.value.active {
        nonces := before;
        return Rejected;
      }
      receipts := receipts + {key};
      return Accepted;
    }
  }

  // ---- Interleaved requests -----------------------------------------------------------------------------------------

  datatype Request = Request(key: ReceiptKey, nonce: string, signed: nat, received: Time, verified: bool)

  /** A nonce consumed by a committed acceptance, when, for which receipt, and whether the callback
      was accepted or a duplicate. A signature covers the timestamp, the nonce and the body that
      names the receipt, so the same signature means the same three. */
  datatype Use = Use(key: ReceiptKey, nonce: string, signed: nat, at: Time, accepted: bool)

  predicate SameSignature(u: Use, v: Use) {
    u.key == v.key && u.nonce == v.nonce && u.signed == v.signed
  }

  datatype World = World(store: Store, clock: Time, requests: map<nat, Request>, uses: seq<Use>,
                         accepted: seq<ReceiptKey>)

  datatype Step =
    | Arrive(i: nat, at: Time, key: ReceiptKey, nonce: string, signed: nat)
    | Verify(i: nat, at: Time)
    | Finish(i: nat, at: Time, job: Option<JobFacts>)

  const START := World(Store(map[], {}), 0, map[], [], [])

  /** Steps happen at nondecreasing clock readings; a step in the past does not happen. */
  function Next(w: World, s: Step): World {
    if s.at < w.clock then w
    else
      var v := w.(clock := s.at);
      match s
      case Arrive(i, at, key, nonce, signed) =>
        if i in w.requests then v else v.(requests := w.requests[i := Request(key, nonce, signed, at, false)])
      case Verify(i, at) =>
        if i in w.requests && Fresh(w.requests[i].signed, at) && w.requests[i].nonce !in w.store.nonces
        then v.(requests := w.requests[i := w.requests[i].(verified := true)]) else v
      case Finish(i, at, job) =>
        if i !in w.requests || !w.requests[i].verified then v
        else
          var q := w.requests[i];
          var out := Accept(w.store, q.key, job, q.nonce, q.signed, q.received);
          v.(store := out.0, requests := w.requests - {i},
             uses := if out.1.Rejected? then w.uses else w.uses + [Use(q.key, q.nonce, q.signed, at, out.1.Accepted?)],
             accepted := if out.1.Accepted? then w.accepted + [q.key] else w.accepted)
  }

  ghost function RunAll(steps: seq<Step>): World
    decreases |steps|
  {
    if steps == [] then START else Next(RunAll(steps[..|steps| - 1]), steps[|steps| - 1])
  }

  /** A request that arrived is verified exactly while its timestamp is fresh and its nonce unknown. */
  lemma VerifyDecided(w: World, i: nat, at: Time)
    requires at >= w.clock && i in w.requests
    ensures var q, v := w.requests[i], Next(w, Verify(i, at));
      && i in v.requests && v.store == w.store && v.uses == w.uses && v.accepted == w.accepted && v.clock == at
      && v.requests == w.requests[i := q.(verified := v.requests[i].verified)]
      && (v.requests[i].verified <==>
            || q.verified
            || ((q.signed - 300) * 1_000_000 <= at < (q.signed + 301) * 1_000_000 && q.nonce !in w.store.nonces))
  {
    FreshWithin(w.requests[i].signed, at);
  }

  /** A verified request is finished by accepting it, whatever happened since; its use is remembered
      unless it is rejected. */
  lemma FinishDecided(w: World, i: nat, at: Time, job: Option<JobFacts>)
    requires at >= w.clock && i in w.requests && w.requests[i].verified
    ensures var q, v := w.requests[i], Next(w, Finish(i, at, job));
      var (t, answer) := Accept(w.store, q.key, job, q.nonce, q.signed, q.received);
      && v.store == t && v.clock == at && v.requests == w.requests - {i}
      && v.uses == (if answer.Rejected? then w.uses
                    else w.uses + [Use(q.key, q.nonce, q.signed, at, answer.Accepted?)])
      && v.accepted == (if answer.Accepted? then w.accepted + [q.key] else w.accepted)
  {
    hide Accept;
  }

  /** Past the last moment at which a signature with this timestamp could still verify. */
  predicate Stale(signed: nat, at: Time) {
    at >= (signed + MAX_SKEW + 1) * SECOND
  }

  ghost predicate Inv(w: World) {
    && (forall i :: i in w.requests ==>
          w.requests[i].received <= w.clock
            && (w.requests[i].verified ==> !Stale(w.requests[i].signed, w.requests[i].received)))
    && (forall u :: u in w.uses ==>
          u.at <= w.clock && (Stale(u.signed, w.clock)
                              || (u.nonce in w.store.nonces
                                  && w.store.nonces[u.nonce] >= (u.signed + MAX_SKEW + 1) * SECOND)))
    && (forall j, k ::
          0 <= j < k < |w.uses| && w.uses[j].nonce == w.uses[k].nonce && w.uses[j].signed == w.uses[k].signed ==>
          Stale(w.uses[k].signed, w.uses[k].at))
    && (forall key :: key in w.accepted ==> key in w.store.receipts)
    && (forall u :: u in w.uses && u.accepted ==> u.key in w.store.receipts)
    && (forall j, k :: 0 <= j < k < |w.uses| && w.uses[j].accepted && w.uses[k].accepted ==>
          w.uses[j].key != w.uses[k].key)
    && (forall j, k :: 0 <= j < k < |w.accepted| ==> w.accepted[j] != w.accepted[k])
  }

  /** Pruning at a receipt time spares every row that expires later, and consuming refuses rows it spares. */
  lemma ConsumeKeeps(nonces: map<string, Time>, nonce: string, received: Time, expires: Time, other: string)
    requires other in nonces && nonces[other] > received
    ensures other in Consume(nonces, nonce, received, expires).0
    ensures Consume(nonces, nonce, received, expires).0[other] == nonces[other]
    ensures other == nonce ==> !Consume(nonces, nonce, received, expires).1
  {
  }

  lemma AcceptKeeps(s: Store, key: ReceiptKey, job: Option<JobFacts>, nonce: string, signed: nat, received: Time,
                    other: string)
    requires other in s.nonces && s.nonces[other] > received
    ensures var out := Accept(s, key, job, nonce, signed, received);
            other in out.0.nonces && out.0.nonces[other] == s.nonces[other] && (other == nonce ==> out.1.Rejected?)
  {
    hide Consume;
    ConsumeKeeps(s.nonces, nonce, received, Expiry(signed, received), other);
  }

  lemma FinishKeeps(w: World, s: Step)
    requires Inv(w) && s.Finish? && s.at >= w.clock && s.i in w.requests && w.requests[s.i].verified
    ensures Inv(Next(w, s))
  {
    hide Accept;
    var q, v := w.requests[s.i], Next(w, s);
    var out := Accept(w.store, q.key, s.job, q.nonce, q.signed, q.received);
    AcceptFacts(w.store, q.key, s.job, q.nonce, q.signed, q.received);
    forall u | u in v.uses
      ensures u.at <= v.clock
      ensures Stale(u.signed, v.clock)
        || (u.nonce in v.store.nonces && v.store.nonces[u.nonce] >= (u.signed + MAX_SKEW + 1) * SECOND)
    {
      if u in w.uses && !Stale(u.signed, v.clock) {
        AcceptKeeps(w.store, q.key, s.job, q.nonce, q.signed, q.received, u.nonce);
      }
    }
    forall j, k | 0 <= j < k < |v.uses| && v.uses[j].accepted && v.uses[k].accepted
      ensures v.uses[j].key != v.uses[k].key
    {
      if k == |w.uses| {
        assert v.uses[j] in w.uses;
      }
    }
    forall j, k | 0 <= j < k < |v.uses| && v.uses[j].nonce == v.uses[k].nonce && v.uses[j].signed == v.uses[k].signed
      ensures Stale(v.uses[k].signed, v.uses[k].at)
    {
      if k == |w.uses| {
        assert v.uses[j] in w.uses;
        if !Stale(q.signed, s.at) {
          AcceptKeeps(w.store, q.key, s.job, q.nonce, q.signed, q.received, q.nonce);
        }
      }
    }
  }

  lemma AcceptFacts(s: Store, key: ReceiptKey, job: Option<JobFacts>, nonce: string, signed: nat, received: Time)
    ensures var out := Accept(s, key, job, nonce, signed, received);
      && (out.1.Rejected? ==> out.0 == s)
      && (!out.1.Rejected? ==> nonce in out.0.nonces && out.0.nonces[nonce] >= (signed + MAX_SKEW + 1) * SECOND)
      && s.receipts <= out.0.receipts && (out.1.Accepted? ==> key !in s.receipts && key in out.0.receipts)
  {
  }

  lemma StepKeeps(w: World, s: Step)
    requires Inv(w)
    ensures Inv(Next(w, s))
  {
    if s.Finish? && s.at >= w.clock && s.i in w.requests && w.requests[s.i].verified {
      FinishKeeps(w, s);
    }
  }

  lemma {:induction false} RunsKeep(steps: seq<Step>)
    ensures Inv(RunAll(steps))
    decreases |steps|
  {
    hide Next, Inv;
    if steps == [] {
      StartOk();
    } else {
      RunsKeep(steps[..|steps| - 1]);
      StepKeeps(RunAll(steps[..|steps| - 1]), steps[|steps| - 1]);
    }
  }

  lemma StartOk()
    ensures Inv(START)
  {
  }

  /** Among all acceptances that finish while the signature could still verify, each signed
      timestamp and nonce is consumed at most once, although expired nonces are pruned. Each receipt
      key, and so each signature, is accepted at most once, whenever it comes back. Requests that are
      verified and accepted at one clock reading always finish in time. */
  lemma ConsumedOnce(steps: seq<Step>)
    ensures var w := RunAll(steps);
      && (forall j, k ::
            0 <= j < k < |w.uses| && w.uses[j].nonce == w.uses[k].nonce && w.uses[j].signed == w.uses[k].signed ==>
            Stale(w.uses[k].signed, w.uses[k].at))
      && (forall j, k :: 0 <= j < k < |w.accepted| ==> w.accepted[j] != w.accepted[k])
      && (forall j, k :: 0 <= j < k < |w.uses| && SameSignature(w.uses[j], w.uses[k]) ==>
            !(w.uses[j].accepted && w.uses[k].accepted))
    ensures forall signed: nat, at :: Fresh(signed, at) ==> !Stale(signed, at)
  {
    hide Next;
    RunsKeep(steps);
  }

  /** When a signature that was used comes back for an active job, it is let through exactly when its
      nonce row is gone or outlived, and that takes until the signature is stale. */
  lemma ReplayedExactlyWhenPruned(w: World, i: nat, u: Use, job: JobFacts)
    requires Inv(w) && i in w.requests && w.requests[i].verified && u in w.uses
    requires u.nonce == w.requests[i].nonce && u.signed == w.requests[i].signed
    requires
      && w.requests[i].key.idempotencyKey == w.requests[i].key.job
      && job == JobFacts(w.requests[i].key.snapshotHash, true)
    ensures var q := w.requests[i];
      var replayed := !Accept(w.store, q.key, Some(job), q.nonce, q.signed, q.received).1.Rejected?;
      && (replayed <==> q.nonce !in w.store.nonces || w.store.nonces[q.nonce] <= q.received)
      && (replayed ==> Stale(u.signed, w.clock))
  {
  }

  lemma RunMore(steps: seq<Step>, s: Step)
    ensures RunAll(steps + [s]) == Next(RunAll(steps), s)
  {
    assert (steps + [s])[..|steps|] == steps;
  }

  /** A callback for a job of its own, with the hash the job has. */
  function KeyFor(job: string): ReceiptKey {
    ReceiptKey("c", job, "h", job)
  }

  /** Two requests carrying one signature are verified in time; the first is accepted; a third request
      prunes the table once the nonce has expired; and the second then consumes the same nonce again.
      Its receipt exists by then, so it is answered as a duplicate. */
  lemma LateAcceptanceReplays() returns (steps: seq<Step>)
    ensures var w := RunAll(steps);
      && |w.uses| == 3 && SameSignature(w.uses[0], w.uses[2])
      && w.uses[0].accepted && !w.uses[2].accepted && Stale(w.uses[2].signed, w.uses[2].at)
  {
    hide RunAll;
    var job, late := Some(JobFacts("h", true)), 301 * SECOND;
    var first := [Arrive(0, 0, KeyFor("x"), "n", 0), Verify(0, 0), Arrive(1, 0, KeyFor("x"), "n", 0), Verify(1, 0)];
    var w4 := TwoVerified();
    assert RunAll(first) == w4 by { VerifiedTwice(); }
    var second := first + [Finish(0, 0, job)];
    RunMore(first, Finish(0, 0, job));
    var w5 := Next(w4, Finish(0, 0, job));
    assert w5.store.nonces == map["n" := late] && w5.uses == [Use(KeyFor("x"), "n", 0, 0, true)] && 1 in w5.requests;
    var arrive, verify := Arrive(2, late, KeyFor("z"), "m", 301), Verify(2, late);
    RunMore(second, arrive);
    RunMore(second + [arrive], verify);
    var w7 := Next(Next(w5, arrive), verify);
    assert w7.store == w5.store && w7.uses == w5.uses && w7.requests[2].verified;
    var third := second + [arrive] + [verify] + [Finish(2, late, job)];
    RunMore(second + [arrive] + [verify], Finish(2, late, job));
    var w8 := Next(w7, Finish(2, late, job));
    assert "n" !in w8.store.nonces && |w8.uses| == 2 && w8.uses[0] == Use(KeyFor("x"), "n", 0, 0, true);
    assert w8.requests[1] == Request(KeyFor("x"), "n", 0, 0, true) && KeyFor("x") in w8.store.receipts;
    steps := third + [Finish(1, late, job)];
    RunMore(third, Finish(1, late, job));
  }

  /** Two copies of one signed callback have arrived and verified. */
  function TwoVerified(): World {
    var q := Request(KeyFor("x"), "n", 0, 0, true);
    World(Store(map[], {}), 0, map[0 := q, 1 := q], [], [])
  }

  lemma VerifiedTwice()
    ensures RunAll([Arrive(0, 0, KeyFor("x"), "n", 0), Verify(0, 0), Arrive(1, 0, KeyFor("x"), "n", 0), Verify(1, 0)])
         == TwoVerified()
  {
    hide RunAll;
    var a, b, c, d := Arrive(0, 0, KeyFor("x"), "n", 0), Verify(0, 0), Arrive(1, 0, KeyFor("x"), "n", 0), Verify(1, 0);
    assert RunAll([]) == START by { RunNothing(); }
    RunMore([], a);
    RunMore([a], b);
    RunMore([a, b], c);
    RunMore([a, b, c], d);
    assert [] + [a] == [a] && [a] + [b] == [a, b] && [a, b] + [c] == [a, b, c] && [a, b, c] + [d] == [a, b, c, d];
  }

  lemma RunNothing()
    ensures RunAll([]) == START
  {
  }
}
