/**
 The notification sink under concurrent callers: one atomic step for each critical section, each
 wait, each HTTP exchange and each unlocked write of a delivery state, interleaved in any order.
 */
module Notifications {
  datatype Status = InFlight | FailedDelivery | Delivered

  /** A `_DeliveryState` object; `key` is the idempotency key it was made for. */
  datatype Delivery = Delivery(key: string, payload: string, status: Status, done: bool)

  datatype Lifecycle = Open | Closing | Closed

  /** Where one thread is inside `send` or `close`. `id` names the delivery state it refers to. */
  datatype Local =
    | Outside
    | Entered(key: string, payload: string)                 // counted as an active send
    | Admitted(key: string, payload: string)                // holds a request slot
    | Waiting(key: string, payload: string, id: nat)        // another thread owns the delivery
    | Owner(key: string, payload: string, id: nat)          // this thread owns it
    | Sending(key: string, payload: string, id: nat)        // holds a transport slot
    | Calling(key: string, payload: string, id: nat)        // the HTTP request is out
    | Finishing(key: string, payload: string, id: nat, ok: bool)
    | Marked(key: string, payload: string, id: nat, ok: bool)
    | Leaving(slot: bool)
    | CloseWaiting                                          // the closer, waiting for active sends to leave
    | CloseDone                                             // the closer, about to publish the closed state
    | CloseJoining                                          // a later closer, waiting for that state

  datatype Limits = Limits(tracked: nat, pending: nat, transport: nat)

  /** `calls` and `receipts` are histories of HTTP requests started and receipts returned; `acked`
      holds the key and payload pairs that a 202 or 204 response acknowledged. */
  datatype Sink = Sink(
    events: map<string, nat>, states: map<nat, Delivery>, nextId: nat,
    requests: nat, transports: nat, active: nat, lifecycle: Lifecycle, clientClosed: bool, threads: map<nat, Local>,
    calls: seq<(string, string)>, acked: set<(string, string)>, receipts: set<(string, string)>)

  const START := Sink(map[], map[], 0, 0, 0, 0, Open, false, map[], [], {}, {})

  function LocalOf(s: Sink, r: nat): Local {
    if r in s.threads then s.threads[r] else Outside
  }

  predicate InSend(l: Local) {
    !l.Outside? && !l.CloseWaiting? && !l.CloseDone? && !l.CloseJoining?
  }

  predicate HasSlot(l: Local) {
    InSend(l) && !l.Entered? && (l.Leaving? ==> l.slot)
  }

  predicate HasTransport(l: Local) {
    l.Sending? || l.Calling?
  }

  /** The thread is between claiming a delivery and marking its outcome. */
  predicate Owns(l: Local) {
    l.Owner? || l.Sending? || l.Calling? || l.Finishing?
  }

  datatype Step =
    | Enter(r: nat, key: string, payload: string)
    | Admit(r: nat)
    | Refuse(r: nat)                         // the event is not in the approved catalog
    | Decide(r: nat, clockOk: bool)          // the critical section over the event table
    | Wake(r: nat, clockOk: bool)            // the wait ended because the owner signalled
    | TimeOut(r: nat)
    | TakeTransport(r: nat)
    | Call(r: nat)
    | Respond(r: nat, ok: bool)              // the exchange, or what precedes it, succeeded or failed
    | Mark(r: nat)
    | Signal(r: nat, raised: bool, released: bool)
    | Leave(r: nat)
    | BeginClose(r: nat)
    | CloseClient(r: nat)
    | EndClose(r: nat)
    | JoinClose(r: nat)                      // `close` while another thread is closing
    | EndJoin(r: nat)

  function Goes(s: Sink, r: nat, l: Local): Sink {
    s.(threads := s.threads[r := l])
  }

  /** Track a new delivery for the key and own it. */
  function Own(s: Sink, r: nat, key: string, payload: string): Sink {
    Goes(s.(events := s.events[key := s.nextId],
            states := s.states[s.nextId := Delivery(key, payload, InFlight, false)], nextId := s.nextId + 1),
         r, Owner(key, payload, s.nextId))
  }

  function Receipted(s: Sink, r: nat, key: string, payload: string, clockOk: bool): Sink {
    Goes(if clockOk then s.(receipts := s.receipts + {(key, payload)}) else s, r, Leaving(true))
  }

  /** The body of `with self._delivery_lock`. */
  function DecideStep(lim: Limits, s: Sink, r: nat, key: string, payload: string, clockOk: bool): Sink {
    if key !in s.events || s.events[key] !in s.states then
      if |s.events| >= lim.tracked then Goes(s, r, Leaving(true)) else Own(s, r, key, payload)
    else
      var d := s.states[s.events[key]];
      if d.payload != payload then Goes(s, r, Leaving(true))
      else match d.status
        case Delivered => Receipted(s, r, key, payload, clockOk)
        case InFlight => Goes(s, r, Waiting(key, payload, s.events[key]))
        case FailedDelivery => Own(s, r, key, payload)
  }

  /** The outcome of a delivery, written by its owner. */
  function WithOutcome(s: Sink, id: nat, ok: bool): Sink
    requires id in s.states
  {
    s.(states := s.states[id := s.states[id].(status := if ok then Delivered else FailedDelivery)])
  }

  function Next(lim: Limits, s: Sink, step: Step): Sink {
    var r, l := step.r, LocalOf(s, step.r);
    match step
    case Enter(_, key, payload) =>
      if l.Outside? && s.lifecycle.Open? then Goes(s.(active := s.active + 1), r, Entered(key, payload)) else s
    case Admit(_) =>
      if !l.Entered? then s
      else if s.requests < lim.pending then Goes(s.(requests := s.requests + 1), r, Admitted(l.key, l.payload))
      else Goes(s, r, Leaving(false))
    case Refuse(_) => if l.Admitted? then Goes(s, r, Leaving(true)) else s
    case Decide(_, clockOk) => if l.Admitted? then DecideStep(lim, s, r, l.key, l.payload, clockOk) else s
    case Wake(_, clockOk) =>
      if !l.Waiting? || l.id !in s.states || !s.states[l.id].done then s
      else if s.states[l.id].status.Delivered? then Receipted(s, r, l.key, l.payload, clockOk)
      else Goes(s, r, Leaving(true))
    case TimeOut(_) => if l.Waiting? then Goes(s, r, Leaving(true)) else s
    case TakeTransport(_) =>
      if !l.Owner? then s
      else if s.transports < lim.transport
        then Goes(s.(transports := s.transports + 1), r, Sending(l.key, l.payload, l.id))
      else Goes(s, r, Finishing(l.key, l.payload, l.id, false))
    case Call(_) =>
      if l.Sending? && !s.clientClosed
        then Goes(s.(calls := s.calls + [(l.key, l.payload)]), r, Calling(l.key, l.payload, l.id)) else s
    case Respond(_, ok) =>
      if !HasTransport(l) || s.transports == 0 then s
      else
        var acked := ok && l.Calling?;
        Goes(s.(transports := s.transports - 1, acked := if acked then s.acked + {(l.key, l.payload)} else s.acked),
             r, Finishing(l.key, l.payload, l.id, acked))
    case Mark(_) =>
      if !l.Finishing? || l.id !in s.states then s
      else Goes(WithOutcome(s, l.id, l.ok), r, Marked(l.key, l.payload, l.id, l.ok))
    case Signal(_, raised, released) =>
      if !l.Marked? || l.id !in s.states then s
      else if raised then Goes(s, r, Leaving(true))
      else
        var t := s.(states := s.states[l.id := s.states[l.id].(done := true)]);
        Receipted(t, r, l.key, l.payload, l.ok && released)
    case Leave(_) =>
      if !l.Leaving? || s.active == 0 || (l.slot && s.requests == 0) then s
      else Goes(s.(active := s.active - 1, requests := if l.slot then s.requests - 1 else s.requests), r, Outside)
    case BeginClose(_) => if l.Outside? && s.lifecycle.Open? then Goes(s.(lifecycle := Closing), r, CloseWaiting) else s
    case CloseClient(_) => if l.CloseWaiting? && s.active == 0 then Goes(s.(clientClosed := true), r, CloseDone) else s
    case EndClose(_) => if l.CloseDone? then Goes(s.(lifecycle := Closed), r, Outside) else s
    case JoinClose(_) => if l.Outside? && s.lifecycle.Closing? then Goes(s, r, CloseJoining) else s
    case EndJoin(_) => if l.CloseJoining? && s.lifecycle.Closed? then Goes(s, r, Outside) else s
  }

  ghost function RunAll(lim: Limits, steps: seq<Step>): Sink
    decreases |steps|
  {
    if steps == [] then START else Next(lim, RunAll(lim, steps[..|steps| - 1]), steps[|steps| - 1])
  }

  // ---- Counting threads ---------------------------------------------------------------------------------------------

  ghost function Where(threads: map<nat, Local>, p: Local -> bool): set<nat> {
    set r | r in threads && p(threads[r])
  }

  ghost predicate Counts(s: Sink) {
    && s.active == |Where(s.threads, InSend)|
    && s.requests == |Where(s.threads, HasSlot)|
    && s.transports == |Where(s.threads, HasTransport)|
  }

  /** Moving one thread changes each count by whether it was counted before and is after. */
  lemma Recount(threads: map<nat, Local>, r: nat, l: Local, p: Local -> bool)
    requires !p(Outside)
    ensures |Where(threads[r := l], p)| ==
            |Where(threads, p)| - (if r in threads && p(threads[r]) then 1 else 0) + (if p(l) then 1 else 0)
  {
    var before, after := Where(threads, p), Where(threads[r := l], p);
    assert after - {r} == before - {r};
    assert r in after <==> p(l);
    Without(before, r);
    Without(after, r);
  }

  lemma Without(s: set<nat>, r: nat)
    ensures |s| == |s - {r}| + if r in s then 1 else 0
  {
    if r in s {
      assert s == s - {r} + {r};
    } else {
      assert s == s - {r};
    }
  }

  // ---- The invariant ------------------------------------------------------------------------------------------------

  ghost predicate StatesOk(s: Sink) {
    && (forall key :: key in s.events ==> s.events[key] in s.states && s.states[s.events[key]].key == key)
    && (forall id :: id in s.states ==> id < s.nextId)
    && (forall id :: id in s.states && s.states[id].status.Delivered? ==>
          (s.states[id].key, s.states[id].payload) in s.acked)
    && (forall pair :: pair in s.receipts ==> pair in s.acked)
  }

  /** What a thread knows about the delivery it refers to. */
  ghost predicate LocalOk(s: Sink, l: Local) {
    && (Owns(l) || l.Waiting? || l.Marked? ==>
          l.id in s.states && s.states[l.id].key == l.key && s.states[l.id].payload == l.payload)
    && (Owns(l) ==> l.key in s.events && s.events[l.key] == l.id && s.states[l.id].status.InFlight?)
    && ((l.Finishing? || l.Marked?) && l.ok ==> (l.key, l.payload) in s.acked)
  }

  /** No two threads own the same delivery. */
  ghost predicate OneOwner(s: Sink) {
    forall q, r ::
      && q in s.threads && r in s.threads && Owns(s.threads[q]) && Owns(s.threads[r])
      && s.threads[q].id == s.threads[r].id
      ==> q == r
  }

  function Bit(b: bool): int {
    if b then 1 else 0
  }

  /** One thread moves and the counters follow. */
  lemma GoesCounts(s: Sink, t: Sink, r: nat, l: Local)
    requires Counts(s) && t.threads == s.threads
    requires t.active == s.active - Bit(InSend(LocalOf(s, r))) + Bit(InSend(l))
    requires t.requests == s.requests - Bit(HasSlot(LocalOf(s, r))) + Bit(HasSlot(l))
    requires t.transports == s.transports - Bit(HasTransport(LocalOf(s, r))) + Bit(HasTransport(l))
    ensures Counts(Goes(t, r, l))
  {
    Recount(s.threads, r, l, InSend);
    Recount(s.threads, r, l, HasSlot);
    Recount(s.threads, r, l, HasTransport);
  }

  /** A counted thread makes its counter positive. */
  lemma Counted(s: Sink, r: nat)
    requires Counts(s)
    ensures InSend(LocalOf(s, r)) ==> s.active > 0
    ensures HasSlot(LocalOf(s, r)) ==> s.requests > 0
    ensures HasTransport(LocalOf(s, r)) ==> s.transports > 0
  {
    if r in s.threads {
      assert InSend(s.threads[r]) ==> r in Where(s.threads, InSend);
      assert HasSlot(s.threads[r]) ==> r in Where(s.threads, HasSlot);
      assert HasTransport(s.threads[r]) ==> r in Where(s.threads, HasTransport);
    }
  }

  /** The counters that a step changes, if it changes anything. */
  ghost predicate CountersFollow(s: Sink, t: Sink, r: nat) {
    t == s ||
    (&& r in t.threads && t.threads == s.threads[r := t.threads[r]]
     && t.active == s.active - Bit(InSend(LocalOf(s, r))) + Bit(InSend(t.threads[r]))
     && t.requests == s.requests - Bit(HasSlot(LocalOf(s, r))) + Bit(HasSlot(t.threads[r]))
     && t.transports == s.transports - Bit(HasTransport(LocalOf(s, r))) + Bit(HasTransport(t.threads[r])))
  }

  lemma GoesFollows(s: Sink, t: Sink, r: nat, l: Local)
    requires t.threads == s.threads
    requires t.active == s.active - Bit(InSend(LocalOf(s, r))) + Bit(InSend(l))
    requires t.requests == s.requests - Bit(HasSlot(LocalOf(s, r))) + Bit(HasSlot(l))
    requires t.transports == s.transports - Bit(HasTransport(LocalOf(s, r))) + Bit(HasTransport(l))
    ensures CountersFollow(s, Goes(t, r, l), r)
  {
    hide InSend, HasSlot, HasTransport;
    assert Goes(t, r, l).threads[r] == l;
  }

  lemma DecideFollows(lim: Limits, s: Sink, r: nat, clockOk: bool)
    requires LocalOf(s, r).Admitted?
    ensures CountersFollow(s, DecideStep(lim, s, r, LocalOf(s, r).key, LocalOf(s, r).payload, clockOk), r)
  {
    hide Goes, CountersFollow;
    forall t: Sink, l: Local
      | t.threads == s.threads && t.active == s.active && t.requests == s.requests && t.transports == s.transports
        && HasSlot(l) && !HasTransport(l)
      ensures CountersFollow(s, Goes(t, r, l), r)
    {
      GoesFollows(s, t, r, l);
    }
  }

  /** Steps that only pass a delivery along. */
  predicate Inner(step: Step) {
    step.Wake? || step.TimeOut? || step.TakeTransport? || step.Call? || step.Respond? || step.Mark? || step.Signal?
  }

  lemma InnerFollows(lim: Limits, s: Sink, step: Step)
    requires Inner(step)
    ensures CountersFollow(s, Next(lim, s, step), step.r)
  {
    hide DecideStep, Goes, CountersFollow;
    Unmoved(s, step.r);
    forall t: Sink, l: Local
      | t.threads == s.threads && t.active == s.active - Bit(InSend(LocalOf(s, step.r))) + Bit(InSend(l))
        && t.requests == s.requests - Bit(HasSlot(LocalOf(s, step.r))) + Bit(HasSlot(l))
        && t.transports == s.transports - Bit(HasTransport(LocalOf(s, step.r))) + Bit(HasTransport(l))
      ensures CountersFollow(s, Goes(t, step.r, l), step.r)
    {
      GoesFollows(s, t, step.r, l);
    }
  }

  lemma Unmoved(s: Sink, r: nat)
    ensures CountersFollow(s, s, r)
  {
  }

  lemma StepFollows(lim: Limits, s: Sink, step: Step)
    ensures CountersFollow(s, Next(lim, s, step), step.r)
  {
    hide DecideStep, Goes, CountersFollow;
    Unmoved(s, step.r);
    if Inner(step) {
      hide Next;
      InnerFollows(lim, s, step);
    } else if step.Decide? {
      if LocalOf(s, step.r).Admitted? {
        DecideFollows(lim, s, step.r, step.clockOk);
      }
    } else {
      forall t: Sink, l: Local
        | t.threads == s.threads && t.active == s.active - Bit(InSend(LocalOf(s, step.r))) + Bit(InSend(l))
          && t.requests == s.requests - Bit(HasSlot(LocalOf(s, step.r))) + Bit(HasSlot(l))
          && t.transports == s.transports - Bit(HasTransport(LocalOf(s, step.r))) + Bit(HasTransport(l))
        ensures CountersFollow(s, Goes(t, step.r, l), step.r)
      {
        GoesFollows(s, t, step.r, l);
      }
    }
  }

  lemma StepCounts(lim: Limits, s: Sink, step: Step)
    requires Counts(s)
    ensures Counts(Next(lim, s, step))
  {
    hide Counts, Next;
    StepFollows(lim, s, step);
    var t := Next(lim, s, step);
    if t != s {
      GoesCounts(s, t.(threads := s.threads), step.r, t.threads[step.r]);
      assert Goes(t.(threads := s.threads), step.r, t.threads[step.r]) == t;
    }
  }

  // ---- Deliveries and their owners ----------------------------------------------------------------------------------

  ghost predicate Core(s: Sink) {
    StatesOk(s) && OneOwner(s) && forall r :: r in s.threads ==> LocalOk(s, s.threads[r])
  }

  /** Same deliveries; acknowledgements and receipts may grow, receipts only where acknowledged. */
  ghost predicate SameDeliveries(s: Sink, t: Sink) {
    && t.events == s.events && t.states == s.states && t.nextId == s.nextId && t.threads == s.threads
    && s.acked <= t.acked && forall pair :: pair in t.receipts ==> pair in t.acked
  }

  /** A thread moves on, owning nothing it did not own. */
  lemma MoveCore(s: Sink, t: Sink, r: nat, l: Local)
    requires Core(s) && SameDeliveries(s, t) && LocalOk(t, l)
    requires Owns(l) ==> Owns(LocalOf(s, r)) && LocalOf(s, r).id == l.id
    ensures Core(Goes(t, r, l))
  {
    var u := Goes(t, r, l);
    forall q | q in u.threads ensures LocalOk(u, u.threads[q]) {
      if q != r {
        assert LocalOk(s, s.threads[q]);
      }
      assert LocalOk(t, u.threads[q]);
    }
  }

  /** Owning a key that is untracked or whose delivery failed. */
  lemma OwnCore(s: Sink, r: nat, key: string, payload: string)
    requires Core(s)
    requires key in s.events ==> s.events[key] in s.states && !s.states[s.events[key]].status.InFlight?
    ensures Core(Own(s, r, key, payload))
  {
    var u := Own(s, r, key, payload);
    forall q | q in u.threads ensures LocalOk(u, u.threads[q]) {
      if q != r {
        assert LocalOk(s, s.threads[q]);
      }
    }
    forall q, p | q in u.threads && p in u.threads && Owns(u.threads[q]) && Owns(u.threads[p])
      && u.threads[q].id == u.threads[p].id
      ensures q == p
    {
      if q != r {
        assert LocalOk(s, s.threads[q]);
      }
      if p != r {
        assert LocalOk(s, s.threads[p]);
      }
    }
  }

  /** The owner writes the outcome. */
  lemma MarkCore(s: Sink, r: nat)
    requires Core(s) && LocalOf(s, r).Finishing?
    ensures var l := LocalOf(s, r);
      l.id in s.states && Core(Goes(WithOutcome(s, l.id, l.ok), r, Marked(l.key, l.payload, l.id, l.ok)))
  {
    var l := LocalOf(s, r);
    assert LocalOk(s, s.threads[r]);
    var u := Goes(WithOutcome(s, l.id, l.ok), r, Marked(l.key, l.payload, l.id, l.ok));
    forall q | q in u.threads ensures LocalOk(u, u.threads[q]) {
      if q != r {
        assert LocalOk(s, s.threads[q]);
      }
    }
  }

  /** Setting a `done` flag. */
  lemma DoneCore(s: Sink, id: nat)
    requires Core(s) && id in s.states
    ensures Core(s.(states := s.states[id := s.states[id].(done := true)]))
  {
    var u := s.(states := s.states[id := s.states[id].(done := true)]);
    forall q | q in u.threads ensures LocalOk(u, u.threads[q]) {
      assert LocalOk(s, s.threads[q]);
    }
  }

  /** A receipt for an acknowledged delivery. */
  lemma ReceiptCore(s: Sink, r: nat, key: string, payload: string, clockOk: bool)
    requires Core(s) && (clockOk ==> (key, payload) in s.acked)
    ensures Core(Receipted(s, r, key, payload, clockOk))
  {
    hide Core;
    CoreReceipts(s);
    MoveCore(s, if clockOk then s.(receipts := s.receipts + {(key, payload)}) else s, r, Leaving(true));
  }

  lemma CoreReceipts(s: Sink)
    requires Core(s)
    ensures forall pair :: pair in s.receipts ==> pair in s.acked
  {
  }

  lemma DecideCore(lim: Limits, s: Sink, r: nat, clockOk: bool)
    requires Core(s) && LocalOf(s, r).Admitted?
    ensures Core(DecideStep(lim, s, r, LocalOf(s, r).key, LocalOf(s, r).payload, clockOk))
  {
    hide Core, Own, Receipted, LocalOk;
    var l := LocalOf(s, r);
    CoreReceipts(s);
    Easy(s);
    MoveCore(s, s, r, Leaving(true));
    if l.key !in s.events {
      OwnCore(s, r, l.key, l.payload);
    } else {
      Tracked(s, l.key);
      var d := s.states[s.events[l.key]];
      if d.payload == l.payload {
        match d.status
        case Delivered => ReceiptCore(s, r, l.key, l.payload, clockOk);
        case InFlight => MoveCore(s, s, r, Waiting(l.key, l.payload, s.events[l.key]));
        case FailedDelivery => OwnCore(s, r, l.key, l.payload);
      }
    }
  }

  /** What the table says about a tracked key. */
  lemma Tracked(s: Sink, key: string)
    requires Core(s) && key in s.events
    ensures s.events[key] in s.states
    ensures var d := s.states[s.events[key]];
            d.key == key && (d.status.Delivered? ==> (key, d.payload) in s.acked)
              && LocalOk(s, Waiting(key, d.payload, s.events[key]))
  {
  }

  /** A thread that refers to no delivery knows nothing that could break. */
  lemma Easy(s: Sink)
    ensures forall l :: !Owns(l) && !l.Waiting? && !l.Marked? ==> LocalOk(s, l)
  {
  }

  lemma Known(s: Sink, r: nat)
    requires Core(s)
    ensures LocalOk(s, LocalOf(s, r))
  {
  }

  lemma StepCore(lim: Limits, s: Sink, step: Step)
    requires Core(s)
    ensures Core(Next(lim, s, step))
  {
    hide Core, DecideStep, LocalOk, Receipted, Own;
    var r, l := step.r, LocalOf(s, step.r);
    CoreReceipts(s);
    Easy(s);
    Known(s, r);
    match step
    case Decide(_, clockOk) => if l.Admitted? { DecideCore(lim, s, r, clockOk); }
    case Wake(_, clockOk) => if l.Waiting? && l.id in s.states { WakeCore(s, r, clockOk); }
    case Mark(_) => if l.Finishing? { MarkCore(s, r); }
    case Signal(_, raised, released) => if l.Marked? && l.id in s.states { SignalCore(s, r, raised, released); }
    case Respond(_, ok) => if HasTransport(l) && s.transports > 0 { RespondCore(s, r, ok); }
    case TakeTransport(_) => if l.Owner? { OwnerMoves(s, r); }
    case Call(_) => if l.Sending? { OwnerMoves(s, r); }
    case _ => PlainCore(lim, s, step);
  }

  predicate Plain(step: Step) {
    || step.Enter? || step.Admit? || step.Refuse? || step.TimeOut? || step.Leave?
    || step.BeginClose? || step.CloseClient? || step.EndClose? || step.JoinClose? || step.EndJoin?
  }

  lemma PlainCore(lim: Limits, s: Sink, step: Step)
    requires Core(s) && Plain(step)
    ensures Core(Next(lim, s, step))
  {
    hide Core, LocalOk;
    var t := Next(lim, s, step);
    CoreReceipts(s);
    if t != s {
      var u := t.(threads := s.threads);
      Easy(u);
      MoveCore(s, u, step.r, t.threads[step.r]);
      assert t == Goes(u, step.r, t.threads[step.r]);
    }
  }

  lemma WakeCore(s: Sink, r: nat, clockOk: bool)
    requires Core(s) && LocalOf(s, r).Waiting? && LocalOf(s, r).id in s.states
    ensures var l := LocalOf(s, r);
      && (s.states[l.id].status.Delivered? ==> Core(Receipted(s, r, l.key, l.payload, clockOk)))
      && Core(Goes(s, r, Leaving(true)))
  {
    hide OneOwner, Receipted;
    var l := LocalOf(s, r);
    Known(s, r);
    CoreReceipts(s);
    if s.states[l.id].status.Delivered? {
      ReceiptCore(s, r, l.key, l.payload, clockOk);
    }
    MoveCore(s, s, r, Leaving(true));
  }

  lemma SignalCore(s: Sink, r: nat, raised: bool, released: bool)
    requires Core(s) && LocalOf(s, r).Marked? && LocalOf(s, r).id in s.states
    ensures var l := LocalOf(s, r);
      && Core(Goes(s, r, Leaving(true)))
      && Core(Receipted(s.(states := s.states[l.id := s.states[l.id].(done := true)]), r, l.key, l.payload,
                        l.ok && released))
  {
    hide OneOwner, Receipted, StatesOk;
    var l := LocalOf(s, r);
    Known(s, r);
    CoreReceipts(s);
    MoveCore(s, s, r, Leaving(true));
    DoneCore(s, l.id);
    ReceiptCore(s.(states := s.states[l.id := s.states[l.id].(done := true)]), r, l.key, l.payload, l.ok && released);
  }

  lemma RespondCore(s: Sink, r: nat, ok: bool)
    requires Core(s) && HasTransport(LocalOf(s, r)) && s.transports > 0
    ensures var l := LocalOf(s, r); var acked := ok && l.Calling?;
      Core(Goes(s.(transports := s.transports - 1, acked := if acked then s.acked + {(l.key, l.payload)} else s.acked),
                r, Finishing(l.key, l.payload, l.id, acked)))
  {
    hide OneOwner, StatesOk;
    var l := LocalOf(s, r);
    var acked := ok && l.Calling?;
    Known(s, r);
    CoreReceipts(s);
    MoveCore(s, s.(transports := s.transports - 1, acked := if acked then s.acked + {(l.key, l.payload)} else s.acked),
             r, Finishing(l.key, l.payload, l.id, acked));
  }

  /** The owner takes a transport slot, gives up, or sends. */
  lemma OwnerMoves(s: Sink, r: nat)
    requires Core(s) && Owns(LocalOf(s, r))
    ensures var l := LocalOf(s, r);
      && Core(Goes(s.(transports := s.transports + 1), r, Sending(l.key, l.payload, l.id)))
      && Core(Goes(s, r, Finishing(l.key, l.payload, l.id, false)))
      && Core(Goes(s.(calls := s.calls + [(l.key, l.payload)]), r, Calling(l.key, l.payload, l.id)))
  {
    hide OneOwner, StatesOk;
    var l := LocalOf(s, r);
    Known(s, r);
    CoreReceipts(s);
    MoveCore(s, s.(transports := s.transports + 1), r, Sending(l.key, l.payload, l.id));
    MoveCore(s, s, r, Finishing(l.key, l.payload, l.id, false));
    MoveCore(s, s.(calls := s.calls + [(l.key, l.payload)]), r, Calling(l.key, l.payload, l.id));
  }

  // ---- Bounds and the draining close --------------------------------------------------------------------------------

  ghost predicate Bounded(lim: Limits, s: Sink) {
    |s.events| <= lim.tracked && s.requests <= lim.pending && s.transports <= lim.transport
  }

  ghost predicate Draining(s: Sink) {
    && (s.clientClosed ==> s.active == 0 && !s.lifecycle.Open?)
    && (s.lifecycle.Closed? ==> s.clientClosed)
    && (forall r :: r in s.threads && s.threads[r].CloseDone? ==> s.clientClosed)
    && (forall r :: r in s.threads && s.threads[r].CloseWaiting? ==> !s.lifecycle.Open?)
  }

  lemma DecideBounds(lim: Limits, s: Sink, r: nat, clockOk: bool)
    requires Core(s) && Bounded(lim, s) && LocalOf(s, r).Admitted?
    ensures Bounded(lim, DecideStep(lim, s, r, LocalOf(s, r).key, LocalOf(s, r).payload, clockOk))
  {
    hide Core, LocalOk;
    var l := LocalOf(s, r);
    if l.key in s.events {
      Tracked(s, l.key);
    }
    UpdatedSize(s.events, l.key, s.nextId);
  }

  lemma UpdatedSize(m: map<string, nat>, key: string, id: nat)
    ensures |m[key := id]| == |m| + if key in m then 0 else 1
  {
    if key in m {
      assert m[key := id].Keys == m.Keys;
    } else {
      assert m[key := id].Keys == m.Keys + {key};
      assert |m[key := id].Keys| == |m.Keys| + 1;
    }
    assert |m| == |m.Keys| && |m[key := id]| == |m[key := id].Keys|;
  }

  lemma StepBounds(lim: Limits, s: Sink, step: Step)
    requires Core(s) && Bounded(lim, s)
    ensures Bounded(lim, Next(lim, s, step))
  {
    hide Core, DecideStep;
    if step.Decide? && LocalOf(s, step.r).Admitted? {
      DecideBounds(lim, s, step.r, step.clockOk);
    }
  }

  /** The critical section touches neither the counters nor the lifecycle. */
  lemma DecideDrains(lim: Limits, s: Sink, r: nat, clockOk: bool)
    requires LocalOf(s, r).Admitted?
    ensures var t := DecideStep(lim, s, r, LocalOf(s, r).key, LocalOf(s, r).payload, clockOk);
      && t.active == s.active && t.lifecycle == s.lifecycle && t.clientClosed == s.clientClosed && t.calls == s.calls
      && r in t.threads && t.threads == s.threads[r := t.threads[r]] && InSend(t.threads[r])
  {
  }

  lemma StepDrains(lim: Limits, s: Sink, step: Step)
    requires Draining(s) && Counts(s)
    ensures Draining(Next(lim, s, step))
  {
    hide Counts, DecideStep;
    Counted(s, step.r);
    if step.Decide? && LocalOf(s, step.r).Admitted? {
      DecideDrains(lim, s, step.r, step.clockOk);
    }
  }

  ghost predicate Inv(lim: Limits, s: Sink) {
    Core(s) && Counts(s) && Bounded(lim, s) && Draining(s)
  }

  lemma {:induction false} RunsKeep(lim: Limits, steps: seq<Step>)
    ensures Inv(lim, RunAll(lim, steps))
    decreases |steps|
  {
    hide Next, Core, Counts, Bounded, Draining;
    if steps == [] {
      StartOk(lim);
    } else {
      RunsKeep(lim, steps[..|steps| - 1]);
      var s, step := RunAll(lim, steps[..|steps| - 1]), steps[|steps| - 1];
      StepCore(lim, s, step);
      StepCounts(lim, s, step);
      StepBounds(lim, s, step);
      StepDrains(lim, s, step);
    }
  }

  lemma StartOk(lim: Limits)
    ensures Inv(lim, START)
  {
    assert Where(START.threads, InSend) == {};
    assert Where(START.threads, HasSlot) == {};
    assert Where(START.threads, HasTransport) == {};
  }

  // ---- The promises of the sink -------------------------------------------------------------------------------------

  /** In every reachable state: no two threads deliver one key, receipts only report acknowledged
      payloads, the tables stay within their bounds, and the client is closed only once no send is
      active. */
  lemma SinkIsSafe(lim: Limits, steps: seq<Step>, q: nat, r: nat)
    ensures var s := RunAll(lim, steps);
      && (q != r && Owns(LocalOf(s, q)) && Owns(LocalOf(s, r)) ==> LocalOf(s, q).key != LocalOf(s, r).key)
      && s.receipts <= s.acked
      && |s.events| <= lim.tracked && s.requests <= lim.pending && s.transports <= lim.transport
      && (s.clientClosed ==> !InSend(LocalOf(s, r)))
      && (s.lifecycle.Closed? ==> s.clientClosed)
  {
    hide Next;
    RunsKeep(lim, steps);
    var s := RunAll(lim, steps);
    Counted(s, r);
    Known(s, q);
    Known(s, r);
  }

  /** A delivered key is settled: no later step changes its entry or payload or starts another
      request for it. */
  lemma DeliveredIsFinal(lim: Limits, s: Sink, step: Step, key: string)
    requires Inv(lim, s) && key in s.events && s.events[key] in s.states && s.states[s.events[key]].status.Delivered?
    ensures var t := Next(lim, s, step);
      && key in t.events && t.events[key] == s.events[key] && t.events[key] in t.states
      && t.states[t.events[key]].status.Delivered? && t.states[t.events[key]].payload == s.states[s.events[key]].payload
      && (t.calls == s.calls || (t.calls == s.calls + [t.calls[|s.calls|]] && t.calls[|s.calls|].0 != key))
  {
    hide Counts, Bounded, Draining, OneOwner, StatesOk, Next;
    var l := LocalOf(s, step.r);
    Known(s, step.r);
    if step.Decide? && l.Admitted? {
      DecideSettled(lim, s, step.r, step.clockOk, key);
      NextDecides(lim, s, step);
    } else {
      SettledElsewhere(lim, s, step, key);
    }
  }

  lemma SettledElsewhere(lim: Limits, s: Sink, step: Step, key: string)
    requires LocalOk(s, LocalOf(s, step.r)) && !(step.Decide? && LocalOf(s, step.r).Admitted?)
    requires key in s.events && s.events[key] in s.states && s.states[s.events[key]].status.Delivered?
    ensures var t := Next(lim, s, step);
      && t.events == s.events && s.events[key] in t.states
      && t.states[s.events[key]].(done := false) == s.states[s.events[key]].(done := false)
      && (t.calls == s.calls || (t.calls == s.calls + [t.calls[|s.calls|]] && t.calls[|s.calls|].0 != key))
  {
    hide DecideStep, Receipted;
    Receipts(s, step.r);
  }

  lemma Receipts(s: Sink, r: nat)
    ensures forall t: Sink, key: string, payload: string, ok: bool ::
      var u := Receipted(t, r, key, payload, ok); u.events == t.events && u.states == t.states && u.calls == t.calls
  {
  }

  lemma NextDecides(lim: Limits, s: Sink, step: Step)
    requires step.Decide? && LocalOf(s, step.r).Admitted?
    ensures Next(lim, s, step) == DecideStep(lim, s, step.r, LocalOf(s, step.r).key, LocalOf(s, step.r).payload,
                                             step.clockOk)
  {
  }

  lemma NewIdUnused(s: Sink)
    requires Core(s)
    ensures s.nextId !in s.states
  {
  }

  lemma DecideSettled(lim: Limits, s: Sink, r: nat, clockOk: bool, key: string)
    requires
      && Core(s) && LocalOf(s, r).Admitted? && key in s.events && s.events[key] in s.states
      && s.states[s.events[key]].status.Delivered?
    ensures var t := DecideStep(lim, s, r, LocalOf(s, r).key, LocalOf(s, r).payload, clockOk);
      && key in t.events && t.events[key] == s.events[key] && s.events[key] in t.states
      && t.states[s.events[key]] == s.states[s.events[key]] && t.calls == s.calls
  {
    NewIdUnused(s);
  }

  /** The payload hash of a key never changes, whatever happens to its deliveries. */
  lemma PayloadIsFixed(lim: Limits, s: Sink, step: Step, key: string)
    requires Inv(lim, s) && key in s.events
    ensures var t := Next(lim, s, step);
      && key in t.events && s.events[key] in s.states && t.events[key] in t.states
      && t.states[t.events[key]].payload == s.states[s.events[key]].payload
  {
    hide Counts, Bounded, Draining, Core, LocalOk, InSend, HasSlot, HasTransport;
    Tracked(s, key);
    NewIdUnused(s);
    if step.Decide? && LocalOf(s, step.r).Admitted? {
      hide Next;
      NextDecides(lim, s, step);
    } else {
      hide DecideStep;
    }
  }

  /** After the client is closed no request is ever started and no send is admitted. */
  lemma ClosedIsSilent(lim: Limits, s: Sink, step: Step)
    requires Inv(lim, s) && s.clientClosed
    ensures var t := Next(lim, s, step); t.clientClosed && t.calls == s.calls && t.active == 0
  {
    hide Core, Counts, Bounded, DecideStep;
    Counted(s, step.r);
  }
}
