/**
 One `send` or `close` of the notification sink taken by itself, from any state the other threads left
 behind: what it starts, stores and answers when no other thread steps in between.
 */
module NotificationSends {
  import opened Notifications

  /** The thread is free, the sink is open, and a request slot is left. */
  predicate MayEnter(lim: Limits, s: Sink, r: nat) {
    LocalOf(s, r).Outside? && s.lifecycle.Open? && s.requests < lim.pending
  }

  /** The sink as the thread has entered and holds a slot. */
  function Inside(s: Sink, r: nat, key: string, payload: string): Sink {
    s.(active := s.active + 1, requests := s.requests + 1, threads := s.threads[r := Admitted(key, payload)])
  }

  lemma Enters(lim: Limits, s: Sink, r: nat, key: string, payload: string)
    requires MayEnter(lim, s, r)
    ensures Next(lim, Next(lim, s, Enter(r, key, payload)), Admit(r)) == Inside(s, r, key, payload)
  {
  }

  /** Leaving gives the slot back. */
  lemma Leaves(lim: Limits, s: Sink, t: Sink, r: nat)
    requires t.active == s.active + 1 && t.requests == s.requests + 1
    requires LocalOf(t, r) == Leaving(true) && t.threads == s.threads[r := Leaving(true)]
    ensures Next(lim, t, Leave(r))
         == t.(active := s.active, requests := s.requests, threads := s.threads[r := Outside])
  {
    assert t.threads[r := Outside] == s.threads[r := Outside];
  }

  /** A key that is not tracked and can be, or whose last delivery failed with this payload. */
  predicate MayDeliver(lim: Limits, s: Sink, key: string, payload: string) {
    if key in s.events && s.events[key] in s.states then
      var d := s.states[s.events[key]];
      d.payload == payload && d.status.FailedDelivery?
    else |s.events| < lim.tracked
  }

  /** The sink with a new delivery of the key, owned by the thread. */
  function Owning(s: Sink, r: nat, key: string, payload: string, status: Status, done: bool): Sink {
    s.(events := s.events[key := s.nextId],
       states := s.states[s.nextId := Delivery(key, payload, status, done)], nextId := s.nextId + 1)
  }

  lemma Decides(lim: Limits, s: Sink, r: nat, key: string, payload: string, clockOk: bool)
    requires MayDeliver(lim, s, key, payload)
    ensures Next(lim, Inside(s, r, key, payload), Decide(r, clockOk))
         == Inside(Owning(s, r, key, payload, InFlight, false), r, key, payload)
            .(threads := s.threads[r := Owner(key, payload, s.nextId)])
  {
    assert s.threads[r := Admitted(key, payload)][r := Owner(key, payload, s.nextId)]
        == s.threads[r := Owner(key, payload, s.nextId)];
  }

  /** The HTTP exchange of the owner: a transport slot is taken and given back around one request. */
  lemma Exchanges(lim: Limits, o: Sink, r: nat, key: string, payload: string, id: nat, ok: bool)
    requires LocalOf(o, r) == Owner(key, payload, id) && o.transports < lim.transport && !o.clientClosed
    ensures Next(lim, Next(lim, Next(lim, o, TakeTransport(r)), Call(r)), Respond(r, ok))
         == o.(threads := o.threads[r := Finishing(key, payload, id, ok)], calls := o.calls + [(key, payload)],
               acked := if ok then o.acked + {(key, payload)} else o.acked)
  {
    var a := Next(lim, o, TakeTransport(r));
    assert a == o.(transports := o.transports + 1, threads := o.threads[r := Sending(key, payload, id)]);
    var b := Next(lim, a, Call(r));
    assert o.threads[r := Sending(key, payload, id)][r := Calling(key, payload, id)]
        == o.threads[r := Calling(key, payload, id)];
    assert o.threads[r := Calling(key, payload, id)][r := Finishing(key, payload, id, ok)]
        == o.threads[r := Finishing(key, payload, id, ok)];
  }

  /** The owner stores the outcome of its delivery, then signals it, and answers. */
  lemma Marks(lim: Limits, o: Sink, r: nat, key: string, payload: string, id: nat, ok: bool, raised: bool,
              released: bool)
    requires LocalOf(o, r) == Finishing(key, payload, id, ok) && id in o.states
    ensures Next(lim, Next(lim, o, Mark(r)), Signal(r, raised, released))
         == o.(threads := o.threads[r := Leaving(true)],
               states := o.states[id := o.states[id].(status := if ok then Delivered else FailedDelivery,
                                                      done := o.states[id].done || !raised)],
               receipts := if ok && released && !raised then o.receipts + {(key, payload)} else o.receipts)
  {
    var d := o.states[id].(status := if ok then Delivered else FailedDelivery);
    var a := Next(lim, o, Mark(r));
    assert a == o.(states := o.states[id := d], threads := o.threads[r := Marked(key, payload, id, ok)]);
    assert o.threads[r := Marked(key, payload, id, ok)][r := Leaving(true)] == o.threads[r := Leaving(true)];
    assert o.states[id := d][id := d.(done := true)] == o.states[id := d.(done := true)];
  }

  // ---- Sends --------------------------------------------------------------------------------------------------------

  /** A send that delivers: enter, take a slot, decide, exchange, mark, signal, leave. */
  function Send(lim: Limits, s: Sink, r: nat, key: string, payload: string, ok: bool, released: bool): Sink {
    var decided := Next(lim, Next(lim, Next(lim, s, Enter(r, key, payload)), Admit(r)), Decide(r, true));
    var responded := Next(lim, Next(lim, Next(lim, decided, TakeTransport(r)), Call(r)), Respond(r, ok));
    Next(lim, Next(lim, Next(lim, responded, Mark(r)), Signal(r, false, released)), Leave(r))
  }

  /** One call for the payload goes out, under a delivery of its own; if it succeeds it is acknowledged,
      stored as delivered and answered with a receipt, and otherwise it is stored as failed without
      one. All slots are free again. */
  lemma SendDelivers(lim: Limits, s: Sink, r: nat, key: string, payload: string, ok: bool, released: bool)
    requires MayEnter(lim, s, r) && MayDeliver(lim, s, key, payload)
    requires s.transports < lim.transport && !s.clientClosed
    ensures var d := Delivery(key, payload, if ok then Delivered else FailedDelivery, true);
      Send(lim, s, r, key, payload, ok, released)
      == s.(events := s.events[key := s.nextId], states := s.states[s.nextId := d], nextId := s.nextId + 1,
            threads := s.threads[r := Outside], calls := s.calls + [(key, payload)],
            acked := if ok then s.acked + {(key, payload)} else s.acked,
            receipts := if ok && released then s.receipts + {(key, payload)} else s.receipts)
  {
    hide Next, MayEnter, MayDeliver;
    Enters(lim, s, r, key, payload);
    Decides(lim, s, r, key, payload, true);
    var id := s.nextId;
    var o := Inside(Owning(s, r, key, payload, InFlight, false), r, key, payload)
             .(threads := s.threads[r := Owner(key, payload, id)]);
    Exchanges(lim, o, r, key, payload, id, ok);
    var f := o.(threads := o.threads[r := Finishing(key, payload, id, ok)], calls := o.calls + [(key, payload)],
                acked := if ok then o.acked + {(key, payload)} else o.acked);
    Marks(lim, f, r, key, payload, id, ok, false, released);
    var t := Next(lim, Next(lim, f, Mark(r)), Signal(r, false, released));
    assert t.threads == s.threads[r := Leaving(true)];
    assert t.states == s.states[id := Delivery(key, payload, if ok then Delivered else FailedDelivery, true)];
    Leaves(lim, s, t, r);
  }

  /** Without a transport slot nothing goes out, and the delivery is stored as failed. */
  lemma SendWithoutTransport(lim: Limits, s: Sink, r: nat, key: string, payload: string)
    requires MayEnter(lim, s, r) && MayDeliver(lim, s, key, payload) && s.transports >= lim.transport
    ensures var decided := Next(lim, Next(lim, Next(lim, s, Enter(r, key, payload)), Admit(r)), Decide(r, true));
      var marked := Next(lim, Next(lim, decided, TakeTransport(r)), Mark(r));
      Next(lim, Next(lim, marked, Signal(r, false, true)), Leave(r))
      == Owning(s, r, key, payload, FailedDelivery, true).(threads := s.threads[r := Outside])
  {
    hide MayEnter, MayDeliver, Next;
    Enters(lim, s, r, key, payload);
    Decides(lim, s, r, key, payload, true);
    var id := s.nextId;
    var o := Inside(Owning(s, r, key, payload, InFlight, false), r, key, payload)
             .(threads := s.threads[r := Owner(key, payload, id)]);
    NoTransport(lim, o, r, key, payload, id);
    var f := o.(threads := o.threads[r := Finishing(key, payload, id, false)]);
    Marks(lim, f, r, key, payload, id, false, false, true);
    var t := Next(lim, Next(lim, f, Mark(r)), Signal(r, false, true));
    assert t.threads == s.threads[r := Leaving(true)];
    assert t.states == s.states[id := Delivery(key, payload, FailedDelivery, true)];
    Leaves(lim, s, t, r);
  }

  lemma NoTransport(lim: Limits, o: Sink, r: nat, key: string, payload: string, id: nat)
    requires LocalOf(o, r) == Owner(key, payload, id) && o.transports >= lim.transport
    ensures Next(lim, o, TakeTransport(r)) == o.(threads := o.threads[r := Finishing(key, payload, id, false)])
  {
  }

  /** A send that does not deliver: it enters, takes a slot, decides, and leaves. */
  function Ask(lim: Limits, s: Sink, r: nat, key: string, payload: string, clockOk: bool): Sink {
    var decided := Next(lim, Next(lim, Next(lim, s, Enter(r, key, payload)), Admit(r)), Decide(r, clockOk));
    Next(lim, decided, Leave(r))
  }

  /** A payload that was delivered under its key is answered with a receipt again, and nothing goes out;
      another payload under the key, or a new key beyond the limit, is refused; neither leaves a
      trace. */
  lemma SendAnswers(lim: Limits, s: Sink, r: nat, key: string, payload: string, clockOk: bool)
    requires MayEnter(lim, s, r) && !MayDeliver(lim, s, key, payload)
    requires
      key in s.events && s.events[key] in s.states && s.states[s.events[key]].payload == payload
      ==> s.states[s.events[key]].status.Delivered?
    ensures var tracked := key in s.events && s.events[key] in s.states;
      var repeats := tracked && s.states[s.events[key]].payload == payload && clockOk;
      Ask(lim, s, r, key, payload, clockOk)
      == s.(threads := s.threads[r := Outside],
            receipts := if repeats then s.receipts + {(key, payload)} else s.receipts)
  {
    Enters(lim, s, r, key, payload);
    var i := Inside(s, r, key, payload);
    var t := Next(lim, i, Decide(r, clockOk));
    assert i.threads[r := Leaving(true)] == s.threads[r := Leaving(true)];
    hide MayEnter;
    Leaves(lim, s, t, r);
  }

  /** A payload that another thread is delivering is waited for. */
  lemma SendWaits(lim: Limits, s: Sink, r: nat, key: string, payload: string, clockOk: bool)
    requires MayEnter(lim, s, r) && key in s.events && s.events[key] in s.states
    requires var d := s.states[s.events[key]]; d.payload == payload && d.status.InFlight?
    ensures Next(lim, Next(lim, Next(lim, s, Enter(r, key, payload)), Admit(r)), Decide(r, clockOk))
         == Inside(s, r, key, payload).(threads := s.threads[r := Waiting(key, payload, s.events[key])])
  {
    Enters(lim, s, r, key, payload);
    assert s.threads[r := Admitted(key, payload)][r := Waiting(key, payload, s.events[key])]
        == s.threads[r := Waiting(key, payload, s.events[key])];
  }

  /** A waiting thread is woken by the signal alone, and answers with a receipt exactly if the delivery
      it waited for succeeded and the clock can be read; it may also give up at any time. */
  lemma WaitDecided(lim: Limits, s: Sink, r: nat, clockOk: bool)
    requires LocalOf(s, r).Waiting? && LocalOf(s, r).id in s.states
    ensures var l, d := LocalOf(s, r), s.states[LocalOf(s, r).id];
      && Next(lim, s, Wake(r, clockOk))
      == (if !d.done then s
          else s.(threads := s.threads[r := Leaving(true)],
                  receipts := if d.status.Delivered? && clockOk then s.receipts + {(l.key, l.payload)}
                    else s.receipts))
      && Next(lim, s, TimeOut(r)) == s.(threads := s.threads[r := Leaving(true)])
  {
  }

  /** Without a request slot a send is turned away; once closing has begun, or the event is not in the
      catalog, it is refused. */
  lemma SendRefused(lim: Limits, s: Sink, r: nat, key: string, payload: string)
    requires LocalOf(s, r).Outside?
    ensures !s.lifecycle.Open? ==> Next(lim, s, Enter(r, key, payload)) == s
    ensures s.lifecycle.Open? && s.requests >= lim.pending ==>
      Next(lim, Next(lim, Next(lim, s, Enter(r, key, payload)), Admit(r)), Leave(r))
      == s.(threads := s.threads[r := Outside])
    ensures MayEnter(lim, s, r) ==>
      var i := Inside(s, r, key, payload);
      Next(lim, Next(lim, i, Refuse(r)), Leave(r)) == s.(threads := s.threads[r := Outside])
  {
    if s.lifecycle.Open? && s.requests >= lim.pending {
      Turned(lim, s, r, key, payload);
    }
    if MayEnter(lim, s, r) {
      var t := Next(lim, Inside(s, r, key, payload), Refuse(r));
      assert t.threads == s.threads[r := Leaving(true)];
      hide Next;
      Leaves(lim, s, t, r);
    }
  }

  lemma Turned(lim: Limits, s: Sink, r: nat, key: string, payload: string)
    requires LocalOf(s, r).Outside? && s.lifecycle.Open? && s.requests >= lim.pending
    ensures Next(lim, Next(lim, Next(lim, s, Enter(r, key, payload)), Admit(r)), Leave(r))
         == s.(threads := s.threads[r := Outside])
  {
    var a := Next(lim, s, Enter(r, key, payload));
    var b := Next(lim, a, Admit(r));
    assert b == s.(active := s.active + 1, threads := s.threads[r := Leaving(false)]);
    assert b.threads[r := Outside] == s.threads[r := Outside];
  }

  // ---- Closing ------------------------------------------------------------------------------------------------------

  /** Closing a sink nobody is sending through closes the client and publishes it. */
  lemma CloseAlone(lim: Limits, s: Sink, r: nat)
    requires LocalOf(s, r).Outside? && s.lifecycle.Open? && s.active == 0
    ensures Next(lim, Next(lim, Next(lim, s, BeginClose(r)), CloseClient(r)), EndClose(r))
         == s.(lifecycle := Closed, clientClosed := true, threads := s.threads[r := Outside])
  {
    var a := Next(lim, s, BeginClose(r));
    var b := Next(lim, a, CloseClient(r));
    assert b.threads[r := Outside] == s.threads[r := Outside];
  }

  /** The client stays open while a send is active, and a second closer waits until the first is done. */
  lemma CloseWaits(lim: Limits, s: Sink, r: nat)
    ensures LocalOf(s, r).CloseWaiting? && s.active > 0 ==> Next(lim, s, CloseClient(r)) == s
    ensures LocalOf(s, r).Outside? && s.lifecycle.Closing? ==>
      Next(lim, s, JoinClose(r)) == s.(threads := s.threads[r := CloseJoining])
    ensures LocalOf(s, r).CloseJoining? ==>
      Next(lim, s, EndJoin(r)) == if s.lifecycle.Closed? then s.(threads := s.threads[r := Outside]) else s
  {
  }
}
