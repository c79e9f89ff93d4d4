/** The listener registry's fan-out, as a value: the events one emission
    produces for an ordered list of listeners. */
module Listeners {
  import opened Values

  /** One emission of `payload`: each listener in `listeners`, in
      registration order, is called once; whether it throws is recorded and
      changes nothing else. */
  function FanOut(listeners: seq<ListenerId>, payload: Payload, throwing: set<ListenerId>): (events: seq<Event>)
  {
    if listeners == [] then []
    else
      var last := listeners[|listeners| - 1];
      FanOut(listeners[..|listeners| - 1], payload, throwing) + [Delivered(last, payload, last in throwing)]
  }

  /** The listeners called, in call order. */
  function Recipients(events: seq<Event>): (ids: seq<ListenerId>)
  {
    if events == [] then []
    else Recipients(events[..|events| - 1]) + [events[|events| - 1].listener]
  }

  /** The i-th call of an emission goes to the i-th registered listener, with
      the payload unchanged; there is exactly one call per listener. */
  lemma {:induction false} FanOutAt(listeners: seq<ListenerId>, payload: Payload, throwing: set<ListenerId>)
    ensures |FanOut(listeners, payload, throwing)| == |listeners|
    ensures forall i :: 0 <= i < |listeners| ==>
      FanOut(listeners, payload, throwing)[i] == Delivered(listeners[i], payload, listeners[i] in throwing)
  {
    if listeners != [] {
      var init := listeners[..|listeners| - 1];
      FanOutAt(init, payload, throwing);
      forall i | 0 <= i < |init| ensures init[i] == listeners[i] { }
    }
  }

  /** Throwing listeners do not cut an emission short: whatever set of
      listeners throws, every registered listener is called, in order. */
  lemma {:induction false} FanOutReachesAll(listeners: seq<ListenerId>, payload: Payload, throwing: set<ListenerId>)
    ensures Recipients(FanOut(listeners, payload, throwing)) == listeners
  {
    if listeners != [] {
      var init := listeners[..|listeners| - 1];
      var last := listeners[|listeners| - 1];
      var before := FanOut(init, payload, throwing);
      var all := before + [Delivered(last, payload, last in throwing)];
      FanOutReachesAll(init, payload, throwing);
      assert all[..|all| - 1] == before;
      assert init + [last] == listeners;
    }
  }
}
