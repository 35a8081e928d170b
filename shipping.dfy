/** The shipping stage: it consumes payment_completed, logs each raw payload
    as received, decodes it and, for an order, logs that the order is shipped.
    It is terminal: it owns no producer. Its only handler catches
    cancellation, and it sits around the whole loop, so any other exception
    ends the loop instead of skipping the message. */
module Shipping {
  import opened Saga

  /** A line of the shipping log. */
  datatype Entry = Received(payload: string) | Shipped(orderId: string)

  /** A delivery after which the loop goes on: a message whose payload
      Deserialize does not throw on. */
  predicate Survives(d: Delivery, decode: string -> Decoding<ShippingOrder>)
  {
    d.Msg? && !decode(d.payload).Malformed?
  }

  /** The position of the first delivery of `s` that ends the loop, or |s|. */
  function FirstStop(s: seq<Delivery>, decode: string -> Decoding<ShippingOrder>): (n: nat)
    ensures n <= |s|
    ensures forall i :: 0 <= i < n ==> Survives(s[i], decode)
    ensures n < |s| ==> !Survives(s[n], decode)
  {
    if s == [] || !Survives(s[0], decode) then 0 else 1 + FirstStop(s[1..], decode)
  }

  /** The loop stops at the first delivery it does not survive. */
  lemma {:induction false} FirstStopAt(s: seq<Delivery>, k: nat, decode: string -> Decoding<ShippingOrder>)
    requires k < |s| && !Survives(s[k], decode)
    requires forall i :: 0 <= i < k ==> Survives(s[i], decode)
    ensures FirstStop(s, decode) == k
  {
    if k > 0 {
      assert Survives(s[0], decode);
      FirstStopAt(s[1..], k - 1, decode);
    }
  }

  /** How many deliveries ExecuteAsync consumes from `s`: those it survives
      and the one that ends it, if any. */
  function Consumed(s: seq<Delivery>, decode: string -> Decoding<ShippingOrder>): nat
  {
    if FirstStop(s, decode) < |s| then FirstStop(s, decode) + 1 else |s|
  }

  /** What one iteration logs: the raw payload first, then, if it decodes to
      an order, the shipment of that order. A payload that throws is logged
      as received before it throws. */
  function Iteration(d: Delivery, decode: string -> Decoding<ShippingOrder>): seq<Entry>
  {
    if !d.Msg? then []
    else if decode(d.payload).Decoded? then [Received(d.payload), Shipped(decode(d.payload).value.orderId)]
    else [Received(d.payload)]
  }

  /** The log of a loop that consumes `s`. */
  function Entries(s: seq<Delivery>, decode: string -> Decoding<ShippingOrder>): seq<Entry>
  {
    if s == [] then [] else Entries(s[..|s| - 1], decode) + Iteration(s[|s| - 1], decode)
  }

  /** How ExecuteAsync ends when `d` is the delivery that ends its loop:
      only a cancellation is caught; a malformed payload, a consume error,
      a null result (dereferenced) or any other exception faults the worker's Task. */
  function StopEnding(d: Delivery): Ending
  {
    match d
    case Cancelled => CancelCaught
    case ConsumeError => Faulted(ConsumeFault)
    case NullResult => Faulted(NullReference)
    case Unexpected => Faulted(UnexpectedFault)
    case Msg(_, _) => Faulted(JsonFault)
  }

  /** How ExecuteAsync ends when Consume hands it `s`. */
  function EndingOf(s: seq<Delivery>, decode: string -> Decoding<ShippingOrder>): Ending
  {
    var n := FirstStop(s, decode);
    if n == |s| then GuardStopped else StopEnding(s[n])
  }

  // ---------------------------------------------------------------------
  // A reference definition: the ids of the orders that the consumed
  // messages decode to, and the shipments read back from a log.

  /** The ids of the orders the messages of `s` decode to, in consume order. */
  function DecodedIds(s: seq<Delivery>, decode: string -> Decoding<ShippingOrder>): seq<string>
  {
    if s == [] then []
    else
      var d := s[|s| - 1];
      DecodedIds(s[..|s| - 1], decode) +
      (if d.Msg? && decode(d.payload).Decoded? then [decode(d.payload).value.orderId] else [])
  }

  /** The order ids of the Shipped lines of a log, in log order. */
  function Shipments(log: seq<Entry>): seq<string>
  {
    if log == [] then [] else Shipments(log[..|log| - 1]) + (if log[|log| - 1].Shipped? then [log[|log| - 1].orderId] else [])
  }

  /** Shipments distributes over concatenation of logs. */
  lemma {:induction false} ShipmentsAppend(a: seq<Entry>, b: seq<Entry>)
    ensures Shipments(a + b) == Shipments(a) + Shipments(b)
    decreases |b|
  {
    if b != [] {
      var b' := b[..|b| - 1];
      assert (a + b)[..|a + b| - 1] == a + b';
      ShipmentsAppend(a, b');
    } else {
      assert a + b == a;
    }
  }

  /** Exactly one shipment per consumed message that decodes to an order,
      for that order's id, in consume order; null payloads ship nothing. */
  lemma {:induction false} ShipsEveryDecodedOrder(s: seq<Delivery>, decode: string -> Decoding<ShippingOrder>)
    ensures Shipments(Entries(s, decode)) == DecodedIds(s, decode)
  {
    if s != [] {
      var d := s[|s| - 1];
      ShipsEveryDecodedOrder(s[..|s| - 1], decode);
      ShipmentsAppend(Entries(s[..|s| - 1], decode), Iteration(d, decode));
      if d.Msg? && decode(d.payload).Decoded? {
        var it := [Received(d.payload), Shipped(decode(d.payload).value.orderId)];
        var received: seq<Entry> := [Received(d.payload)];
        assert received[..0] == [];
        assert Shipments(received) == [];
        assert it[..1] == received;
        assert Shipments(it) == [decode(d.payload).value.orderId];
      } else if d.Msg? {
        var received: seq<Entry> := [Received(d.payload)];
        assert received[..0] == [];
      }
    }
  }

  /** Every Shipped line directly follows the Received line of a payload
      that decodes to an order with that id. */
  lemma {:induction false} ReceivedBeforeShipped(s: seq<Delivery>, decode: string -> Decoding<ShippingOrder>, j: nat)
    requires j < |Entries(s, decode)| && Entries(s, decode)[j].Shipped?
    ensures 0 < j
    ensures var r := Entries(s, decode)[j - 1];
            r.Received? && decode(r.payload).Decoded? &&
            decode(r.payload).value.orderId == Entries(s, decode)[j].orderId
  {
    var init := s[..|s| - 1];
    var e := Entries(init, decode);
    if j < |e| {
      ReceivedBeforeShipped(init, decode, j);
    }
  }

  /** Unlike the payment stage, a malformed payload ends the shipping loop:
      it is logged as received, the worker's Task faults, and nothing after it is
      consumed. */
  lemma MalformedEndsLoop(s: seq<Delivery>, message: string, produce: ProduceOutcome, rest: seq<Delivery>,
                          decode: string -> Decoding<ShippingOrder>)
    requires forall i :: 0 <= i < |s| ==> Survives(s[i], decode)
    requires decode(message).Malformed?
    ensures var r := s + [Msg(message, produce)] + rest;
            && Consumed(r, decode) == |s| + 1
            && Entries(r[..Consumed(r, decode)], decode) == Entries(s, decode) + [Received(message)]
            && EndingOf(r, decode) == Faulted(JsonFault)
  {
    var m := Msg(message, produce);
    var r := s + [m] + rest;
    assert r[|s|] == m;
    assert forall i :: 0 <= i < |s| ==> r[i] == s[i];
    FirstStopAt(r, |s|, decode);
    var taken := r[..|s| + 1];
    assert taken == s + [m];
    assert taken[..|s|] == s;
    assert Iteration(m, decode) == [Received(message)];
  }

  /** The shipping worker: the consumer of payment_completed and the log. */
  class ShippingWorker {
    /** What the worker has logged. */
    var log: seq<Entry>
    /** How many times the consumer has been closed. */
    var consumerCloses: nat

    constructor ()
      ensures log == [] && consumerCloses == 0
    {
      log, consumerCloses := [], 0;
    }

    /** One pass of the loop body: log the raw payload, decode it, log the
        shipment of a decoded order. Returns the ending that an exception
        leads to, or None when the loop goes on. */
    method Iterate(d: Delivery, decode: string -> Decoding<ShippingOrder>) returns (thrown: Option<Ending>)
      modifies this`log
      ensures log == old(log) + Iteration(d, decode)
      ensures thrown.None? <==> Survives(d, decode)
      ensures thrown.Some? ==> thrown.value == StopEnding(d)
    {
      match d {
        case Cancelled =>
          return Some(CancelCaught);
        case ConsumeError =>
          return Some(Faulted(ConsumeFault));
        case NullResult =>
          return Some(Faulted(NullReference));
        case Unexpected =>
          return Some(Faulted(UnexpectedFault));
        case Msg(message, _) =>
          log := log + [Received(message)];
          var order := decode(message);
          if order.Malformed? {
            return Some(Faulted(JsonFault));
          }
          if order.Decoded? {
            log := log + [Shipped(order.value.orderId)];
          }
          thrown := None;
      }
    }

    /** The consume loop inside its try block. A cancellation is caught and
        closes the consumer; any other exception escapes and faults the Task;
        the loop guard seeing the cancellation request ends it without a
        close. */
    method ExecuteAsync(script: seq<Delivery>, decode: string -> Decoding<ShippingOrder>)
      returns (ending: Ending)
      modifies this
      ensures ending == EndingOf(script, decode)
      ensures log == old(log) + Entries(script[..Consumed(script, decode)], decode)
      ensures consumerCloses == old(consumerCloses) + (if ending == CancelCaught then 1 else 0)
    {
      var i := 0;
      ending := GuardStopped;
      while i < |script|
        invariant i <= FirstStop(script, decode)
        invariant log == old(log) + Entries(script[..i], decode)
        invariant consumerCloses == old(consumerCloses)
      {
        var d := script[i];
        assert script[..i + 1][..i] == script[..i];
        var thrown := Iterate(d, decode);
        i := i + 1;
        if thrown.Some? {
          assert FirstStop(script, decode) == i - 1;
          ending := thrown.value;
          break;
        }
      }
      if ending == CancelCaught {
        consumerCloses := consumerCloses + 1;
      }
    }

    /** Disposing the worker closes the consumer, whatever ExecuteAsync did. */
    method Dispose()
      modifies this
      ensures consumerCloses == old(consumerCloses) + 1
      ensures log == old(log)
    {
      consumerCloses := consumerCloses + 1;
    }
  }
}
