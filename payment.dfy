/** The payment stage: it consumes order_created, applies the one business
    rule of the saga (an amount above 300 fails) and publishes the order,
    re-serialised, to payment_completed or payment_failed. Its loop catches
    every exception except cancellation and goes on with the next message. */
module Payment {
  import opened Saga

  /** Orders whose amount is above this fail payment; the comparison is strict. */
  const FailureThreshold: Int32 := 300

  /** The two topics the payment stage publishes to. */
  datatype Topic = PaymentCompleted | PaymentFailed

  /** The topic ProcessPayment chooses for a decoded order. */
  function Route(o: Order): Topic
  {
    if o.amount > FailureThreshold then PaymentFailed else PaymentCompleted
  }

  /** What ProcessPayment does with one message: publish it, or stop at a
      rejected Produce, a null order or a JsonException (each logged). */
  datatype Handling =
    | Published(topic: Topic, payload: string)
    | ProduceError(topic: Topic)
    | InvalidOrder
    | JsonError

  /** ProcessPayment on one message, as a value. A message is published
      exactly when it decodes to an order and the broker accepts it; the
      payload is the serialisation of the decoded order, unchanged; the topic
      is payment_failed exactly when the amount is above 300. */
  function Handle(message: string, produce: ProduceOutcome,
                  decode: string -> Decoding<Order>, encode: Order -> string): (h: Handling)
    ensures h.Published? <==> decode(message).Decoded? && produce == Accepted
    ensures h.ProduceError? <==> decode(message).Decoded? && produce == Rejected
    ensures h.InvalidOrder? <==> decode(message).JsonNull?
    ensures h.JsonError? <==> decode(message).Malformed?
    ensures decode(message).Decoded? ==>
      (h.topic == PaymentFailed <==> decode(message).value.amount > 300) &&
      (h.Published? ==> h.payload == encode(decode(message).value))
  {
    match decode(message)
    case Malformed => JsonError
    case JsonNull => InvalidOrder
    case Decoded(order) =>
      match produce
      case Accepted => Published(Route(order), encode(order))
      case Rejected => ProduceError(Route(order))
  }

  /** The payloads one handled message appends to `topic`. */
  function Emitted(h: Handling, topic: Topic): seq<string>
  {
    if h.Published? && h.topic == topic then [h.payload] else []
  }

  /** What one iteration of the consume loop logs. An iteration whose Consume
      returns null logs nothing and has no entry. */
  datatype Step =
    | Processed(handling: Handling)
    | ConsumeFailed
    | UnexpectedError
    | ShuttingDown

  /** The entry of the iteration that consumes `d`, which is not a null result. */
  function StepOf(d: Delivery, decode: string -> Decoding<Order>, encode: Order -> string): Step
    requires !d.NullResult?
  {
    match d
    case Msg(message, produce) => Processed(Handle(message, produce, decode, encode))
    case ConsumeError => ConsumeFailed
    case Unexpected => UnexpectedError
    case Cancelled => ShuttingDown
  }

  /** The log of a loop that consumes `s`: one entry per delivery that is not
      a null result, in consume order. With no null result in `s`, entry i
      is the entry of delivery i. */
  function Trace(s: seq<Delivery>, decode: string -> Decoding<Order>, encode: Order -> string): (t: seq<Step>)
    ensures |t| <= |s|
    ensures (forall i :: 0 <= i < |s| ==> !s[i].NullResult?) ==>
              |t| == |s| && forall i :: 0 <= i < |s| ==> t[i] == StepOf(s[i], decode, encode)
  {
    if s == [] then []
    else
      var d := s[|s| - 1];
      Trace(s[..|s| - 1], decode, encode) + (if d.NullResult? then [] else [StepOf(d, decode, encode)])
  }

  /** Trace distributes over concatenation. */
  lemma {:induction false} TraceAppend(a: seq<Delivery>, b: seq<Delivery>,
                                       decode: string -> Decoding<Order>, encode: Order -> string)
    ensures Trace(a + b, decode, encode) == Trace(a, decode, encode) + Trace(b, decode, encode)
    decreases |b|
  {
    if b == [] {
      assert a + b == a;
    } else {
      assert (a + b)[..|a + b| - 1] == a + b[..|b| - 1];
      TraceAppend(a, b[..|b| - 1], decode, encode);
    }
  }

  /** The payloads a loop that consumes `s` appends to `topic`. */
  function SentOn(s: seq<Delivery>, decode: string -> Decoding<Order>, encode: Order -> string, topic: Topic): seq<string>
  {
    if s == [] then []
    else
      var d := s[|s| - 1];
      SentOn(s[..|s| - 1], decode, encode, topic) +
      (if d.Msg? then Emitted(Handle(d.payload, d.produce, decode, encode), topic) else [])
  }

  /** The position of the first cancellation in `s`, or |s| if there is none. */
  function FirstCancel(s: seq<Delivery>): (n: nat)
    ensures n <= |s|
    ensures forall i :: 0 <= i < n ==> !s[i].Cancelled?
    ensures n < |s| ==> s[n].Cancelled?
  {
    if s == [] || s[0].Cancelled? then 0 else 1 + FirstCancel(s[1..])
  }

  /** How many deliveries ExecuteAsync consumes from `s`: everything up to and
      including the first cancellation. */
  function Consumed(s: seq<Delivery>): nat
  {
    if FirstCancel(s) < |s| then FirstCancel(s) + 1 else |s|
  }

  /** What ExecuteAsync publishes to `topic` when Consume hands it `s`. */
  function Outputs(s: seq<Delivery>, decode: string -> Decoding<Order>, encode: Order -> string, topic: Topic): seq<string>
  {
    SentOn(s[..FirstCancel(s)], decode, encode, topic)
  }

  // ---------------------------------------------------------------------
  // A reference definition, independent of Handle: the orders that reach a
  // successful Produce, and the serialisations each topic should receive.

  /** The decoded orders of the messages in `s` whose publish the broker
      accepts, in consume order. */
  function Routed(s: seq<Delivery>, decode: string -> Decoding<Order>): seq<Order>
  {
    if s == [] then []
    else
      var d := s[|s| - 1];
      Routed(s[..|s| - 1], decode) +
      (if d.Msg? && d.produce == Accepted && decode(d.payload).Decoded?
       then [decode(d.payload).value] else [])
  }

  /** The serialisations of the orders in `os` that belong on `topic`:
      amounts above 300 on payment_failed, the others on payment_completed. */
  function Expected(os: seq<Order>, topic: Topic, encode: Order -> string): seq<string>
  {
    if os == [] then []
    else
      var o := os[|os| - 1];
      Expected(os[..|os| - 1], topic, encode) +
      (if (o.amount > 300) == (topic == PaymentFailed) then [encode(o)] else [])
  }

  /** Each topic receives exactly the serialisations of the orders routed to
      it, one per order, in consume order. */
  lemma {:induction false} SentIsExpected(s: seq<Delivery>, decode: string -> Decoding<Order>,
                                          encode: Order -> string, topic: Topic)
    ensures SentOn(s, decode, encode, topic) == Expected(Routed(s, decode), topic, encode)
  {
    if s != [] {
      var init, d := s[..|s| - 1], s[|s| - 1];
      SentIsExpected(init, decode, encode, topic);
      if d.Msg? && d.produce == Accepted && decode(d.payload).Decoded? {
        var o := decode(d.payload).value;
        var os := Routed(init, decode) + [o];
        assert os[..|os| - 1] == Routed(init, decode);
        assert Routed(s, decode) == os;
        assert Emitted(Handle(d.payload, d.produce, decode, encode), topic)
            == if (o.amount > 300) == (topic == PaymentFailed) then [encode(o)] else [];
      } else {
        assert Routed(s, decode) == Routed(init, decode);
        assert d.Msg? ==> Emitted(Handle(d.payload, d.produce, decode, encode), topic) == [];
      }
    }
  }

  /** Every routed order lands on exactly one of the two topics. */
  lemma {:induction false} ExpectedPartitions(os: seq<Order>, encode: Order -> string)
    ensures |Expected(os, PaymentCompleted, encode)| + |Expected(os, PaymentFailed, encode)| == |os|
  {
    if os != [] {
      ExpectedPartitions(os[..|os| - 1], encode);
    }
  }

  /** The two outputs of a run partition the routed orders of what it consumed. */
  lemma OutputsPartition(s: seq<Delivery>, decode: string -> Decoding<Order>, encode: Order -> string)
    ensures |Outputs(s, decode, encode, PaymentCompleted)| + |Outputs(s, decode, encode, PaymentFailed)|
         == |Routed(s[..FirstCancel(s)], decode)|
  {
    var run := s[..FirstCancel(s)];
    SentIsExpected(run, decode, encode, PaymentCompleted);
    SentIsExpected(run, decode, encode, PaymentFailed);
    ExpectedPartitions(Routed(run, decode), encode);
  }

  /** SentOn distributes over concatenation. */
  lemma {:induction false} SentOnAppend(a: seq<Delivery>, b: seq<Delivery>, decode: string -> Decoding<Order>,
                                        encode: Order -> string, topic: Topic)
    ensures SentOn(a + b, decode, encode, topic) == SentOn(a, decode, encode, topic) + SentOn(b, decode, encode, topic)
    decreases |b|
  {
    if b == [] {
      assert a + b == a;
    } else {
      assert (a + b)[..|a + b| - 1] == a + b[..|b| - 1];
      SentOnAppend(a, b[..|b| - 1], decode, encode, topic);
    }
  }

  /** A message that does not decode to an order publishes nothing, wherever
      it is consumed: inserting it anywhere in the input leaves both topics
      as they would otherwise be. */
  lemma UndecodableSendsNothing(a: seq<Delivery>, message: string, produce: ProduceOutcome, b: seq<Delivery>,
                                decode: string -> Decoding<Order>, encode: Order -> string)
    requires !decode(message).Decoded?
    ensures forall t :: SentOn(a + [Msg(message, produce)] + b, decode, encode, t) == SentOn(a + b, decode, encode, t)
  {
    var m := [Msg(message, produce)];
    assert m[..0] == [];
    forall t
      ensures SentOn(a + m + b, decode, encode, t) == SentOn(a + b, decode, encode, t)
    {
      SentOnAppend(a + m, b, decode, encode, t);
      SentOnAppend(a, m, decode, encode, t);
      SentOnAppend(a, b, decode, encode, t);
    }
  }

  /** Consume returning null is silent: a null result inserted anywhere in
      the input changes neither the log nor what is published. */
  lemma NullResultIsSilent(a: seq<Delivery>, b: seq<Delivery>,
                           decode: string -> Decoding<Order>, encode: Order -> string)
    ensures Trace(a + [NullResult] + b, decode, encode) == Trace(a + b, decode, encode)
    ensures forall t :: SentOn(a + [NullResult] + b, decode, encode, t) == SentOn(a + b, decode, encode, t)
  {
    var n := [NullResult];
    assert n[..0] == [];
    TraceAppend(a + n, b, decode, encode);
    TraceAppend(a, n, decode, encode);
    TraceAppend(a, b, decode, encode);
    forall t
      ensures SentOn(a + n + b, decode, encode, t) == SentOn(a + b, decode, encode, t)
    {
      SentOnAppend(a + n, b, decode, encode, t);
      SentOnAppend(a, n, decode, encode, t);
      SentOnAppend(a, b, decode, encode, t);
    }
  }

  /** What the loop has published after any prefix of `s` is a prefix of
      what it publishes after all of `s`. */
  lemma {:induction false} SentGrows(s: seq<Delivery>, i: nat, decode: string -> Decoding<Order>,
                                     encode: Order -> string, topic: Topic)
    requires i <= |s|
    ensures SentOn(s[..i], decode, encode, topic) <= SentOn(s, decode, encode, topic)
    decreases |s| - i
  {
    if i < |s| {
      var init := s[..|s| - 1];
      assert init[..i] == s[..i];
      SentGrows(init, i, decode, encode, topic);
    } else {
      assert s[..i] == s;
    }
  }

  /** The message at position i, if it decodes to an order the broker
      accepts, is published once, at the next free position of its own
      topic, and adds nothing to the other topic. */
  lemma PublishedAt(s: seq<Delivery>, i: nat, decode: string -> Decoding<Order>, encode: Order -> string)
    requires i < |s| && s[i].Msg? && s[i].produce == Accepted && decode(s[i].payload).Decoded?
    ensures var o := decode(s[i].payload).value;
            var k := |SentOn(s[..i], decode, encode, Route(o))|;
            && SentOn(s[..i + 1], decode, encode, Route(o)) == SentOn(s[..i], decode, encode, Route(o)) + [encode(o)]
            && k < |SentOn(s, decode, encode, Route(o))|
            && SentOn(s, decode, encode, Route(o))[k] == encode(o)
    ensures forall t :: t != Route(decode(s[i].payload).value) ==>
              SentOn(s[..i + 1], decode, encode, t) == SentOn(s[..i], decode, encode, t)
  {
    var o := decode(s[i].payload).value;
    assert s[..i + 1][..i] == s[..i];
    SentGrows(s, i + 1, decode, encode, Route(o));
  }

  /** Order preservation: two accepted orders routed to the same topic are
      published there in the order they were consumed. */
  lemma OrderPreserved(s: seq<Delivery>, i: nat, j: nat, decode: string -> Decoding<Order>,
                       encode: Order -> string)
    requires i < j < |s|
    requires s[i].Msg? && s[i].produce == Accepted && decode(s[i].payload).Decoded?
    requires s[j].Msg? && s[j].produce == Accepted && decode(s[j].payload).Decoded?
    requires Route(decode(s[i].payload).value) == Route(decode(s[j].payload).value)
    ensures var t := Route(decode(s[i].payload).value);
            var out := SentOn(s, decode, encode, t);
            var a := |SentOn(s[..i], decode, encode, t)|;
            var b := |SentOn(s[..j], decode, encode, t)|;
            a < b < |out| && out[a] == encode(decode(s[i].payload).value)
                          && out[b] == encode(decode(s[j].payload).value)
  {
    var t := Route(decode(s[i].payload).value);
    PublishedAt(s, i, decode, encode);
    PublishedAt(s, j, decode, encode);
    assert s[..j][..i + 1] == s[..i + 1];
    SentGrows(s[..j], i + 1, decode, encode, t);
  }

  /** The loop runs until the first cancellation and no further: without a
      cancellation it consumes everything, and what follows a cancellation is
      never consumed or published. */
  lemma CancellationEndsLoop(s: seq<Delivery>, rest: seq<Delivery>,
                             decode: string -> Decoding<Order>, encode: Order -> string)
    requires forall i :: 0 <= i < |s| ==> !s[i].Cancelled?
    ensures Consumed(s) == |s|
    ensures Consumed(s + [Cancelled] + rest) == |s| + 1
    ensures forall t :: Outputs(s + [Cancelled] + rest, decode, encode, t) == Outputs(s, decode, encode, t)
  {
    var r := s + [Cancelled] + rest;
    assert r[|s|].Cancelled?;
    assert FirstCancel(r) == |s|;
    assert r[..|s|] == s;
    assert s[..|s|] == s;
  }

  /** No deduplication: the worker keeps no per-message state, so a message
      consumed twice is published twice. */
  lemma ReplayPublishesTwice(s: seq<Delivery>, message: string,
                             decode: string -> Decoding<Order>, encode: Order -> string)
    requires forall i :: 0 <= i < |s| ==> !s[i].Cancelled?
    requires decode(message).Decoded?
    ensures var o := decode(message).value;
            var replayed := s + [Msg(message, Accepted), Msg(message, Accepted)];
            forall t :: Outputs(replayed, decode, encode, t)
                     == Outputs(s, decode, encode, t) + (if t == Route(o) then [encode(o), encode(o)] else [])
  {
    var m := Msg(message, Accepted);
    var once := s + [m];
    var replayed := once + [m];
    assert replayed == s + [m, m];
    CancellationEndsLoop(s, [], decode, encode);
    CancellationEndsLoop(replayed, [], decode, encode);
    assert replayed[..|replayed|] == replayed;
    assert s[..|s|] == s;
    assert replayed[..|replayed| - 1] == once;
    assert once[..|once| - 1] == s;
    forall t
      ensures Outputs(replayed, decode, encode, t)
           == Outputs(s, decode, encode, t) + (if t == Route(decode(message).value) then [encode(decode(message).value), encode(decode(message).value)] else [])
    {
      assert SentOn(once, decode, encode, t) == SentOn(s, decode, encode, t) + Emitted(Handle(message, Accepted, decode, encode), t);
      assert SentOn(replayed, decode, encode, t) == SentOn(once, decode, encode, t) + Emitted(Handle(message, Accepted, decode, encode), t);
    }
  }

  /** The payment worker: the consumer of order_created, the two producers,
      and what the worker has logged and published. */
  class PaymentWorker {
    /** payment_completed, as this worker's success producer has appended to it. */
    var paymentCompleted: seq<string>
    /** payment_failed, as this worker's failure producer has appended to it. */
    var paymentFailed: seq<string>
    /** What the loop has logged: one entry per iteration whose Consume did
        not return null. */
    var log: seq<Step>
    /** How many times the consumer has been closed. */
    var consumerCloses: nat
    /** How many times each producer has been disposed. */
    var successDisposals: nat
    var failureDisposals: nat

    constructor ()
      ensures paymentCompleted == [] && paymentFailed == [] && log == []
      ensures consumerCloses == 0 && successDisposals == 0 && failureDisposals == 0
    {
      paymentCompleted, paymentFailed, log := [], [], [];
      consumerCloses, successDisposals, failureDisposals := 0, 0, 0;
    }

    /** Decode one message, route it on its amount and publish it. A
        JsonException or a ProduceException is caught here. */
    method ProcessPayment(message: string, produce: ProduceOutcome,
                          decode: string -> Decoding<Order>, encode: Order -> string)
      returns (h: Handling)
      modifies this`paymentCompleted, this`paymentFailed
      ensures h == Handle(message, produce, decode, encode)
      ensures paymentCompleted == old(paymentCompleted) + Emitted(h, PaymentCompleted)
      ensures paymentFailed == old(paymentFailed) + Emitted(h, PaymentFailed)
    {
      var decoded := decode(message);
      if decoded.Malformed? {
        return JsonError;
      }
      if decoded.JsonNull? {
        return InvalidOrder;
      }
      var order := decoded.value;
      if order.amount > FailureThreshold {
        var paymentFailedEvent := encode(order);
        if produce == Rejected {
          return ProduceError(PaymentFailed);
        }
        paymentFailed := paymentFailed + [paymentFailedEvent];
        h := Published(PaymentFailed, paymentFailedEvent);
      } else {
        var paymentCompletedEvent := encode(order);
        if produce == Rejected {
          return ProduceError(PaymentCompleted);
        }
        paymentCompleted := paymentCompleted + [paymentCompletedEvent];
        h := Published(PaymentCompleted, paymentCompletedEvent);
      }
    }

    /** The consume loop. Every delivery but a cancellation is handled and the
        loop goes on; a cancellation breaks it. Then the consumer is closed and
        both producers are disposed. Returns how many deliveries it consumed. */
    method ExecuteAsync(script: seq<Delivery>, decode: string -> Decoding<Order>, encode: Order -> string)
      returns (consumed: nat)
      modifies this
      ensures consumed == Consumed(script)
      ensures log == old(log) + Trace(script[..consumed], decode, encode)
      ensures paymentCompleted == old(paymentCompleted) + Outputs(script, decode, encode, PaymentCompleted)
      ensures paymentFailed == old(paymentFailed) + Outputs(script, decode, encode, PaymentFailed)
      ensures consumerCloses == old(consumerCloses) + 1
      ensures successDisposals == old(successDisposals) + 1
      ensures failureDisposals == old(failureDisposals) + 1
    {
      consumed := 0;
      while consumed < |script|
        invariant consumed <= FirstCancel(script)
        invariant log == old(log) + Trace(script[..consumed], decode, encode)
        invariant paymentCompleted == old(paymentCompleted) + SentOn(script[..consumed], decode, encode, PaymentCompleted)
        invariant paymentFailed == old(paymentFailed) + SentOn(script[..consumed], decode, encode, PaymentFailed)
        invariant consumerCloses == old(consumerCloses)
        invariant successDisposals == old(successDisposals) && failureDisposals == old(failureDisposals)
      {
        var d := script[consumed];
        assert script[..consumed + 1] == script[..consumed] + [d];
        assert script[..consumed + 1][..consumed] == script[..consumed];
        assert Trace(script[..consumed + 1], decode, encode)
            == Trace(script[..consumed], decode, encode) + (if d.NullResult? then [] else [StepOf(d, decode, encode)]);
        consumed := consumed + 1;
        match d {
          case Cancelled =>
            log := log + [ShuttingDown];
            break;
          case ConsumeError =>
            log := log + [ConsumeFailed];
          case Unexpected =>
            log := log + [UnexpectedError];
          case NullResult =>
          case Msg(message, produce) =>
            var h := ProcessPayment(message, produce, decode, encode);
            log := log + [Processed(h)];
        }
      }
      consumerCloses := consumerCloses + 1;
      successDisposals := successDisposals + 1;
      failureDisposals := failureDisposals + 1;
    }
  }
}
