/** The saga end to end: the gateway publishes to order_created, the payment
    stage consumes it and publishes to payment_completed or payment_failed,
    and the shipping and notification stages consume those. Each stage
    consumes a topic exactly as the stage before appended to it, one message
    at a time, with no broker fault. */
module Pipeline {
  import opened Saga
  import Gateway
  import Payment
  import Shipping
  import Notification

  /** A topic as its consumer receives it: every message, in order, with no
      fault and every publish accepted. */
  function Deliver(topic: seq<string>): (s: seq<Delivery>)
    ensures |s| == |topic|
    ensures forall i :: 0 <= i < |topic| ==> s[i] == Msg(topic[i], Accepted)
  {
    if topic == [] then [] else Deliver(topic[..|topic| - 1]) + [Msg(topic[|topic| - 1], Accepted)]
  }

  /** The payment stage consumes all of order_created and routes every order
      it can decode, in order. */
  lemma PaymentRoutesEveryOrder(created: seq<string>, decode: string -> Decoding<Order>,
                                encode: Order -> string, topic: Payment.Topic)
    ensures var s := Deliver(created);
            && Payment.Consumed(s) == |created|
            && Payment.Outputs(s, decode, encode, topic)
               == Payment.Expected(Payment.Routed(s, decode), topic, encode)
  {
    var s := Deliver(created);
    Payment.CancellationEndsLoop(s, [], decode, encode);
    assert Payment.FirstCancel(s) == |s|;
    assert s[..|s|] == s;
    Payment.SentIsExpected(s, decode, encode, topic);
  }

  /** Every failed payment raises exactly one alert, carrying its payload, in
      order, and the notification loop only stops at the guard. */
  lemma FailuresAlerted(failed: seq<string>)
    ensures var s := Deliver(failed);
            && Notification.EndingOf(s) == GuardStopped
            && Notification.Alerts(s[..Notification.FirstStop(s)]) == failed
  {
    var s := Deliver(failed);
    Notification.AlertPerMessage(s);
    assert Notification.FirstStop(s) == |s|;
    assert s[..|s|] == s;
  }

  /** Every completed payment that the shipping stage can read is shipped
      once, in order, and the shipping loop only stops at the guard. */
  lemma CompletionsShipped(completed: seq<string>, shipDecode: string -> Decoding<ShippingOrder>)
    requires forall i :: 0 <= i < |completed| ==> !shipDecode(completed[i]).Malformed?
    ensures var s := Deliver(completed);
            && Shipping.EndingOf(s, shipDecode) == GuardStopped
            && Shipping.Shipments(Shipping.Entries(s[..Shipping.Consumed(s, shipDecode)], shipDecode))
               == Shipping.DecodedIds(s, shipDecode)
  {
    var s := Deliver(completed);
    assert forall i :: 0 <= i < |s| ==> Shipping.Survives(s[i], shipDecode);
    assert Shipping.FirstStop(s, shipDecode) == |s|;
    assert s[..|s|] == s;
    Shipping.ShipsEveryDecodedOrder(s, shipDecode);
  }

  /** One order through the whole saga, running every stage's own methods.
      When the stages read back what the others wrote, an order of at most
      300 is paid and shipped and raises no alert; a larger one fails and
      raises one alert and is never seen by shipping. */
  method PlaceOrder(o: Order, body: string, decode: string -> Decoding<Order>, encode: Order -> string,
                    shipDecode: string -> Decoding<ShippingOrder>)
    returns (response: Gateway.Response, created: seq<string>, completed: seq<string>,
             failed: seq<string>, shipLog: seq<Shipping.Entry>, alerts: seq<string>)
    requires decode(body) == Decoded(o)
    requires decode(encode(o)) == Decoded(o)
    requires shipDecode(encode(o)) == Decoded(ShippingView(o))
    ensures response == Gateway.EmptyOk && created == [encode(o)]
    ensures o.amount <= 300 ==>
              && completed == [encode(o)] && failed == []
              && shipLog == [Shipping.Received(encode(o)), Shipping.Shipped(o.orderId)]
              && alerts == []
    ensures o.amount > 300 ==>
              && completed == [] && failed == [encode(o)]
              && shipLog == []
              && alerts == [encode(o)]
  {
    var gateway := new Gateway.OrderEndpoint();
    response := gateway.PostOrder(body, Accepted, decode, encode);
    created := gateway.orderCreated;

    var payment := new Payment.PaymentWorker();
    var _ := payment.ExecuteAsync(Deliver(created), decode, encode);
    completed, failed := payment.paymentCompleted, payment.paymentFailed;
    var s := Deliver(created);
    assert s == [Msg(encode(o), Accepted)] && s[..0] == [];
    assert Payment.Routed(s, decode) == [o];
    assert [o][..0] == [];
    PaymentRoutesEveryOrder(created, decode, encode, Payment.PaymentCompleted);
    PaymentRoutesEveryOrder(created, decode, encode, Payment.PaymentFailed);

    var shipping := new Shipping.ShippingWorker();
    var _ := shipping.ExecuteAsync(Deliver(completed), shipDecode);
    shipLog := shipping.log;
    var ship := Deliver(completed);
    if o.amount <= 300 {
      assert ship == [Msg(encode(o), Accepted)] && ship[..0] == [] && ship[..1] == ship;
      assert Shipping.FirstStop(ship, shipDecode) == 1;
    } else {
      assert ship == [];
    }

    var notification := new Notification.NotificationWorker();
    var _ := notification.ExecuteAsync(Deliver(failed));
    alerts := notification.alerts;
    FailuresAlerted(failed);
  }
}
