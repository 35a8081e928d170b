/** The intake gateway: the handler of POST /order. It decodes the request
    body; a null order gets a textual rejection and no publish; otherwise the
    order is re-serialised and published to order_created, and a failed
    publish is only logged, so the caller sees the same empty response as on
    success. A body that is not JSON for an order throws out of the decode,
    before anything is published. */
module Gateway {
  import opened Saga

  /** The body of the rejection response. */
  const InvalidOrderData := "Invalid order data"

  /** The HTTP response to one POST /order: a text body, an empty 200, or
      the framework's answer to an exception that left the handler. */
  datatype Response = Text(body: string) | EmptyOk | ServerError

  /** What the handler does with one request body. */
  datatype Outcome =
    | InvalidData
    | DeserializeThrew
    | Produced(payload: string)
    | ProduceFailed(payload: string)

  /** The handler on one request, as a value. It rejects exactly the bodies
      that decode to null, throws exactly on malformed bodies, and otherwise
      attempts one publish of the serialised order, which lands exactly when
      the broker accepts it. */
  function Post(body: string, produce: ProduceOutcome,
                decode: string -> Decoding<Order>, encode: Order -> string): (r: Outcome)
    ensures r.InvalidData? <==> decode(body).JsonNull?
    ensures r.DeserializeThrew? <==> decode(body).Malformed?
    ensures r.Produced? <==> decode(body).Decoded? && produce == Accepted
    ensures r.ProduceFailed? <==> decode(body).Decoded? && produce == Rejected
    ensures (r.Produced? || r.ProduceFailed?) ==> r.payload == encode(decode(body).value)
  {
    match decode(body)
    case Malformed => DeserializeThrew
    case JsonNull => InvalidData
    case Decoded(order) =>
      match produce
      case Accepted => Produced(encode(order))
      case Rejected => ProduceFailed(encode(order))
  }

  /** The response the caller sees. */
  function ResponseOf(r: Outcome): Response
  {
    match r
    case InvalidData => Text(InvalidOrderData)
    case DeserializeThrew => ServerError
    case Produced(_) => EmptyOk
    case ProduceFailed(_) => EmptyOk
  }

  /** What the handler appends to order_created. */
  function Published(r: Outcome): seq<string>
  {
    if r.Produced? then [r.payload] else []
  }

  /** The caller cannot tell a failed publish from a successful one, and the
      rejection text is written exactly when nothing is attempted because
      the order is null. */
  lemma PublishFailureIsSilent(body: string, decode: string -> Decoding<Order>, encode: Order -> string)
    ensures decode(body).Decoded? ==>
      && ResponseOf(Post(body, Accepted, decode, encode)) == EmptyOk
      && ResponseOf(Post(body, Rejected, decode, encode)) == EmptyOk
      && Published(Post(body, Accepted, decode, encode)) == [encode(decode(body).value)]
      && Published(Post(body, Rejected, decode, encode)) == []
    ensures forall p: ProduceOutcome ::
      ResponseOf(Post(body, p, decode, encode)) == Text(InvalidOrderData) <==> decode(body).JsonNull?
    ensures forall p: ProduceOutcome ::
      !decode(body).Decoded? ==> Published(Post(body, p, decode, encode)) == []
  {
  }

  /** One request: its body and the broker's answer to its publish. */
  datatype Request = Request(body: string, produce: ProduceOutcome)

  /** What order_created holds after the gateway handles `rs` in turn. At
      most one message per request. */
  function Intake(rs: seq<Request>, decode: string -> Decoding<Order>, encode: Order -> string): (log: seq<string>)
    ensures |log| <= |rs|
  {
    if rs == [] then []
    else
      var r := rs[|rs| - 1];
      Intake(rs[..|rs| - 1], decode, encode) + Published(Post(r.body, r.produce, decode, encode))
  }

  /** A reference definition, independent of Post: the serialisations of
      the orders of the requests whose body decodes to an order and whose
      publish the broker accepts, in request order. */
  function Landed(rs: seq<Request>, decode: string -> Decoding<Order>, encode: Order -> string): seq<string>
  {
    if rs == [] then []
    else
      var r := rs[|rs| - 1];
      Landed(rs[..|rs| - 1], decode, encode) +
      (if decode(r.body).Decoded? && r.produce == Accepted then [encode(decode(r.body).value)] else [])
  }

  /** order_created holds exactly the serialised orders of the requests that
      decode to an order and are accepted by the broker, one each, in request
      order; null orders, malformed bodies and rejected publishes add
      nothing. */
  lemma {:induction false} IntakeIsLanded(rs: seq<Request>, decode: string -> Decoding<Order>,
                                          encode: Order -> string)
    ensures Intake(rs, decode, encode) == Landed(rs, decode, encode)
  {
    if rs != [] {
      IntakeIsLanded(rs[..|rs| - 1], decode, encode);
    }
  }

  /** When every request holds an order and every publish is accepted,
      order_created holds the serialisation of each order, in request order. */
  lemma {:induction false} IntakeOfValidRequests(rs: seq<Request>, decode: string -> Decoding<Order>,
                                                 encode: Order -> string)
    requires forall i :: 0 <= i < |rs| ==> decode(rs[i].body).Decoded? && rs[i].produce == Accepted
    ensures |Intake(rs, decode, encode)| == |rs|
    ensures forall i :: 0 <= i < |rs| ==> Intake(rs, decode, encode)[i] == encode(decode(rs[i].body).value)
  {
    IntakeIsLanded(rs, decode, encode);
    LandedOfValidRequests(rs, decode, encode);
  }

  /** Landed keeps every request of a sequence that all decode and are all
      accepted. */
  lemma {:induction false} LandedOfValidRequests(rs: seq<Request>, decode: string -> Decoding<Order>,
                                                 encode: Order -> string)
    requires forall i :: 0 <= i < |rs| ==> decode(rs[i].body).Decoded? && rs[i].produce == Accepted
    ensures |Landed(rs, decode, encode)| == |rs|
    ensures forall i :: 0 <= i < |rs| ==> Landed(rs, decode, encode)[i] == encode(decode(rs[i].body).value)
  {
    if rs != [] {
      LandedOfValidRequests(rs[..|rs| - 1], decode, encode);
    }
  }

  /** The gateway's view of the broker: the order_created topic. */
  class OrderEndpoint {
    /** order_created, as the gateway's producers have appended to it. */
    var orderCreated: seq<string>

    constructor ()
      ensures orderCreated == []
    {
      orderCreated := [];
    }

    /** The POST /order handler. */
    method PostOrder(body: string, produce: ProduceOutcome,
                     decode: string -> Decoding<Order>, encode: Order -> string)
      returns (response: Response)
      modifies this
      ensures response == ResponseOf(Post(body, produce, decode, encode))
      ensures orderCreated == old(orderCreated) + Published(Post(body, produce, decode, encode))
    {
      var order := decode(body);
      if order.Malformed? {
        // the JsonException leaves the handler
        return ServerError;
      }
      if order.JsonNull? {
        return Text(InvalidOrderData);
      }
      var orderJson := encode(order.value);
      if produce == Accepted {
        orderCreated := orderCreated + [orderJson];
      }
      // a ProduceException is caught and logged; no response body is written
      response := EmptyOk;
    }
  }
}
