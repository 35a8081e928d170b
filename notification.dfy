/** The notification stage: it consumes payment_failed and raises one alert
    per message, carrying the raw payload; it decodes nothing. It is
    terminal: it owns no producer. Its loop has no try block, so a
    cancellation or any other exception from Consume leaves ExecuteAsync,
    and nothing ever closes its consumer. */
module Notification {
  import opened Saga

  /** The position of the first delivery of `s` that is not a message, or
      |s|: only an exception ends the loop early. */
  function FirstStop(s: seq<Delivery>): (n: nat)
    ensures n <= |s|
    ensures forall i :: 0 <= i < n ==> s[i].Msg?
    ensures n < |s| ==> !s[n].Msg?
  {
    if s == [] || !s[0].Msg? then 0 else 1 + FirstStop(s[1..])
  }

  /** The alerts a loop raises while consuming the messages of `s`. */
  function Alerts(s: seq<Delivery>): seq<string>
  {
    if s == [] then []
    else Alerts(s[..|s| - 1]) + (if s[|s| - 1].Msg? then [s[|s| - 1].payload] else [])
  }

  /** How ExecuteAsync ends when `d`, not a message, is what Consume gives:
      every exception escapes, the cancellation included. */
  function StopEnding(d: Delivery): Ending
    requires !d.Msg?
  {
    match d
    case Cancelled => CancelEscaped
    case ConsumeError => Faulted(ConsumeFault)
    case NullResult => Faulted(NullReference)
    case Unexpected => Faulted(UnexpectedFault)
  }

  /** How ExecuteAsync ends when Consume hands it `s`. */
  function EndingOf(s: seq<Delivery>): Ending
  {
    var n := FirstStop(s);
    if n == |s| then GuardStopped else StopEnding(s[n])
  }

  /** One alert per consumed message, holding its raw payload, in consume
      order. */
  lemma {:induction false} AlertPerMessage(s: seq<Delivery>)
    requires forall i :: 0 <= i < |s| ==> s[i].Msg?
    ensures |Alerts(s)| == |s|
    ensures forall i :: 0 <= i < |s| ==> Alerts(s)[i] == s[i].payload
  {
    if s != [] {
      AlertPerMessage(s[..|s| - 1]);
    }
  }

  /** Whatever the payloads hold, the loop consumes every message up to the
      first exception, and nothing after it. */
  lemma {:induction false} ExceptionEndsLoop(s: seq<Delivery>, d: Delivery, rest: seq<Delivery>)
    requires forall i :: 0 <= i < |s| ==> s[i].Msg?
    requires !d.Msg?
    ensures FirstStop(s + [d] + rest) == |s|
    ensures EndingOf(s + [d] + rest) == StopEnding(d)
    ensures Alerts((s + [d] + rest)[..FirstStop(s + [d] + rest)]) == Alerts(s)
  {
    var r := s + [d] + rest;
    if s != [] {
      assert r[1..] == s[1..] + [d] + rest;
      ExceptionEndsLoop(s[1..], d, rest);
    }
    assert r[..|s|] == s;
  }

  /** The notification worker: the consumer of payment_failed and the alerts
      it has raised. */
  class NotificationWorker {
    /** The raw payloads of the alerts raised, in order. */
    var alerts: seq<string>
    /** How many times the consumer has been closed: the worker never does. */
    var consumerCloses: nat

    constructor ()
      ensures alerts == [] && consumerCloses == 0
    {
      alerts, consumerCloses := [], 0;
    }

    /** The consume loop: an alert per message, until the guard sees the
        cancellation request or an exception leaves the method. */
    method ExecuteAsync(script: seq<Delivery>) returns (ending: Ending)
      modifies this`alerts
      ensures ending == EndingOf(script)
      ensures alerts == old(alerts) + Alerts(script[..FirstStop(script)])
      ensures consumerCloses == old(consumerCloses)
    {
      var i := 0;
      ending := GuardStopped;
      while i < |script|
        invariant i <= FirstStop(script)
        invariant alerts == old(alerts) + Alerts(script[..i])
      {
        var result := script[i];
        if !result.Msg? {
          ending := StopEnding(result);
          break;
        }
        assert script[..i + 1][..i] == script[..i];
        alerts := alerts + [result.payload];
        i := i + 1;
      }
    }
  }
}
