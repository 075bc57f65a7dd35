/**
 * The send middleware of the messenger bus: an outbound envelope is handed to the
 * senders the locator resolves for it (or, on redelivery, to the one sender named by
 * the redelivery stamp), each send adding a SentStamp; an envelope that was sent is not
 * passed on to the next middleware.  Inbound envelopes (those with a ReceivedStamp)
 * are never sent again.
 *
 * The collaborators -- the senders locator, the optional event dispatcher, the senders'
 * `send` and the rest of the middleware stack -- are functions given to the model; the
 * middleware reports every request it makes of them, in order, as a list of calls.
 */
module SendMessage {
  import opened Wrappers
  import opened Envelopes
  import Php

  /** A sender object; `className` is what `get_class($sender)` reports. */
  datatype Sender = Sender(className: string, instance: nat)

  /** One entry of the iterable that resolves senders: its key and the sender. */
  type Route = (Php.ArrayKey, Sender)

  /** A senders locator: `getSenders($envelope)` and `getSenderByAlias($alias)`. */
  datatype SendersLocator = SendersLocator(
    getSenders: Envelope -> seq<Route>,
    getSenderByAlias: string -> Sender)

  /** A request the middleware makes of a collaborator. */
  datatype Call =
    | SendersResolved(envelope: Envelope)
    | SenderResolvedByAlias(alias: string)
    | EventDispatched(envelope: Envelope)
    | SenderCalled(key: Php.ArrayKey, sender: Sender, envelope: Envelope)
    | NextCalled(envelope: Envelope)

  /** The alias recorded in a SentStamp: the key when it is a string, otherwise null. */
  function AliasOf(key: Php.ArrayKey): Option<string> {
    if key.StringKey? then Some(key.s) else None
  }

  function SentStampFor(route: Route): Stamp {
    Sent(route.1.className, AliasOf(route.0))
  }

  /** A received envelope: it carries at least one ReceivedStamp. */
  predicate IsInbound(e: Envelope) {
    e.All(ReceivedKind) != []
  }

  /** The envelope after sending to each route in turn, starting from `start`. */
  function Chain(start: Envelope, routes: seq<Route>, send: (Sender, Envelope) -> Envelope): Envelope
    decreases |routes|
  {
    if routes == [] then start
    else
      var r := routes[|routes| - 1];
      send(r.1, Chain(start, routes[..|routes| - 1], send).With(SentStampFor(r)))
  }

  /** The send calls made while sending to each route in turn, starting from `start`. */
  function SendCalls(start: Envelope, routes: seq<Route>, send: (Sender, Envelope) -> Envelope): seq<Call>
    decreases |routes|
  {
    if routes == [] then []
    else
      var r := routes[|routes| - 1];
      var prefix := routes[..|routes| - 1];
      SendCalls(start, prefix, send) + [SenderCalled(r.0, r.1, Chain(start, prefix, send).With(SentStampFor(r)))]
  }

  /**
   * Senders are called in route order; the i-th receives the envelope the previous sender
   * returned (or `start`) with exactly one more stamp, the SentStamp naming that sender's
   * class and its alias, and what it returns is the envelope the next one starts from.
   */
  lemma {:induction false} SendCallsAt(start: Envelope, routes: seq<Route>, send: (Sender, Envelope) -> Envelope, i: nat)
    requires i < |routes|
    ensures |SendCalls(start, routes, send)| == |routes|
    ensures SendCalls(start, routes, send)[i] ==
      SenderCalled(routes[i].0, routes[i].1, Chain(start, routes[..i], send).With(SentStampFor(routes[i])))
    ensures SendCalls(start, routes, send)[i].envelope.stamps ==
      Chain(start, routes[..i], send).stamps + [Sent(routes[i].1.className, AliasOf(routes[i].0))]
    ensures Chain(start, routes[..i + 1], send) == send(routes[i].1, SendCalls(start, routes, send)[i].envelope)
    decreases |routes|
  {
    var prefix := routes[..|routes| - 1];
    SendCallsLength(start, routes, send);
    if i < |routes| - 1 {
      SendCallsAt(start, prefix, send, i);
      assert prefix[..i] == routes[..i];
      assert prefix[..i + 1] == routes[..i + 1];
    } else {
      assert prefix == routes[..i];
      assert routes[..i + 1] == routes;
    }
  }

  lemma {:induction false} SendCallsLength(start: Envelope, routes: seq<Route>, send: (Sender, Envelope) -> Envelope)
    ensures |SendCalls(start, routes, send)| == |routes|
    ensures forall j :: 0 <= j < |SendCalls(start, routes, send)| ==> SendCalls(start, routes, send)[j].SenderCalled?
    decreases |routes|
  {
    if routes != [] {
      SendCallsLength(start, routes[..|routes| - 1], send);
    }
  }

  /** Each send call goes to a sender of the routes, and to the route's key. */
  lemma SendCallsTargets(start: Envelope, routes: seq<Route>, send: (Sender, Envelope) -> Envelope)
    ensures |SendCalls(start, routes, send)| == |routes|
    ensures forall j :: 0 <= j < |SendCalls(start, routes, send)| ==>
      SendCalls(start, routes, send)[j].SenderCalled? &&
      (SendCalls(start, routes, send)[j].key, SendCalls(start, routes, send)[j].sender) == routes[j]
  {
    SendCallsLength(start, routes, send);
    forall j | 0 <= j < |SendCalls(start, routes, send)|
      ensures (SendCalls(start, routes, send)[j].key, SendCalls(start, routes, send)[j].sender) == routes[j]
    {
      SendCallsAt(start, routes, send, j);
    }
  }

  /**
   * The shape of an outbound `handle`'s calls: one lookup, at most one event, the sends,
   * and the next middleware exactly when there were no sends.
   */
  lemma CallsShape(calls: seq<Call>, lookup: Call, events: seq<Call>, sends: seq<Call>, envelope: Envelope)
    requires calls == [lookup] + events + sends + (if sends == [] then [NextCalled(envelope)] else [])
    requires lookup.SendersResolved? || lookup.SenderResolvedByAlias?
    requires |events| <= 1 && forall k :: 0 <= k < |events| ==> events[k].EventDispatched?
    requires forall k :: 0 <= k < |sends| ==> sends[k].SenderCalled?
    ensures (exists i :: 0 <= i < |calls| && calls[i].SenderCalled?) <==>
            !(exists i :: 0 <= i < |calls| && calls[i].NextCalled?)
    ensures forall i, j :: 0 <= i < j < |calls| && calls[i].EventDispatched? ==> !calls[j].EventDispatched?
  {
    if sends != [] {
      assert calls[1 + |events|] == sends[0];
    } else {
      assert calls[|calls| - 1].NextCalled?;
    }
    forall i, j | 0 <= i < j < |calls| && calls[i].EventDispatched?
      ensures !calls[j].EventDispatched?
    {
      assert i == 1;
    }
  }

  class SendMessageMiddleware {
    const sendersLocator: SendersLocator
    const eventDispatcher: Option<Envelope -> Envelope>

    constructor(sendersLocator: SendersLocator, eventDispatcher: Option<Envelope -> Envelope>)
      ensures this.sendersLocator == sendersLocator
      ensures this.eventDispatcher == eventDispatcher
    {
      this.sendersLocator := sendersLocator;
      this.eventDispatcher := eventDispatcher;
    }

    /** `getSenders`: the redelivery stamp's sender alone, or else what the locator resolves for the envelope. */
    function GetSenders(envelope: Envelope, redelivery: Option<Stamp>): seq<Route>
      requires redelivery.Some? ==> redelivery.value.Redelivery?
    {
      if redelivery.Some? then
        var alias := redelivery.value.senderClassOrAlias;
        [(Php.NormalizeKey(alias), sendersLocator.getSenderByAlias(alias))]
      else sendersLocator.getSenders(envelope)
    }

    /** The locator request `getSenders` makes. */
    function LookupCall(envelope: Envelope, redelivery: Option<Stamp>): Call
      requires redelivery.Some? ==> redelivery.value.Redelivery?
    {
      if redelivery.Some? then SenderResolvedByAlias(redelivery.value.senderClassOrAlias)
      else SendersResolved(envelope)
    }

    /**
     * The requests an outbound `handle` makes: the senders lookup, the pre-send event
     * when there is a dispatcher, no redelivery stamp and at least one sender, then one
     * send per route, and the next middleware only when there was no route.
     */
    function OutboundCalls(envelope: Envelope, send: (Sender, Envelope) -> Envelope): seq<Call> {
      var redelivery := envelope.Last(RedeliveryKind);
      var routes := GetSenders(envelope, redelivery);
      var fire := eventDispatcher.Some? && redelivery.None? && routes != [];
      var start := if fire then eventDispatcher.value(envelope) else envelope;
      [LookupCall(envelope, redelivery)]
        + (if fire then [EventDispatched(envelope)] else [])
        + SendCalls(start, routes, send)
        + (if routes == [] then [NextCalled(envelope)] else [])
    }

    /**
     * In those requests the next middleware is called exactly when no sender is, the
     * event is dispatched at most once, and on redelivery only the sender named by the
     * last redelivery stamp is used and neither the locator nor the event is asked.
     */
    lemma OutboundShape(envelope: Envelope, send: (Sender, Envelope) -> Envelope)
      ensures var calls := OutboundCalls(envelope, send);
        && ((exists i :: 0 <= i < |calls| && calls[i].SenderCalled?) <==>
            !(exists i :: 0 <= i < |calls| && calls[i].NextCalled?))
        && (forall i, j :: 0 <= i < j < |calls| && calls[i].EventDispatched? ==> !calls[j].EventDispatched?)
        && (envelope.Last(RedeliveryKind).Some? ==>
             forall i :: 0 <= i < |calls| ==>
               !calls[i].SendersResolved? && !calls[i].EventDispatched? &&
               (calls[i].SenderCalled? ==>
                  calls[i].sender == sendersLocator.getSenderByAlias(envelope.Last(RedeliveryKind).value.senderClassOrAlias)))
    {
      var redelivery := envelope.Last(RedeliveryKind);
      var routes := GetSenders(envelope, redelivery);
      var fire := eventDispatcher.Some? && redelivery.None? && routes != [];
      var start := if fire then eventDispatcher.value(envelope) else envelope;
      var events := if fire then [EventDispatched(envelope)] else [];
      SendCallsTargets(start, routes, send);
      CallsShape(OutboundCalls(envelope, send), LookupCall(envelope, redelivery), events, SendCalls(start, routes, send), envelope);
      if redelivery.Some? {
        assert SendCalls(start, routes, send) == [SenderCalled(routes[0].0, routes[0].1, start.With(SentStampFor(routes[0])))];
      }
    }

    /** `handle($envelope, $stack)`; `next` is `$stack->next()->handle(..., $stack)`. */
    method Handle(envelope: Envelope, send: (Sender, Envelope) -> Envelope, next: Envelope -> Envelope)
      returns (result: Envelope, calls: seq<Call>)
      // an inbound envelope is passed unchanged to the next middleware, and nothing else happens
      ensures IsInbound(envelope) ==> calls == [NextCalled(envelope)] && result == next(envelope)
      // an outbound one: senders resolved once, the event at most once, then the sends or the next middleware
      ensures !IsInbound(envelope) ==>
        var redelivery := envelope.Last(RedeliveryKind);
        var routes := GetSenders(envelope, redelivery);
        var fire := eventDispatcher.Some? && redelivery.None? && routes != [];
        var start := if fire then eventDispatcher.value(envelope) else envelope;
        && calls == OutboundCalls(envelope, send)
        && result == if routes == [] then next(envelope) else Chain(start, routes, send)
    {
      if IsInbound(envelope) {
        // a received message is not sent back
        calls, result := [NextCalled(envelope)], next(envelope);
        return;
      }
      var redelivery := envelope.Last(RedeliveryKind);
      var senders := GetSenders(envelope, redelivery);
      var current, sends := SendToAll(envelope, senders, redelivery.None?, send);
      calls := [LookupCall(envelope, redelivery)] + sends;
      if senders == [] {
        calls := calls + [NextCalled(current)];
        result := next(current);
      } else {
        result := current;
      }
    }

    /**
     * The loop of `handle` over the resolved senders: before the first send the pre-send
     * event is dispatched when there is a dispatcher and `shouldDispatchEvent` holds, then
     * each sender receives the previous result with its SentStamp added.
     */
    method SendToAll(envelope: Envelope, senders: seq<Route>, shouldDispatchEvent: bool, send: (Sender, Envelope) -> Envelope)
      returns (current: Envelope, calls: seq<Call>)
      ensures senders == [] ==> current == envelope && calls == []
      ensures senders != [] ==>
        var fire := eventDispatcher.Some? && shouldDispatchEvent;
        var start := if fire then eventDispatcher.value(envelope) else envelope;
        && current == Chain(start, senders, send)
        && calls == (if fire then [EventDispatched(envelope)] else []) + SendCalls(start, senders, send)
    {
      current, calls := envelope, [];
      var dispatch := shouldDispatchEvent;
      ghost var fire := eventDispatcher.Some? && shouldDispatchEvent;
      ghost var start := if fire then eventDispatcher.value(envelope) else envelope;
      ghost var events := if fire then [EventDispatched(envelope)] else [];
      for i := 0 to |senders|
        invariant i == 0 ==> current == envelope && calls == [] && dispatch == shouldDispatchEvent
        invariant i > 0 ==> current == Chain(start, senders[..i], send)
        invariant i > 0 ==> calls == events + SendCalls(start, senders[..i], send)
        invariant i > 0 && dispatch ==> eventDispatcher.None?
      {
        if eventDispatcher.Some? && dispatch {
          calls := calls + [EventDispatched(current)];
          current := eventDispatcher.value(current);
          dispatch := false;
        }
        var stamped := current.With(SentStampFor(senders[i]));
        calls := calls + [SenderCalled(senders[i].0, senders[i].1, stamped)];
        current := send(senders[i].1, stamped);
        assert senders[..i + 1][..i] == senders[..i];
      }
      assert senders[..|senders|] == senders;
    }
  }
}
