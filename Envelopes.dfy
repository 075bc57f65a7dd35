/**
 * The message envelope of the messenger component: a message plus the ordered list of
 * stamps (metadata items) attached to it.  Envelopes are values: `With` returns a new
 * envelope and nothing ever removes a stamp.
 */
module Envelopes {
  import opened Wrappers

  /** An application message; its class is what `get_class` reports. */
  datatype Message = Message(className: string, payload: string)

  /** The stamps the modelled code creates or inspects; `Other` stands for any other stamp class. */
  datatype Stamp =
    | Received(transportName: string)
    | Redelivery(senderClassOrAlias: string)
    | Sent(senderClass: string, senderAlias: Option<string>)
    | SentToFailureTransport(originalReceiverName: string)
    | DispatchAfterCurrentBus
    | Other(className: string, data: string)

  /** The stamp class, which `all` and `last` select by. */
  datatype StampKind =
    | ReceivedKind
    | RedeliveryKind
    | SentKind
    | SentToFailureTransportKind
    | DispatchAfterCurrentBusKind
    | OtherKind(className: string)

  function KindOf(s: Stamp): StampKind {
    match s
    case Received(_) => ReceivedKind
    case Redelivery(_) => RedeliveryKind
    case Sent(_, _) => SentKind
    case SentToFailureTransport(_) => SentToFailureTransportKind
    case DispatchAfterCurrentBus => DispatchAfterCurrentBusKind
    case Other(c, _) => OtherKind(c)
  }

  /** The stamps of one kind, oldest first. */
  function OfKind(stamps: seq<Stamp>, kind: StampKind): (r: seq<Stamp>)
    ensures |r| <= |stamps|
    ensures forall i :: 0 <= i < |r| ==> KindOf(r[i]) == kind && r[i] in stamps
    ensures forall i :: 0 <= i < |stamps| && KindOf(stamps[i]) == kind ==> stamps[i] in r
  {
    if stamps == [] then []
    else if KindOf(stamps[0]) == kind then [stamps[0]] + OfKind(stamps[1..], kind)
    else OfKind(stamps[1..], kind)
  }

  datatype Envelope = Envelope(message: Message, stamps: seq<Stamp>) {

    /** `$envelope->with($stamp)`: a new envelope with the stamp appended. */
    function With(stamp: Stamp): Envelope {
      Envelope(message, stamps + [stamp])
    }

    /** `$envelope->all($kind)`. */
    function All(kind: StampKind): seq<Stamp> {
      OfKind(stamps, kind)
    }

    /** `$envelope->last($kind)`: the most recently added stamp of that kind, or null. */
    function Last(kind: StampKind): (r: Option<Stamp>)
      ensures r.None? <==> All(kind) == []
      ensures r.Some? ==> KindOf(r.value) == kind && r.value in stamps
    {
      var all := All(kind);
      if all == [] then None else Some(all[|all| - 1])
    }
  }

  /** Selecting a kind distributes over appending stamps. */
  lemma {:induction false} OfKindAppend(a: seq<Stamp>, b: seq<Stamp>, kind: StampKind)
    ensures OfKind(a + b, kind) == OfKind(a, kind) + OfKind(b, kind)
  {
    if a != [] {
      assert (a + b)[1..] == a[1..] + b;
      OfKindAppend(a[1..], b, kind);
    } else {
      assert a + b == b;
    }
  }

  /** `with` adds its stamp at the end of its kind's list and changes no other kind's list. */
  lemma AllWith(e: Envelope, s: Stamp, kind: StampKind)
    ensures e.With(s).All(kind) == e.All(kind) + (if KindOf(s) == kind then [s] else [])
    ensures e.With(s).message == e.message
  {
    OfKindAppend(e.stamps, [s], kind);
    assert OfKind([s], kind) == if KindOf(s) == kind then [s] else [];
  }

  /** After `with`, `last` of the new stamp's kind is that stamp; `last` of any other kind is unchanged. */
  lemma LastWith(e: Envelope, s: Stamp, kind: StampKind)
    ensures e.With(s).Last(kind) == if KindOf(s) == kind then Some(s) else e.Last(kind)
  {
    AllWith(e, s, kind);
  }

  /** Stamps are never removed: a series of `with` calls keeps the old stamps as a prefix, in order. */
  lemma {:induction false} WithAllKeepsHistory(e: Envelope, ss: seq<Stamp>, kind: StampKind)
    ensures WithAll(e, ss).stamps == e.stamps + ss
    ensures WithAll(e, ss).All(kind) == e.All(kind) + OfKind(ss, kind)
    decreases |ss|
  {
    if ss == [] {
      assert e.stamps + ss == e.stamps;
    } else {
      var ss' := ss[..|ss| - 1];
      WithAllKeepsHistory(e, ss', kind);
      assert ss == ss' + [ss[|ss| - 1]];
      OfKindAppend(e.stamps + ss', [ss[|ss| - 1]], kind);
      OfKindAppend(ss', [ss[|ss| - 1]], kind);
    }
  }

  /** `with` applied to each stamp of `ss` in turn. */
  function WithAll(e: Envelope, ss: seq<Stamp>): Envelope
    decreases |ss|
  {
    if ss == [] then e else WithAll(e, ss[..|ss| - 1]).With(ss[|ss| - 1])
  }
}
