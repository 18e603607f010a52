/** The listener of the provider: it sends the ready-made SubscribeEventgroupAck
    and then captures packets until a SubscribeEventgroup arrives. */
module SocketUdp {
  import opened Common
  import opened Frames
  import opened Transport

  /** Whether some entry is a SubscribeEventgroup: the loop of the stop filter, which returns
      at the first such entry. */
  function HasSubscribeEntry(entries: seq<Entry>): (r: bool)
    ensures r <==> exists k :: 0 <= k < |entries| && entries[k].typ == SubscribeEventgroupType
  {
    if |entries| == 0 then false
    else if entries[0].typ == SubscribeEventgroupType then true
    else
      var rest := HasSubscribeEntry(entries[1..]);
      assert rest ==> exists k :: 0 < k < |entries| && entries[k].typ == SubscribeEventgroupType by {
        if rest {
          var k :| 0 <= k < |entries[1..]| && entries[1..][k].typ == SubscribeEventgroupType;
          assert entries[k + 1].typ == SubscribeEventgroupType;
        }
      }
      rest
  }

  /** `filtro`: a packet stops the capture iff it has a SOME/IP layer with an entry array holding a
      SubscribeEventgroup entry, for any service. */
  function Filtro(pkt: Packet): (r: bool)
    ensures r <==> pkt.someip.Some? && pkt.someip.value.entryArray.Some?
                   && exists e :: e in pkt.someip.value.entryArray.value && e.typ == SubscribeEventgroupType
  {
    match pkt.someip
    case None => false
    case Some(layer) =>
      match layer.entryArray
      case None => false
      case Some(entries) =>
        var r := HasSubscribeEntry(entries);
        assert r ==> exists e :: e in entries && e.typ == SubscribeEventgroupType;
        assert (exists e :: e in entries && e.typ == SubscribeEventgroupType) ==> r by {
          if e :| e in entries && e.typ == SubscribeEventgroupType {
            var k :| 0 <= k < |entries| && entries[k] == e;
          }
        }
        r
  }

  /** The result as written: the first packet captured, whether or not it matched, or None. */
  function FirstCaptured(captured: seq<Packet>): (r: Option<Packet>)
    ensures r.None? <==> |captured| == 0
    ensures r.Some? ==> r.value == captured[0]
  {
    if |captured| > 0 then Some(captured[0]) else None
  }

  /** The result the listener documents: the packet that stopped the capture, or None. */
  function MatchingCaptured(captured: seq<Packet>): (r: Option<Packet>)
    ensures r.Some? <==> |captured| > 0 && Filtro(captured[|captured| - 1])
    ensures r.Some? ==> Filtro(r.value) && r.value in captured
  {
    if |captured| > 0 && Filtro(captured[|captured| - 1]) then Some(captured[|captured| - 1]) else None
  }

  /** The documented result picks out the first arriving subscription, and is None only when no
      subscription arrives. */
  lemma MatchingCapturedIsFirstSubscribe(arrivals: seq<Packet>)
    ensures var r := MatchingCaptured(Capture(arrivals, Filtro));
      && (r.None? <==> forall k :: 0 <= k < |arrivals| ==> !Filtro(arrivals[k]))
      && (r.Some? ==> exists i :: 0 <= i < |arrivals| && arrivals[i] == r.value
                        && forall k :: 0 <= k < i ==> !Filtro(arrivals[k]))
  {
    var c := Capture(arrivals, Filtro);
    var r := MatchingCaptured(c);
    if r.Some? {
      var i := |c| - 1;
      assert r.value == arrivals[i] && Filtro(arrivals[i]);
      forall k | 0 <= k < i ensures !Filtro(arrivals[k]) {
        assert arrivals[k] == c[k];
      }
    } else {
      assert |c| == |arrivals|;
      forall k | 0 <= k < |arrivals| ensures !Filtro(arrivals[k]) {
        assert arrivals[k] == c[k];
      }
    }
  }

  /** The first packet captured need not be the subscription: anything that arrives before it
      is returned instead. */
  lemma FirstCapturedNeedNotMatch()
    ensures var noise, subscribe := Packet(None), Packet(Some(SomeIpLayer(Some([BlankEventGroupEntry.(typ := 0x06)]))));
      && Capture([noise, subscribe], Filtro) == [noise, subscribe]
      && FirstCaptured(Capture([noise, subscribe], Filtro)) == Some(noise) && !Filtro(noise)
      && MatchingCaptured(Capture([noise, subscribe], Filtro)) == Some(subscribe)
  {
    var noise, subscribe := Packet(None), Packet(Some(SomeIpLayer(Some([BlankEventGroupEntry.(typ := 0x06)]))));
    assert Filtro(subscribe) by {
      assert BlankEventGroupEntry.(typ := 0x06) in [BlankEventGroupEntry.(typ := 0x06)];
    }
    assert [noise, subscribe][1..] == [subscribe];
  }

  /** What `someipSD().sendSDpacket(ack)` raises: the SD helper has no such method. */
  const NoSendSdPacket := "'someipSD' object has no attribute 'sendSDpacket'"

  /** `escuchar_subscribe_eventgroup` as written: sending the ack raises before any capture. */
  method EscucharSubscribeEventgroupAsWritten(wire: Wire, ack: SdFrame) returns (r: Result<Option<Packet>, PyError>)
    ensures r == Err(AttributeError(NoSendSdPacket))
  {
    r := Err(AttributeError(NoSendSdPacket));
  }

  /** What `escuchar_subscribe_eventgroup`, with the ack sent on the interface, returns and records
      when the trace has `k` entries: the ack goes out first, whatever arrives later, then the
      capture runs until a subscription; the result is the subscription, or None. */
  function Listen(refusal: nat -> Option<string>, arrivals: seq<Packet>, k: nat, ack: SdFrame)
    : (Result<Option<Packet>, PyError>, seq<Action>)
  {
    if refusal(k).Some? then (Err(OSError(refusal(k).value)), [SendRefused(Sd(ack))])
    else if refusal(k + 1).Some? then (Err(OSError(refusal(k + 1).value)), [Sent(Sd(ack)), SniffRefused])
    else
      var c := Capture(arrivals, Filtro);
      (Ok(MatchingCaptured(c)), [Sent(Sd(ack)), Sniffed(c)])
  }

  /** The listener always tries the ack first; it returns a packet only when it captured, and
      that packet is the first arriving subscription. */
  lemma ListenSendsAckFirst(refusal: nat -> Option<string>, arrivals: seq<Packet>, k: nat, ack: SdFrame)
    ensures var (r, t) := Listen(refusal, arrivals, k, ack);
      && 1 <= |t| <= 2 && t[0] == SendAction(refusal(k), Sd(ack))
      && (r.Ok? <==> refusal(k).None? && refusal(k + 1).None?)
      && (r.Ok? ==> t[1] == Sniffed(Capture(arrivals, Filtro)))
      && (r.Ok? && r.value.Some? ==> Filtro(r.value.value) && r.value.value in arrivals)
      && (r.Ok? && r.value.None? ==> forall j :: 0 <= j < |arrivals| ==> !Filtro(arrivals[j]))
  {
    MatchingCapturedIsFirstSubscribe(arrivals);
  }

  /** `escuchar_subscribe_eventgroup` with the ack sent on the interface: it does what `Listen` says. */
  method EscucharSubscribeEventgroup(wire: Wire, ack: SdFrame) returns (r: Result<Option<Packet>, PyError>)
    modifies wire
    ensures var l := Listen(wire.refusal, wire.arrivals, |old(wire.trace)|, ack);
      r == l.0 && wire.trace == old(wire.trace) + l.1
  {
    var sent := wire.Send(Sd(ack));
    if sent.Err? {
      r := Err(sent.error);
      return;
    }
    var pkt :- wire.Sniff(Filtro);
    r := Ok(MatchingCaptured(pkt));
  }
}
