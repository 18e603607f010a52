/** The cyclic SOME/IP event the provider sends: header fields assigned one
    by one on a reused SOME/IP layer, the configured payload appended to it,
    and the unicast addressing towards the consumer. */
module SomeIpEvent {
  import opened Common
  import opened Frames
  import opened Config

  /** The service ID every event carries, whatever service was asked for. */
  const EventServiceId := 0x008C

  /** The header after the assignments of `craft_someip_pk`: only the method ID comes
      from the configuration. */
  function EventHeader(methodId: Json): (h: Header)
    ensures h.srvId == JInt(EventServiceId) && h.methodId == methodId
    ensures h.clientId == 1 && h.sessionId == 0 && h.protoVer == 1 && h.ifaceVer == 1
    ensures h.msgType == NotificationType && h.retcode == 0
  {
    Header(JInt(EventServiceId), methodId, 1, 0, 1, 1, NotificationType, 0)
  }

  /** `add_payload`: None adds nothing, a string is appended as one more raw layer, and any
      other value raises TypeError. */
  function AddPayload(layers: seq<string>, v: Json): (r: Result<seq<string>, PyError>)
    ensures v.JNull? ==> r == Ok(layers)
    ensures v.JString? ==> r == Ok(layers + [v.s])
    ensures !v.JNull? && !v.JString? ==> r.Err? && r.error.TypeError?
  {
    match v
    case JNull => Ok(layers)
    case JString(t) => Ok(layers + [t])
    case _ => Err(TypeError("payload must be 'Packet', 'bytes', 'str', 'bytearray', or 'memoryview'"))
  }

  /** Ethernet/VLAN/IP/UDP of an event: unicast between the two ECUs on the SOME/IP ports. */
  function EventLink(u: UnicastData): Link {
    Link(u.macAddress, u.macDst, u.vlan, 5, u.ipSrc, u.ipDst, u.someipPortSrc, u.someipPortDst)
  }

  /** The message after one `craft_someip_pk` that got past the service lookup, or the
      exception `add_payload` raised (the header is then already assigned). */
  function EventMessage(prev: SomeIpMessage, someip: SomeIpDef): (SomeIpMessage, Option<PyError>) {
    var m := prev.(header := EventHeader(someip.methodId));
    match AddPayload(m.payload, someip.payload)
    case Ok(layers) => (m.(payload := layers), None)
    case Err(e) => (m, Some(e))
  }

  /** The builder of events, holding the SOME/IP layer it reuses from call to call. */
  class Someip {
    const myParser: Parser
    var some: SomeIpMessage

    constructor (p: Parser)
      ensures myParser == p && some == SomeIpMessage(DefaultHeader, [])
    {
      myParser := p;
      some := SomeIpMessage(DefaultHeader, []);
    }

    /** `craft_someip_pk`. An unknown service fails before anything is assigned; otherwise the
        header and payload are assigned first, and the frame copies the layer last, towards the
        consumer named in `dataDst`. */
    method CraftSomeipPk(service: int, dataDst: Option<UnicastData>) returns (r: Result<EventFrame, PyError>)
      modifies this
      ensures myParser.GetServiceData(service).None? ==> r == Err(NoneNotSubscriptable) && some == old(some)
      ensures myParser.GetServiceData(service).Some? ==>
        var (m, raised) := EventMessage(old(some), myParser.GetServiceData(service).value.someip);
        && some == m
        && r == (if raised.Some? then Err(raised.value)
                 else if dataDst.None? then Err(NoneNotSubscriptable)
                 else Ok(EventFrame(EventLink(dataDst.value), m)))
    {
      var data := myParser.GetServiceData(service);
      if data.None? {
        r := Err(NoneNotSubscriptable);
        return;
      }
      var payload := data.value.someip.payload;
      some := some.(header := some.header.(srvId := JInt(EventServiceId)));
      some := some.(header := some.header.(methodId := data.value.someip.methodId));
      some := some.(header := some.header.(clientId := 1));
      some := some.(header := some.header.(sessionId := 0));
      some := some.(header := some.header.(ifaceVer := 1));
      some := some.(header := some.header.(protoVer := 1));
      some := some.(header := some.header.(msgType := NotificationType));
      some := some.(header := some.header.(retcode := 0));
      var layers :- AddPayload(some.payload, payload);
      some := some.(payload := layers);
      if dataDst.None? {
        r := Err(NoneNotSubscriptable);
        return;
      }
      r := Ok(EventFrame(EventLink(dataDst.value), some));
    }
  }

  /** What a fresh builder returns for `service`: the event `someip_server_send_event` sends. */
  function FreshEvent(p: Parser, service: int, dataDst: Option<UnicastData>): (r: Result<EventFrame, PyError>)
    ensures p.GetServiceData(service).None? ==> r == Err(NoneNotSubscriptable)
    ensures r.Ok? ==> dataDst.Some? && r.value.link == EventLink(dataDst.value)
                      && r.value.message.header == EventHeader(p.GetServiceData(service).value.someip.methodId)
  {
    match p.GetServiceData(service)
    case None => Err(NoneNotSubscriptable)
    case Some(d) =>
      var (m, raised) := EventMessage(SomeIpMessage(DefaultHeader, []), d.someip);
      if raised.Some? then Err(raised.value)
      else if dataDst.None? then Err(NoneNotSubscriptable)
      else Ok(EventFrame(EventLink(dataDst.value), m))
  }

  /** Every event header carries service ID 0x008C and session ID 0, whatever the service asked
      for and however many events came before: no counter is kept. */
  lemma EventHeaderFixed(prev: SomeIpMessage, someip: SomeIpDef)
    ensures var h := EventMessage(prev, someip).0.header;
      h.srvId == JInt(EventServiceId) && h.sessionId == 0 && h.clientId == 1
      && h.protoVer == 1 && h.ifaceVer == 1 && h.msgType == NotificationType && h.retcode == 0
      && h.methodId == someip.methodId
  {
  }

  /** The reused layer after `n` crafts of the same service in a row. */
  function Crafted(prev: SomeIpMessage, someip: SomeIpDef, n: nat): SomeIpMessage
    decreases n
  {
    if n == 0 then prev else EventMessage(Crafted(prev, someip, n - 1), someip).0
  }

  /** A reused layer keeps its earlier payload layers: n crafts of a service whose payload is the
      string t leave n more copies of t behind whatever was there. */
  lemma {:induction false} PayloadAccumulates(prev: SomeIpMessage, someip: SomeIpDef, t: string, n: nat)
    requires someip.payload == JString(t)
    ensures Crafted(prev, someip, n).payload == prev.payload + seq(n, _ => t)
    decreases n
  {
    if n > 0 {
      PayloadAccumulates(prev, someip, t, n - 1);
      assert prev.payload + seq(n - 1, _ => t) + [t] == prev.payload + seq(n, _ => t);
    }
  }

  /** A fresh builder gives an event whose payload is exactly the configured string (or nothing
      when none is configured). */
  lemma FreshEventPayload(someip: SomeIpDef)
    requires someip.payload.JNull? || someip.payload.JString?
    ensures var (m, raised) := EventMessage(SomeIpMessage(DefaultHeader, []), someip);
      raised.None? && m.payload == (if someip.payload.JString? then [someip.payload.s] else [])
  {
  }
}
