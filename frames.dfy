/** The field values the provider assigns to the layers it builds: the
    SOME/IP header, the Ethernet/VLAN/IP/UDP addressing, and the SOME/IP-SD
    entries and options laid out in the AUTOSAR SOME/IP Service Discovery
    Protocol Specification (Entry Format and Options Format clauses). Only
    the values are kept; the byte serialisation of these layers is not
    part of this model. */
module Frames {
  import opened Common

  /** The SOME/IP header fields, as in the Header clause of the AUTOSAR SOME/IP Protocol Specification. */
  datatype Header = Header(
    srvId: Json, methodId: Json, clientId: int, sessionId: int,
    protoVer: int, ifaceVer: int, msgType: int, retcode: int)

  /** A header before any assignment: protocol and interface version 1, everything else 0. */
  const DefaultHeader := Header(JInt(0), JInt(0), 0, 0, 1, 1, 0, 0)

  /** Service ID 0xFFFF reserved for service discovery. */
  const SdServiceId := 0xFFFF
  /** Method ID 0x8100 of service-discovery messages. */
  const SdMethodId := 0x8100
  /** Message type 0x02, NOTIFICATION. */
  const NotificationType := 0x02

  /** The service-discovery header, the same for every SD message. */
  const SdHeader := DefaultHeader.(srvId := JInt(SdServiceId), methodId := JInt(SdMethodId), msgType := NotificationType)

  /** Ethernet source and destination, the VLAN tag with its priority, IP source
      and destination, UDP source and destination port. */
  datatype Link = Link(macSrc: Json, macDst: Json, vlan: Json, prio: int, ipSrc: Json, ipDst: Json, sport: Json, dport: Json)

  /** The fields an entry type has beyond the common ones. */
  datatype EntryTail =
    | ServiceTail(minorVer: int)
    | EventGroupTail(res: int, cnt: int, eventgroupId: Json)

  /** One entry of the SD entry array. */
  datatype Entry = Entry(
    typ: int, index1: int, index2: int, nOpt1: int, nOpt2: int,
    srvId: Json, instId: int, majorVer: int, ttl: int, tail: EntryTail)

  /** Entry types of the SD Entry Format: OfferService, SubscribeEventgroup and its Ack. */
  const OfferServiceType := 0x01
  const SubscribeEventgroupType := 0x06
  const SubscribeEventgroupAckType := 0x07

  /** A service entry with every field 0. */
  const BlankServiceEntry := Entry(0, 0, 0, 0, 0, JInt(0), 0, 0, 0, ServiceTail(0))
  /** An eventgroup entry with every field 0. */
  const BlankEventGroupEntry := Entry(0, 0, 0, 0, 0, JInt(0), 0, 0, 0, EventGroupTail(0, 0, JInt(0)))

  /** The IPv4 endpoint option: address, layer-4 protocol and port. */
  datatype Ipv4Option = Ipv4Option(addr: Json, l4Proto: int, port: Json)

  /** An IPv4 endpoint option before any assignment: address 0.0.0.0, UDP (0x11), port 0. */
  const BlankIpv4Option := Ipv4Option(JString("0.0.0.0"), 0x11, JInt(0))

  /** The SD payload: flags, entry array, option array. */
  datatype SdBody = SdBody(flags: int, entries: seq<Entry>, options: seq<Ipv4Option>)

  /** The flags the provider sets: reboot and unicast. */
  const SdFlags := 0x03

  /** An SD message ready to send: the copies taken of every layer when it was put together. */
  datatype SdFrame = SdFrame(link: Link, header: Header, body: SdBody)

  /** A SOME/IP event: header and the raw payload layers appended to it, in order. */
  datatype SomeIpMessage = SomeIpMessage(header: Header, payload: seq<string>)

  datatype EventFrame = EventFrame(link: Link, message: SomeIpMessage)

  /** The SOME/IP layer of a captured packet; `entryArray` is None when no SD layer follows it. */
  datatype SomeIpLayer = SomeIpLayer(entryArray: Option<seq<Entry>>)

  /** A packet captured on the interface; `someip` is None when it has no SOME/IP layer. */
  datatype Packet = Packet(someip: Option<SomeIpLayer>)
}
