/** The SOME/IP-SD messages of the provider: the OfferService entry with its
    IPv4 endpoint option, and the SubscribeEventgroupAck entry, both written
    into one shared SD payload. */
module ServiceDiscovery {
  import opened Common
  import opened PyInt
  import opened Frames
  import opened Config

  /** The entry and the option that `_setSDEntry(method_data, "OFFER", data_dst)` installs, or the
      exception it raises, checked in the order the fields are assigned. */
  function OfferUpdate(md: Option<ServiceData>, dd: Option<MulticastData>): (r: Result<(Entry, Ipv4Option), PyError>)
    ensures md.None? ==> r == Err(NoneNotSubscriptable)
    ensures r.Ok? <==>
      && md.Some? && IntBase16(md.value.offer.majorVersion).Ok? && IntBase16(md.value.offer.minorVersion).Ok?
      && dd.Some? && IntBase16(dd.value.optionSdprot).Ok?
  {
    if md.None? then Err(NoneNotSubscriptable)
    else
      var d := md.value;
      var major :- IntBase16(d.offer.majorVersion);
      var minor :- IntBase16(d.offer.minorVersion);
      if dd.None? then Err(NoneNotSubscriptable)
      else
        var proto :- IntBase16(dd.value.optionSdprot);
        var entry := BlankServiceEntry.(typ := OfferServiceType, srvId := d.someip.servId, majorVer := major,
                                        tail := ServiceTail(minor), nOpt1 := 1, instId := 1, ttl := 3);
        Ok((entry, BlankIpv4Option.(addr := dd.value.ip, l4Proto := proto, port := dd.value.optionSdport)))
  }

  /** The SubscribeEventgroupAck entry `_SDEntry_EventGroup` builds, reading the eventgroup
      under `eventgroupKey` from the `SUBSCRIBE` dictionary. */
  function AckEntry(md: Option<ServiceData>, eventgroupKey: string): (r: Result<Entry, PyError>)
    ensures md.None? ==> r == Err(NoneNotSubscriptable)
  {
    if md.None? then Err(NoneNotSubscriptable)
    else
      var d := md.value;
      var major :- IntBase16(d.offer.majorVersion);
      var eventgroup :- SubscribeKey(d.subscribe, eventgroupKey);
      Ok(BlankEventGroupEntry.(typ := SubscribeEventgroupAckType, srvId := d.someip.servId, instId := 1,
                               majorVer := major, ttl := 3, tail := EventGroupTail(0, 0, eventgroup)))
  }

  /** Ethernet/VLAN/IP/UDP of the offer: from the ECU to its multicast group, on the SD ports. */
  function MulticastLink(d: MulticastData): Link {
    Link(d.macAddress, d.macMulticast, d.vlan, 5, d.ip, d.ipMulticast, d.sdPortSrc, d.sdPortDst)
  }

  /** Ethernet/VLAN/IP/UDP of the ack: unicast between the two ECUs on the SD ports, with
      the source MAC read under `macKey`. */
  function AckLink(dd: Option<UnicastData>, macKey: string): (r: Result<Link, PyError>)
    ensures dd.None? ==> r == Err(NoneNotSubscriptable)
    ensures dd.Some? ==> (r.Ok? <==> macKey in UnicastKeys)
  {
    if dd.None? then Err(NoneNotSubscriptable)
    else
      var u := dd.value;
      var macSrc :- UnicastKey(u, macKey);
      Ok(Link(macSrc, u.macDst, u.vlan, 5, u.ipSrc, u.ipDst, u.udpSrc, u.udpDst))
  }

  /** The dictionary keys the ack code reads: `eventgroup` in the `SUBSCRIBE` dictionary and
      `macSrc` in the unicast addresses. */
  datatype AckKeys = AckKeys(eventgroup: string, macSrc: string)

  /** The keys as spelled in the code, neither of which the parser produces. */
  const AsWrittenAckKeys := AckKeys("EventgroupID", "mac_src")
  /** The keys the parser produces for the same two values. */
  const ParserAckKeys := AckKeys("EvengroupID", "mac_address")

  /** The exception raised by calling the three-parameter ack method with two arguments. */
  const MissingServiceArgument :=
    "someipSD.craft_subscribeEventGroupACK_packet() missing 1 required positional argument: 'service'"

  /** The service-discovery helper. `header` never changes: the code only points its payload at
      `s` before each frame is put together, and every frame copies both. */
  class SomeipSD {
    const myParser: Parser
    const header: Header
    var s: SdBody

    constructor (p: Parser)
      ensures myParser == p && header == SdHeader
      ensures s == SdBody(SdFlags, [], [])
    {
      myParser := p;
      header := SdHeader;
      s := SdBody(SdFlags, [], []);
    }

    /** `_setSDEntry`: for "OFFER" replaces the entry array by the offer entry and the option
        array by its endpoint; any other option, and any exception, leaves `s` as it was. */
    method SetSDEntry(methodData: Option<ServiceData>, option: string, dataDst: Option<MulticastData>)
      returns (r: Result<(), PyError>)
      modifies this
      ensures option != "OFFER" ==> r == Ok(()) && s == old(s)
      ensures option == "OFFER" ==>
        match OfferUpdate(methodData, dataDst)
        case Ok(update) => r == Ok(()) && s == old(s).(entries := [update.0], options := [update.1])
        case Err(e) => r == Err(e) && s == old(s)
    {
      r := Ok(());
      var entry := BlankServiceEntry;
      if option == "OFFER" {
        entry := entry.(typ := OfferServiceType);
        if methodData.None? {
          r := Err(NoneNotSubscriptable);
          return;
        }
        entry := entry.(srvId := methodData.value.someip.servId);
        var major :- IntBase16(methodData.value.offer.majorVersion);
        entry := entry.(majorVer := major);
        var minor :- IntBase16(methodData.value.offer.minorVersion);
        entry := entry.(tail := ServiceTail(minor));
        entry := entry.(nOpt1 := 1);
        entry := entry.(instId := 1);
        entry := entry.(ttl := 3);
        var endpoint := BlankIpv4Option;
        if dataDst.None? {
          r := Err(NoneNotSubscriptable);
          return;
        }
        endpoint := endpoint.(addr := dataDst.value.ip);
        var proto :- IntBase16(dataDst.value.optionSdprot);
        endpoint := endpoint.(l4Proto := proto);
        endpoint := endpoint.(port := dataDst.value.optionSdport);
        s := s.(entries := [entry]);
        s := s.(options := [endpoint]);
      }
    }

    /** `_SDEntry_EventGroup`: replaces the entry array by the ack entry and leaves the option
        array alone; an exception leaves `s` as it was. */
    method SDEntryEventGroup(methodData: Option<ServiceData>, eventgroupKey: string) returns (r: Result<(), PyError>)
      modifies this
      ensures match AckEntry(methodData, eventgroupKey)
        case Ok(entry) => r == Ok(()) && s == old(s).(entries := [entry])
        case Err(e) => r == Err(e) && s == old(s)
    {
      r := Ok(());
      var entry := BlankEventGroupEntry;
      entry := entry.(typ := SubscribeEventgroupAckType);
      entry := entry.(index1 := 0, index2 := 0, nOpt1 := 0, nOpt2 := 0);
      if methodData.None? {
        r := Err(NoneNotSubscriptable);
        return;
      }
      entry := entry.(srvId := methodData.value.someip.servId);
      entry := entry.(instId := 1);
      var major :- IntBase16(methodData.value.offer.majorVersion);
      entry := entry.(majorVer := major);
      entry := entry.(ttl := 3);
      var eventgroup :- SubscribeKey(methodData.value.subscribe, eventgroupKey);
      entry := entry.(tail := EventGroupTail(0, 0, eventgroup));
      s := s.(entries := [entry]);
    }

    /** `craft_offer_packet` as written: the ack call on the way passes two arguments to a
        method of three parameters, so it always raises TypeError and changes nothing. */
    method CraftOfferPacketAsWritten(sender: string, destino: string, service: int) returns (r: Result<SdFrame, PyError>)
      ensures r == Err(TypeError(MissingServiceArgument))
    {
      var dataAck := myParser.Ecu1ToEcu2("PCU_Proxy_Frontend", "IVC");
      var dataDst := myParser.Multicast(sender);
      var myDic := myParser.GetServiceData(service);
      r := Err(TypeError(MissingServiceArgument));
    }

    /** `craft_offer_packet` without that call: the offer entry and endpoint go into `s`, and the
        frame carries copies of the header and of `s`, sent from the ECU to its multicast group. */
    method CraftOfferPacket(sender: string, destino: string, service: int) returns (r: Result<SdFrame, PyError>)
      modifies this
      ensures
        var dd := myParser.Multicast(sender);
        match OfferUpdate(myParser.GetServiceData(service), dd)
        case Ok(update) =>
          && s == old(s).(entries := [update.0], options := [update.1])
          && r == Ok(SdFrame(MulticastLink(dd.value), header, s))
        case Err(e) => r == Err(e) && s == old(s)
    {
      var dataDst := myParser.Multicast(sender);
      var myDic := myParser.GetServiceData(service);
      var u := SetSDEntry(myDic, "OFFER", dataDst);
      if u.Err? {
        r := Err(u.error);
        return;
      }
      r := Ok(SdFrame(MulticastLink(dataDst.value), header, s));
    }

    /** `craft_subscribeEventGroupACK_packet`, reading its two dictionary keys from `keys`: the
        ack entry goes into `s` (the options stay), and the frame goes from `sender` to `destino`. */
    method CraftSubscribeEventGroupAckPacket(sender: string, destino: string, service: int, keys: AckKeys)
      returns (r: Result<SdFrame, PyError>)
      modifies this
      ensures
        match AckEntry(myParser.GetServiceData(service), keys.eventgroup)
        case Ok(entry) =>
          && s == old(s).(entries := [entry])
          && r == (match AckLink(myParser.Ecu1ToEcu2(sender, destino), keys.macSrc)
                   case Ok(link) => Ok(SdFrame(link, header, s))
                   case Err(e) => Err(e))
        case Err(e) => r == Err(e) && s == old(s)
    {
      var dataDst := myParser.Ecu1ToEcu2(sender, destino);
      var methodData := myParser.GetServiceData(service);
      var u := SDEntryEventGroup(methodData, keys.eventgroup);
      if u.Err? {
        r := Err(u.error);
        return;
      }
      var link :- AckLink(dataDst, keys.macSrc);
      r := Ok(SdFrame(link, header, s));
    }
  }

  /** The offer entry is an OfferService entry of instance 1, TTL 3 and one option run, for the
      configured service ID, with the versions parsed from hexadecimal; the endpoint carries the
      ECU's address, its port and its protocol parsed from hexadecimal. */
  lemma OfferUpdateFields(md: ServiceData, dd: MulticastData)
    requires OfferUpdate(Some(md), Some(dd)).Ok?
    ensures var (e, o) := OfferUpdate(Some(md), Some(dd)).value;
      && e.typ == OfferServiceType && e.instId == 1 && e.ttl == 3
      && e.nOpt1 == 1 && e.nOpt2 == 0 && e.index1 == 0 && e.index2 == 0
      && e.srvId == md.someip.servId
      && e.majorVer == IntBase16(md.offer.majorVersion).value
      && e.tail == ServiceTail(IntBase16(md.offer.minorVersion).value)
      && o.addr == dd.ip && o.port == dd.optionSdport && o.l4Proto == IntBase16(dd.optionSdprot).value
  {
  }

  /** Versions and protocol written in the configuration as `0x`-prefixed hexadecimal end up in the
      offer as the numbers they denote. */
  lemma OfferVersionsFromHex(md: ServiceData, dd: MulticastData, major: nat, minor: nat, proto: nat)
    requires md.offer.majorVersion == JString("0x" + ToHex(major))
    requires md.offer.minorVersion == JString("0x" + ToHex(minor))
    requires dd.optionSdprot == JString("0x" + ToHex(proto))
    ensures OfferUpdate(Some(md), Some(dd)).Ok?
    ensures var (e, o) := OfferUpdate(Some(md), Some(dd)).value;
      e.majorVer == major && e.tail == ServiceTail(minor) && o.l4Proto == proto
  {
    ParseHexRoundTrip(major);
    ParseHexRoundTrip(minor);
    ParseHexRoundTrip(proto);
  }

  /** As written, the ack entry can never be built from a parser result: its eventgroup is read
      under `EventgroupID`, a key the `SUBSCRIBE` dictionary does not have. */
  lemma AckEntryAsWrittenFails(md: Option<ServiceData>)
    ensures AckEntry(md, AsWrittenAckKeys.eventgroup).Err?
    ensures md.Some? && IntBase16(md.value.offer.majorVersion).Ok? ==>
      AckEntry(md, AsWrittenAckKeys.eventgroup) == Err(KeyError("EventgroupID"))
  {
  }

  /** As written, the ack frame's source MAC is read under `mac_src`, which no unicast
      dictionary has. */
  lemma AckLinkAsWrittenFails(dd: Option<UnicastData>)
    ensures AckLink(dd, AsWrittenAckKeys.macSrc).Err?
    ensures dd.Some? ==> AckLink(dd, AsWrittenAckKeys.macSrc) == Err(KeyError("mac_src"))
  {
  }

  /** With the parser's keys, the ack entry is built exactly when the offer's major version parses;
      it is a SubscribeEventgroupAck for instance 1 with TTL 3, no options, counter and reserved
      bits 0, and the configured service ID and eventgroup. */
  lemma AckEntryWithParserKeys(md: ServiceData)
    ensures AckEntry(Some(md), ParserAckKeys.eventgroup).Ok? <==> IntBase16(md.offer.majorVersion).Ok?
    ensures AckEntry(Some(md), ParserAckKeys.eventgroup).Ok? ==>
      var e := AckEntry(Some(md), ParserAckKeys.eventgroup).value;
      && e.typ == SubscribeEventgroupAckType && e.instId == 1 && e.ttl == 3
      && e.index1 == 0 && e.index2 == 0 && e.nOpt1 == 0 && e.nOpt2 == 0
      && e.srvId == md.someip.servId && e.majorVer == IntBase16(md.offer.majorVersion).value
      && e.tail == EventGroupTail(0, 0, md.subscribe.evengroupId)
  {
  }

  /** With the parser's keys, an ack between two ECUs the parser lists gets its link: source MAC,
      IP and SD port of `sender`, destination MAC, IP and SD port of `destino`, and the sender's VLAN. */
  lemma AckLinkWithParserKeys(p: Parser, sender: string, destino: string)
    requires sender in p.GetEcus() && destino in p.GetEcus()
    ensures AckLink(p.Ecu1ToEcu2(sender, destino), ParserAckKeys.macSrc).Ok?
    ensures var l := AckLink(p.Ecu1ToEcu2(sender, destino), ParserAckKeys.macSrc).value;
      var s, d := p.DataByKey(p.ecus, sender).value, p.DataByKey(p.ecus, destino).value;
      && l.macSrc == s.macAddress && l.ipSrc == s.ip && l.sport == s.sdPortSrc && l.vlan == s.vlan
      && l.macDst == d.macAddress && l.ipDst == d.ip && l.dport == d.sdPortDst
  {
    UnicastForListedPair(p, sender, destino);
  }
}
