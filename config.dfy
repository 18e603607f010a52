/** The configuration lookups of `Parser`: first-match searches over the ECU
    and service definitions, and the address dictionaries projected from them.
    The definitions are given to the parser directly instead of being read
    from the two JSON files. */
module Config {
  import opened Common

  /** One entry of the `ecus` list. The ECU name is compared with strings;
      every other value is copied unchanged into the address dictionaries. */
  datatype EcuDef = EcuDef(
    name: string,
    macAddress: Json,
    ip: Json,
    vlan: Json,
    sdPortSrc: Json,
    sdPortDst: Json,
    someipPortSrc: Json,
    someipPortDst: Json,
    macMulticast: Json,
    ipMulticast: Json,
    optionSdport: Json,
    optionSdprot: Json)

  /** The `FIND` and `OFFER` objects of a method (`JNull` for a missing key). */
  datatype VersionDef = VersionDef(typ: Json, majorVersion: Json, minorVersion: Json)

  /** The `SUBSCRIBE` object of a method, whose configuration key is spelled `EvengroupID`. */
  datatype SubscribeDef = SubscribeDef(typ: Json, evengroupId: Json)

  /** The `SOMEIP` object of a method. */
  datatype SomeIpDef = SomeIpDef(servId: Json, subId: Json, methodId: Json, messageType: Json, cycle: Json, payload: Json)

  /** One method of a service; an absent sub-object is `None`. */
  datatype MethodDef = MethodDef(
    name: Json,
    id: Json,
    find: Option<VersionDef>,
    offer: Option<VersionDef>,
    subscribe: Option<SubscribeDef>,
    someip: Option<SomeIpDef>,
    repPhaseTime: Json,
    repPhaseCycle: Json,
    response: Json,
    ecuOrigen: Json)

  /** One entry of the `services` list; a missing `methods` key is the empty list. */
  datatype ServiceDef = ServiceDef(name: Json, methods: seq<MethodDef>)

  /** The dictionary `get_service_data` returns. */
  datatype ServiceData = ServiceData(
    serviceName: Json,
    methodName: Json,
    id: Json,
    find: VersionDef,
    offer: VersionDef,
    subscribe: SubscribeDef,
    someip: SomeIpDef,
    repPhaseTime: Json,
    repPhaseCycle: Json,
    response: Json,
    ecuOrigen: Json)

  /** The dictionary `ecu1_to_ecu2` returns. */
  datatype UnicastData = UnicastData(
    macAddress: Json, macDst: Json, ipSrc: Json, ipDst: Json,
    udpSrc: Json, udpDst: Json, someipPortSrc: Json, someipPortDst: Json, vlan: Json)

  /** The dictionary `multicast` returns. */
  datatype MulticastData = MulticastData(
    macAddress: Json, macMulticast: Json, ip: Json, ipMulticast: Json,
    sdPortSrc: Json, sdPortDst: Json, vlan: Json, optionSdport: Json, optionSdprot: Json)

  const NoVersion := VersionDef(JNull, JNull, JNull)
  const NoSubscribe := SubscribeDef(JNull, JNull)
  const NoSomeIp := SomeIpDef(JNull, JNull, JNull, JNull, JNull, JNull)

  /** `d[key]` on a `get_service_data` result's `SUBSCRIBE` dictionary, which has exactly two keys. */
  function SubscribeKey(d: SubscribeDef, key: string): (r: Result<Json, PyError>)
    ensures r.Ok? <==> key in {"Type", "EvengroupID"}
    ensures r.Err? ==> r.error == KeyError(key)
    ensures key == "Type" ==> r == Ok(d.typ)
    ensures key == "EvengroupID" ==> r == Ok(d.evengroupId)
  {
    if key == "Type" then Ok(d.typ)
    else if key == "EvengroupID" then Ok(d.evengroupId)
    else Err(KeyError(key))
  }

  /** The keys of an `ecu1_to_ecu2` result. */
  const UnicastKeys: set<string> :=
    {"mac_address", "mac_dst", "ip_src", "ip_dst", "udp_src", "udp_dst", "someip_port_src", "someip_port_dst", "vlan"}

  /** `d[key]` on an `ecu1_to_ecu2` result. */
  function UnicastKey(d: UnicastData, key: string): (r: Result<Json, PyError>)
    ensures r.Ok? <==> key in UnicastKeys
    ensures r.Err? ==> r.error == KeyError(key)
    ensures key == "mac_address" ==> r == Ok(d.macAddress)
    ensures key == "mac_dst" ==> r == Ok(d.macDst)
    ensures key == "ip_src" ==> r == Ok(d.ipSrc)
    ensures key == "ip_dst" ==> r == Ok(d.ipDst)
    ensures key == "udp_src" ==> r == Ok(d.udpSrc)
    ensures key == "udp_dst" ==> r == Ok(d.udpDst)
    ensures key == "someip_port_src" ==> r == Ok(d.someipPortSrc)
    ensures key == "someip_port_dst" ==> r == Ok(d.someipPortDst)
    ensures key == "vlan" ==> r == Ok(d.vlan)
  {
    if key == "mac_address" then Ok(d.macAddress)
    else if key == "mac_dst" then Ok(d.macDst)
    else if key == "ip_src" then Ok(d.ipSrc)
    else if key == "ip_dst" then Ok(d.ipDst)
    else if key == "udp_src" then Ok(d.udpSrc)
    else if key == "udp_dst" then Ok(d.udpDst)
    else if key == "someip_port_src" then Ok(d.someipPortSrc)
    else if key == "someip_port_dst" then Ok(d.someipPortDst)
    else if key == "vlan" then Ok(d.vlan)
    else Err(KeyError(key))
  }

  /** The index of the first ECU named `key`, or `|ecus|` when there is none. */
  function FirstEcu(ecus: seq<EcuDef>, key: string): (i: nat)
    ensures i <= |ecus|
    ensures forall k :: 0 <= k < i ==> ecus[k].name != key
    ensures i < |ecus| ==> ecus[i].name == key
  {
    if |ecus| == 0 then 0
    else if ecus[0].name == key then 0
    else 1 + FirstEcu(ecus[1..], key)
  }

  /** Whether some method of `s` has an `ID` equal to `id`. */
  predicate HasMethod(s: ServiceDef, id: int) {
    exists j :: 0 <= j < |s.methods| && EqualsInt(s.methods[j].id, id)
  }

  /** The index of the first method whose `ID` equals `id`, or `|ms|` when there is none. */
  function FirstMethod(ms: seq<MethodDef>, id: int): (j: nat)
    ensures j <= |ms|
    ensures forall k :: 0 <= k < j ==> !EqualsInt(ms[k].id, id)
    ensures j < |ms| ==> EqualsInt(ms[j].id, id)
  {
    if |ms| == 0 then 0
    else if EqualsInt(ms[0].id, id) then 0
    else 1 + FirstMethod(ms[1..], id)
  }

  /** The index of the first service holding a method with `ID` equal to `id`, or `|ss|`. */
  function FirstService(ss: seq<ServiceDef>, id: int): (i: nat)
    ensures i <= |ss|
    ensures forall k :: 0 <= k < i ==> !HasMethod(ss[k], id)
    ensures i < |ss| ==> HasMethod(ss[i], id)
  {
    if |ss| == 0 then 0
    else if FirstMethod(ss[0].methods, id) < |ss[0].methods| then 0
    else 1 + FirstService(ss[1..], id)
  }

  /** The `get_service_data` dictionary of method `m` of service `s`. */
  function Describe(s: ServiceDef, m: MethodDef): (d: ServiceData)
    ensures d.id == m.id && d.serviceName == s.name && d.methodName == m.name
    ensures d.find == (if m.find.Some? then m.find.value else NoVersion)
    ensures d.offer == (if m.offer.Some? then m.offer.value else NoVersion)
    ensures d.subscribe == (if m.subscribe.Some? then m.subscribe.value else NoSubscribe)
    ensures d.someip == (if m.someip.Some? then m.someip.value else NoSomeIp)
  {
    ServiceData(
      s.name, m.name, m.id,
      if m.find.Some? then m.find.value else NoVersion,
      if m.offer.Some? then m.offer.value else NoVersion,
      if m.subscribe.Some? then m.subscribe.value else NoSubscribe,
      if m.someip.Some? then m.someip.value else NoSomeIp,
      m.repPhaseTime, m.repPhaseCycle, m.response, m.ecuOrigen)
  }

  /** Whether method `j` of service `i` is the first one, scanning services and then
      methods in order, whose `ID` equals `id`. */
  predicate IsFirstMatch(ss: seq<ServiceDef>, id: int, i: int, j: int) {
    && 0 <= i < |ss| && 0 <= j < |ss[i].methods|
    && EqualsInt(ss[i].methods[j].id, id)
    && (forall k :: 0 <= k < i ==> !HasMethod(ss[k], id))
    && (forall l :: 0 <= l < j ==> !EqualsInt(ss[i].methods[l].id, id))
  }

  /** The configuration: the ECU and service definitions, never changed after construction. */
  datatype Parser = Parser(ecus: seq<EcuDef>, services: seq<ServiceDef>) {

    /** `data_by_key`: the first ECU named `key`. The list argument is not consulted:
        the search always runs over the parser's own ECUs. */
    function DataByKey(ecuDefinitions: seq<EcuDef>, key: string): (r: Option<EcuDef>)
      ensures r.None? <==> forall k :: 0 <= k < |ecus| ==> ecus[k].name != key
      ensures r.Some? ==> exists i :: 0 <= i < |ecus| && ecus[i] == r.value && ecus[i].name == key
                            && forall k :: 0 <= k < i ==> ecus[k].name != key
    {
      var i := FirstEcu(ecus, key);
      if i < |ecus| then Some(ecus[i]) else None
    }

    /** `ecu1_to_ecu2`: addresses for unicast from `ecuSrc` to `ecuDst`, or None when either is unknown. */
    function Ecu1ToEcu2(ecuSrc: string, ecuDst: string): (r: Option<UnicastData>)
      ensures r.None? <==> DataByKey(ecus, ecuSrc).None? || DataByKey(ecus, ecuDst).None?
      ensures r.Some? ==>
        var s, d := DataByKey(ecus, ecuSrc).value, DataByKey(ecus, ecuDst).value;
        && r.value.macAddress == s.macAddress && r.value.ipSrc == s.ip && r.value.udpSrc == s.sdPortSrc
        && r.value.someipPortSrc == s.someipPortSrc && r.value.vlan == s.vlan
        && r.value.macDst == d.macAddress && r.value.ipDst == d.ip && r.value.udpDst == d.sdPortDst
        && r.value.someipPortDst == d.someipPortDst
    {
      var src :- DataByKey(ecus, ecuSrc);
      var dst :- DataByKey(ecus, ecuDst);
      Some(UnicastData(src.macAddress, dst.macAddress, src.ip, dst.ip, src.sdPortSrc, dst.sdPortDst,
                       src.someipPortSrc, dst.someipPortDst, src.vlan))
    }

    /** `multicast`: the nine multicast fields of one ECU, or None when it is unknown. */
    function Multicast(ecu1: string): (r: Option<MulticastData>)
      ensures r.None? <==> DataByKey(ecus, ecu1).None?
      ensures r.Some? ==>
        var e := DataByKey(ecus, ecu1).value;
        r.value == MulticastData(e.macAddress, e.macMulticast, e.ip, e.ipMulticast, e.sdPortSrc,
                                 e.sdPortDst, e.vlan, e.optionSdport, e.optionSdprot)
    {
      var e :- DataByKey(ecus, ecu1);
      Some(MulticastData(e.macAddress, e.macMulticast, e.ip, e.ipMulticast, e.sdPortSrc,
                         e.sdPortDst, e.vlan, e.optionSdport, e.optionSdprot))
    }

    /** `get_service_data`: the description of the first method with `ID` equal to `serviceId`. */
    function GetServiceData(serviceId: int): (r: Option<ServiceData>)
      ensures r.None? <==> forall i :: 0 <= i < |services| ==> !HasMethod(services[i], serviceId)
      ensures r.Some? ==> exists i, j :: IsFirstMatch(services, serviceId, i, j)
                            && r.value == Describe(services[i], services[i].methods[j])
    {
      var i := FirstService(services, serviceId);
      if i < |services| then
        var j := FirstMethod(services[i].methods, serviceId);
        assert j < |services[i].methods| by {
          var w :| 0 <= w < |services[i].methods| && EqualsInt(services[i].methods[w].id, serviceId);
        }
        assert IsFirstMatch(services, serviceId, i, j);
        Some(Describe(services[i], services[i].methods[j]))
      else
        None
    }

    /** `get_ecus`: one name per ECU, in stored order. */
    function GetEcus(): (r: seq<string>)
      ensures |r| == |ecus| && forall i :: 0 <= i < |ecus| ==> r[i] == ecus[i].name
    {
      seq(|ecus|, i requires 0 <= i < |ecus| => ecus[i].name)
    }
  }

  /** The list given to `data_by_key` makes no difference to its result. */
  lemma DataByKeyIgnoresList(p: Parser, a: seq<EcuDef>, b: seq<EcuDef>, key: string)
    ensures p.DataByKey(a, key) == p.DataByKey(b, key)
  {
  }

  /** A name is listed by `get_ecus` exactly when `data_by_key` finds an ECU for it. */
  lemma GetEcusListsFindable(p: Parser, key: string)
    ensures key in p.GetEcus() <==> p.DataByKey(p.ecus, key).Some?
  {
    var names := p.GetEcus();
    if key in names {
      var i :| 0 <= i < |names| && names[i] == key;
      assert p.ecus[i].name == key;
    }
    if p.DataByKey(p.ecus, key).Some? {
      var i := FirstEcu(p.ecus, key);
      assert names[i] == key;
    }
  }

  /** Two ECUs that `get_ecus` lists always have unicast addresses. */
  lemma UnicastForListedPair(p: Parser, a: string, b: string)
    ensures p.Ecu1ToEcu2(a, b).Some? <==> a in p.GetEcus() && b in p.GetEcus()
  {
    GetEcusListsFindable(p, a);
    GetEcusListsFindable(p, b);
  }

  /** The first match is unique, so `get_service_data` returns exactly that method's description. */
  lemma GetServiceDataIsFirstMatch(p: Parser, id: int, i: int, j: int)
    requires IsFirstMatch(p.services, id, i, j)
    ensures p.GetServiceData(id) == Some(Describe(p.services[i], p.services[i].methods[j]))
  {
    var r := p.GetServiceData(id);
    assert HasMethod(p.services[i], id);
    var i', j' :| IsFirstMatch(p.services, id, i', j') && r.value == Describe(p.services[i'], p.services[i'].methods[j']);
    assert HasMethod(p.services[i'], id);
    assert i' == i;
    assert j' == j;
  }
}
