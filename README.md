# SOME/IP provider ECU simulator: a Dafny model

The program simulates one SOME/IP provider ECU on a VLAN. Given a pair of ECUs (the simulated provider, the real consumer) and a service ID, its server does the following:

- checks both ECUs against the configuration and binds a UDP socket;
- builds a SOME/IP-SD OfferService message, with its IPv4 endpoint option, and a SubscribeEventgroupAck message;
- sends the offer, then sends the ack and captures packets until a SubscribeEventgroup arrives;
- sends fifteen cyclic SOME/IP events and closes the socket.

This list is the flow the code evidently intends. As written, the server never gets past the offer: building it raises TypeError right after the bind, so nothing is sent (src/serviceDiscovery.py:61, first row of "## Findings"). The main server member models the intended flow with the defects listed there corrected. `StartSomeIpServerAsWritten` models the code as written.

A plugin holds the simulated vehicle-dynamics state and packs it into three little-endian event payloads.

The model covers:

- **`VehicleDynamics`** (`plugins/VehicleDynamicsPlugin.py`):
  - the three enumerations with their codes;
  - the state as a class whose setters update it in place;
  - the three encoders as functions with their decoders as partners, and the dispatcher by event name.
  - A float is its binary32 bit pattern, and `struct`'s `f` packs it as four little-endian bytes.
- **`Config`** (`src/parser.py`): the configuration as an immutable value, with the ECU and service records passed in. The lookups are first-match searches: ECU by name, method by `ID`. Unicast and multicast address projections are included.
- **`PyInt`**: Python's `int(s, 16)`, which parses the version and protocol strings of the configuration. Its inverse is the lower-case hexadecimal printer.
- **`ServiceDiscovery`** (`src/serviceDiscovery.py`):
  - the SD helper as a class whose SD payload `s` is overwritten by the entry builders;
  - the OfferService entry (type 0x01) with its IPv4 endpoint option, and the SubscribeEventgroupAck entry (type 0x07), as laid out in the Entry Format and Options Format clauses of the AUTOSAR SOME/IP Service Discovery Protocol Specification;
  - the SD header: service 0xFFFF, method 0x8100, NOTIFICATION, flags 0x03.
- **`SomeIpEvent`** (`src/someip.py`): the event builder. It assigns the header fields of the Header clause of the AUTOSAR SOME/IP Protocol Specification one by one and appends the configured payload.
- **`Transport`**: the network, as an object recording every bind, send, capture and close in a trace. The operating system's answer to each attempt, and the packets that arrive during a capture, are given when the object is created.
- **`SocketUdp`** (`src/socketUDP.py`): the stop filter `filtro`, the listener that sends the ack before it captures, and its result.
- **`SomeIpLab`** (`src/SomeIPLab.py`):
  - the server as a class;
  - the pair validation;
  - the single round of the `while` loop;
  - the fifteen events;
  - the outcome `(bool, message)` or the escaping exception.
  - `Run` states a whole call as a function of the configuration, the network's answers and the trace length. Lemmas about `Run` give success, failure and trace shape.

Exceptions are values of `PyError`, and an operation that can raise returns a `Result`. Configuration scalars are `Json` values, because the code passes them on without checking their type.

## Model

| member | source | states |
|---|---|---|
| VehicleDynamics.CodesRoundTrip | plugins/VehicleDynamicsPlugin.py:14-37 | each enumerator's uint8 code (ValueState 0-2, SpeedSignT 0-3, SpeedSupposedStateT 0-2) decodes back to that enumerator |
| VehicleDynamics.F32RoundTrip | plugins/VehicleDynamicsPlugin.py:122 | the four little-endian bytes of an `f` field give back the binary32 value packed into them |
| VehicleDynamics.F32BytesRoundTrip | plugins/VehicleDynamicsPlugin.py:122 | every four bytes are the `f` packing of the value they read as |
| VehicleDynamics.EncodeVehicleSpeed | plugins/VehicleDynamicsPlugin.py:103-131 | the VehicleSpeed payload is 14 bytes: validity codes at offsets 0, 5, 7 and 12, the sign code at 6, the standstill code at 13, the speed floats at 1-4 and 8-11 |
| VehicleDynamics.VehicleSpeedRoundTrip | plugins/VehicleDynamicsPlugin.py:103-131 | decoding the VehicleSpeed payload gives back the whole record |
| VehicleDynamics.VehicleSpeedDecodeExact | plugins/VehicleDynamicsPlugin.py:103-131 | any 14 bytes that decode are exactly the payload of the record they decode to |
| VehicleDynamics.EncodeAccelAndYaw | plugins/VehicleDynamicsPlugin.py:134-157 | the VehicleAccelAndYaw payload is 30 bytes; bytes 5k to 5k+4 are the validity code and the little-endian float of field k, in pack order: longitudinal, transversal and yaw rate, corrected then raw |
| VehicleDynamics.AccelAndYawLayout | plugins/VehicleDynamicsPlugin.py:143-157 | bytes 5k to 5k+4 are the validity byte and float of field k, in the order longitudinal, transversal, yaw rate corrected, then the same three raw |
| VehicleDynamics.AccelAndYawRoundTrip | plugins/VehicleDynamicsPlugin.py:134-157 | decoding the VehicleAccelAndYaw payload gives back the whole record |
| VehicleDynamics.AccelAndYawDecodeExact | plugins/VehicleDynamicsPlugin.py:134-157 | any 30 bytes that decode are exactly the payload of the record they decode to |
| VehicleDynamics.EncodeSpeedBody | plugins/VehicleDynamicsPlugin.py:159-172 | the VehicleSpeedBody payload is 5 bytes: the validity code, then the float |
| VehicleDynamics.SpeedBodyRoundTrip | plugins/VehicleDynamicsPlugin.py:159-172 | decoding the VehicleSpeedBody payload gives back the record |
| VehicleDynamics.SpeedBodyDecodeExact | plugins/VehicleDynamicsPlugin.py:159-172 | any 5 bytes that decode are exactly the payload of the record they decode to |
| VehicleDynamics.Payload | plugins/VehicleDynamicsPlugin.py:174-193 | succeeds iff the name is one of the three events; each known name gives a payload of its length that decodes to that part of the state; any other name raises ValueError("Evento no reconocido: " + name) |
| VehicleDynamics.InitialVehicleSpeedPayload | plugins/VehicleDynamicsPlugin.py:53-62 | a fresh plugin's VehicleSpeed payload is the 14 bytes of VALID zeros, FORWARD and STANDSTILL |
| VehicleDynamics.InitialAccelAndYawPayload | plugins/VehicleDynamicsPlugin.py:64-77 | a fresh plugin's VehicleAccelAndYaw payload is six VALID zero fields |
| VehicleDynamics.InitialSpeedBodyPayload | plugins/VehicleDynamicsPlugin.py:79-82 | a fresh plugin's VehicleSpeedBody payload is a VALID zero |
| VehicleDynamics.SetSpeedPayloads | plugins/VehicleDynamicsPlugin.py:92-95 | `set_speed(v)` puts v's bytes in both speed floats and the body float; every validity byte and the whole AccelAndYaw payload are unchanged |
| VehicleDynamics.IncrementSpeedPayloads | plugins/VehicleDynamicsPlugin.py:86-90 | `increment_speed` rewrites the same three floats with the incremented values and changes no other byte of any payload |
| VehicleDynamics.SetAccelerationPayloads | plugins/VehicleDynamicsPlugin.py:97-101 | `set_acceleration(l, t)` puts l in both longitudinal floats and t in both transversal floats; the yaw-rate fields, every validity byte and both speed payloads are unchanged |
| VehicleDynamics.VehicleDynamicsPlugin.constructor | plugins/VehicleDynamicsPlugin.py:52-84 | a fresh plugin holds the initial state, and its speed step is 1.0 |
| VehicleDynamics.VehicleDynamicsPlugin.IncrementSpeed | plugins/VehicleDynamicsPlugin.py:86-90 | the new state is the old one with the three speed values incremented by the step |
| VehicleDynamics.VehicleDynamicsPlugin.SetSpeed | plugins/VehicleDynamicsPlugin.py:92-95 | the new state is the old one with the three speed values set |
| VehicleDynamics.VehicleDynamicsPlugin.SetAcceleration | plugins/VehicleDynamicsPlugin.py:97-101 | the new state is the old one with the four acceleration values set |
| VehicleDynamics.VehicleDynamicsPlugin.GetPayload | plugins/VehicleDynamicsPlugin.py:174-193 | returns `Payload` of the current state and changes nothing, so two calls with no setter in between return the same bytes |
| Config.Parser.DataByKey | src/parser.py:40-59 | None iff no ECU has the name; otherwise the first ECU with that name |
| Config.DataByKeyIgnoresList | src/parser.py:54 | the list argument of `data_by_key` makes no difference: the search runs over the parser's own ECUs |
| Config.Parser.Ecu1ToEcu2 | src/parser.py:61-96 | None iff either ECU is unknown; otherwise the source MAC, IP, SD source port, SOME/IP source port and VLAN come from the source ECU, and the destination MAC, IP, SD destination port and SOME/IP destination port come from the destination ECU |
| Config.UnicastKey | src/parser.py:86-96 | subscripting the unicast dictionary succeeds iff the key is one of its nine keys, and raises KeyError(key) otherwise; each key returns the field stored under it (`mac_address` the source MAC, `ip_dst` the destination IP, and so on) |
| Config.Parser.Multicast | src/parser.py:98-129 | None iff the ECU is unknown; otherwise exactly the nine multicast fields of that one ECU |
| Config.Parser.GetServiceData | src/parser.py:131-178 | None iff no method of any service has that ID; otherwise the description of the first match, scanning services in order and then methods in order |
| Config.GetServiceDataIsFirstMatch | src/parser.py:144-147 | whenever a method is the first match, `get_service_data` returns exactly its description |
| Config.Describe | src/parser.py:147-177 | the description copies the names and ID; an absent FIND, OFFER, SUBSCRIBE or SOMEIP object yields None-valued fields, not an error |
| Config.SubscribeKey | src/parser.py:161-164 | subscripting the SUBSCRIBE dictionary succeeds iff the key is `Type` or `EvengroupID`, and raises KeyError(key) otherwise; `Type` returns the stored type and `EvengroupID` the stored eventgroup |
| Config.Parser.GetEcus | src/parser.py:180-187 | one name per ECU, in stored order |
| Config.GetEcusListsFindable | src/parser.py:187 | a name is listed by `get_ecus` iff `data_by_key` finds an ECU for it |
| Config.UnicastForListedPair | src/parser.py:78-83 | `ecu1_to_ecu2` gives addresses iff both names are listed by `get_ecus` |
| PyInt.ParseHex | src/serviceDiscovery.py:31-32 | `int(s, 16)` succeeds iff what is left after the whitespace, an optional sign and an optional `0x` is hexadecimal digits with single underscores between them; the value is those digits in base 16, negated after `-`; anything else raises ValueError |
| PyInt.IntBase16 | src/serviceDiscovery.py:40 | a configuration value that is not a string raises TypeError; a string is parsed as `int(s, 16)` |
| PyInt.ParseHexRoundTrip | src/serviceDiscovery.py:31-32 | every natural number printed in hexadecimal parses back to itself, bare, after `0x`, and negated after `-0x` |
| PyInt.ParseHexIgnoresSpaces | src/serviceDiscovery.py:31-32 | surrounding whitespace changes neither whether a literal parses nor its value |
| ServiceDiscovery.SomeipSD.constructor | src/serviceDiscovery.py:7-19 | the SD header has service ID 0xFFFF, method ID 0x8100 and message type NOTIFICATION; the SD payload has flags 0x03 and no entries or options |
| ServiceDiscovery.OfferUpdate | src/serviceDiscovery.py:21-44 | the offer update is built iff the service exists, both OFFER versions and the option protocol parse as base 16, and the ECU is known; a missing service raises TypeError |
| ServiceDiscovery.OfferUpdateFields | src/serviceDiscovery.py:27-41 | the offer entry has type 1, instance 1, TTL 3, one option run, the configured service ID and the base-16 versions; the endpoint has the ECU's IP, its SD option port and the base-16 protocol |
| ServiceDiscovery.OfferVersionsFromHex | src/serviceDiscovery.py:31-32 | versions and protocol written as `0x` hexadecimal end up in the offer as the numbers they denote |
| ServiceDiscovery.SomeipSD.SetSDEntry | src/serviceDiscovery.py:21-44 | with "OFFER", the entry array becomes the single offer entry and the option array the single endpoint; any other option, or an exception, leaves the SD payload unchanged |
| ServiceDiscovery.SomeipSD.SDEntryEventGroup | src/serviceDiscovery.py:92-111 | the entry array becomes the single ack entry and the options stay; an exception leaves the SD payload unchanged |
| ServiceDiscovery.AckEntryWithParserKeys | src/serviceDiscovery.py:97-110 | under the parser's keys, the ack entry is built iff the OFFER major version parses; it has type 0x07, indexes and option counts 0, instance 1, TTL 3, counter and reserved 0, the configured service ID, the base-16 major version and the configured eventgroup |
| ServiceDiscovery.AckEntryAsWrittenFails | src/serviceDiscovery.py:109 | the ack entry as written can never be built; once the version parses, it raises KeyError('EventgroupID') |
| ServiceDiscovery.AckLink | src/serviceDiscovery.py:120-128 | for a known pair, the ack link is built iff the source MAC key is one the unicast dictionary has |
| ServiceDiscovery.AckLinkWithParserKeys | src/serviceDiscovery.py:114 | under the parser's keys, an ack between two listed ECUs goes from the sender's MAC, IP, SD source port and VLAN to the consumer's MAC, IP and SD destination port |
| ServiceDiscovery.AckLinkAsWrittenFails | src/serviceDiscovery.py:122 | the ack link as written can never be built; for a known pair it raises KeyError('mac_src') |
| ServiceDiscovery.SomeipSD.CraftOfferPacketAsWritten | src/serviceDiscovery.py:46-61 | `craft_offer_packet` as written always raises TypeError for the missing `service` argument |
| ServiceDiscovery.SomeipSD.CraftOfferPacket | src/serviceDiscovery.py:46-81 | without the stale ack call, the offer entry and endpoint go into the SD payload, and the frame carries the header and that payload from the ECU to its multicast MAC, IP and SD port; any failure raises and leaves the payload unchanged |
| ServiceDiscovery.SomeipSD.CraftSubscribeEventGroupAckPacket | src/serviceDiscovery.py:113-132 | the ack entry replaces the entries of the SD payload, and the frame carries the header and that payload over the pair's unicast link; a failure to build the entry leaves the payload unchanged |
| SomeIpEvent.EventHeader | src/someip.py:25-32 | an event header has service ID 0x008C, the configured method ID, client ID 1, session ID 0, protocol and interface version 1, message type 2 and return code 0 |
| SomeIpEvent.EventHeaderFixed | src/someip.py:25-32 | whatever service was asked for and whatever came before, each craft gives those fixed header values; no session counter is kept |
| SomeIpEvent.AddPayload | src/someip.py:33 | None adds nothing, a string is appended as one more layer, any other value raises TypeError |
| SomeIpEvent.Someip.constructor | src/someip.py:10-12 | a fresh builder has the default header and no payload |
| SomeIpEvent.Someip.CraftSomeipPk | src/someip.py:14-42 | an unknown service raises TypeError before anything is assigned; otherwise the header is assigned and the payload appended to the reused layer, and the frame goes over the pair's SOME/IP ports and VLAN |
| SomeIpEvent.FreshEvent | src/SomeIPLab.py:97-98 | the event sent from a fresh builder: an unknown service raises, and a built event has the unicast SOME/IP link and the fixed header with the configured method ID |
| SomeIpEvent.FreshEventPayload | src/someip.py:16 | a fresh builder's event carries exactly the configured payload string, or nothing when none is configured |
| SomeIpEvent.PayloadAccumulates | src/someip.py:33 | on a reused builder, n crafts of a service with a string payload leave n more copies of it after whatever was there |
| Transport.Capture | src/socketUDP.py:82 | the capture keeps the arrivals up to and including the first one the stop filter accepts, or all of them when none does |
| Transport.Wire.Bind | src/socketUDP.py:15-37 | binding records a bound or refused action, and returns the operating system's error if it refused |
| Transport.Wire.Send | src/someip.py:45-46 | sending records a sent or refused frame, and returns the operating system's error if it refused |
| Transport.Wire.Sniff | src/socketUDP.py:82 | a capture records what it captured and returns it, or records the refusal and returns the error |
| Transport.Wire.Close | src/SomeIPLab.py:77 | closing records the close |
| SocketUdp.HasSubscribeEntry | src/socketUDP.py:72-79 | the loop over the entries finds one iff some entry has type 0x06 |
| SocketUdp.Filtro | src/socketUDP.py:68-80 | a packet stops the capture iff it has a SOME/IP layer with an entry array holding an entry of type 0x06; the service ID is not checked |
| SocketUdp.FirstCaptured | src/socketUDP.py:83 | the result as written: None iff nothing was captured, otherwise the first captured packet |
| SocketUdp.FirstCapturedNeedNotMatch | src/socketUDP.py:82-83 | a packet arriving before the subscription is returned in its place, although it does not match |
| SocketUdp.MatchingCaptured | src/socketUDP.py:58-60 | the documented result: a packet is returned iff the capture ended on a packet that matches the filter; that packet matches the filter and was captured |
| SocketUdp.MatchingCapturedIsFirstSubscribe | src/socketUDP.py:58-60 | the documented result is the first arriving subscription, and None iff no subscription arrives |
| SocketUdp.EscucharSubscribeEventgroupAsWritten | src/socketUDP.py:66 | as written, the listener raises AttributeError for `sendSDpacket` before any capture |
| SocketUdp.ListenSendsAckFirst | src/socketUDP.py:63-83 | the listener's first action is always the ack; it returns a packet iff the ack and the capture were accepted; a returned packet is an arriving subscription, and None means none arrived |
| SocketUdp.EscucharSubscribeEventgroup | src/socketUDP.py:40-83 | the listener with two corrections: the ack is sent on the interface, not through the undefined `sendSDpacket` (line 66); the result is the captured packet that matched, not `pkt[0]` (line 83). It returns and records what `Listen` says |
| SomeIpLab.ValidationError | src/SomeIPLab.py:45-49 | no exception iff both ECUs of the pair are listed by `get_ecus` |
| SomeIpLab.MyLab.constructor | src/SomeIPLab.py:19-21 | a new server has no unicast addresses yet |
| SomeIpLab.MyLab.ValidatePair | src/SomeIPLab.py:41-49 | the loop over the pair raises NotImplementedError for the first unlisted ECU, and returns nothing when both are listed |
| SomeIpLab.RunRejectsUnlistedPair | src/SomeIPLab.py:41-49 | an unlisted ECU raises NotImplementedError, which escapes the call before any network action |
| SomeIpLab.MyLab.SomeipServerSendEvent | src/SomeIPLab.py:84-102 | sends the event from a fresh builder, or nothing when it cannot be built; returns None on success and (False, "Error al enviar el evento") on any exception |
| SomeIpLab.MyLab.SendEvents | src/SomeIPLab.py:69-70 | fifteen event attempts, each made whether or not the previous one failed |
| SomeIpLab.EventAttemptsContents | src/SomeIPLab.py:69-70 | every attempt of a round sends the same event, each accepted or refused on its own |
| SomeIpLab.MyLab.ListenAndSendEvents | src/SomeIPLab.py:68-70 | the listener runs first; the fifteen events follow only when it raised nothing; it records and returns what `AfterOffer` says |
| SomeIpLab.MyLab.Exchange | src/SomeIPLab.py:66-70 | the offer is sent before the listener; a refused offer stops the round before the ack; it records and returns what `Round` says |
| SomeIpLab.MyLab.ServeRound | src/SomeIPLab.py:62-70 | the loop body crafts the offer and then the ack, sends the offer, listens and sends the events; it records and returns what `Round` says |
| SomeIpLab.RoundFramesShape | src/SomeIPLab.py:62-63 | the offer has one OfferService entry and one endpoint and goes to the multicast group; the ack has one SubscribeEventgroupAck entry for the same service and carries the offer's endpoint |
| SomeIpLab.RoundSuccessShape | src/SomeIPLab.py:62-70 | a round that raises nothing records the offer, the ack, the capture, then the event attempts, in that order |
| SomeIpLab.RoundSuccessTrace | src/SomeIPLab.py:62-70 | a round that raises nothing records the offer, the ack and the capture, then the same event exactly fifteen times unless it cannot be built |
| SomeIpLab.RoundFailureStopsEarly | src/SomeIPLab.py:62-70 | a round that raises stops within its first three actions, before any event, and does not close the socket |
| SomeIpLab.RoundIgnoresCapture | src/SomeIPLab.py:68-70 | what arrives during the capture changes only the recorded capture: the subscription is never used |
| SomeIpLab.MyLab.StartSomeIpServerAsWritten | src/SomeIPLab.py:23-82 | as written, a listed pair binds and then always fails with the TypeError message, sending nothing and leaving the socket open; an unlisted pair raises |
| SomeIpLab.MyLab.StartSomeIpServer | src/SomeIPLab.py:23-82 | validates, stores the pair's unicast addresses, binds, runs the loop body exactly once and closes; it returns and records what `Run` says |
| SomeIpLab.ServeSucceedsIff | src/SomeIPLab.py:52-82 | after validation, a call succeeds iff both SD messages can be built and the bind, both SD sends and the capture are accepted |
| SomeIpLab.RunSucceedsIff | src/SomeIPLab.py:41-82 | a call returns (True, "Servidor iniciado correctamente") iff the pair is listed, both SD messages can be built, and the bind, both SD sends and the capture are accepted; the events and the capture's result do not matter |
| SomeIpLab.ServeSuccessTrace | src/SomeIPLab.py:57-78 | a successful call after validation records bind, offer, ack, capture, fifteen event attempts unless the event cannot be built, and the close last |
| SomeIpLab.RunSuccessTrace | src/SomeIPLab.py:41-78 | a successful call records bind, offer, ack, capture, fifteen attempts of the same event unless it cannot be built, and the close last |
| SomeIpLab.FailedPrefix | src/SomeIPLab.py:80-82 | every failure message starts with "[ERROR] Error al iniciar servidor SOME/IP: " |
| SomeIpLab.ServeFailureLeavesSocketOpen | src/SomeIPLab.py:52-82 | after validation, a failed call records at most four actions, never closes the socket, and says why after the error prefix |
| SomeIpLab.RunFailureLeavesSocketOpen | src/SomeIPLab.py:52-82 | a call that returns False records at most four actions, never closes the socket, and says why after the error prefix |
| SomeIpLab.ServeIgnoresCapture | src/SomeIPLab.py:68-70 | after validation, what arrives during the capture changes neither the outcome nor any action other than the recorded capture |
| SomeIpLab.RunIgnoresCapture | src/SomeIPLab.py:68-70 | what arrives during the capture changes neither the outcome nor any action other than the recorded capture |

## Left out

- Loading `ecu_data.json` and `services.json`, and the FileNotFoundError checks of `Parser.__init__` (src/parser.py:22-38), are file I/O. The parser is built from the ECU and service records directly.
- An ECU record missing one of the keys the lookups read, which raises KeyError in Python, is not modelled: every ECU record has all its fields. A FIND, OFFER, SUBSCRIBE or SOMEIP value that is present but `null` is not modelled either; in Python, `.get` on it raises AttributeError.
- The scapy layering and byte serialisation of Ether, Dot1Q, IP, UDP, SOMEIP and SD, including field widths and truncation, belong to a foreign library. Only the field values the code assigns are modelled.
- The header's payload pointer `self.header.payload = self.s` is modelled as frames that copy the header and `s` when they are built, as scapy's `/` does. The aliasing itself is not modelled.
- Socket binding, `sendp`, `sniff`, its timeout and interface, and `close` are network I/O. Transport.Wire stands for them: the operating system's refusals and the arriving packets are inputs, and the error texts are opaque strings.
- Transport.Wire.Bind, Transport.Wire.Send, Transport.Wire.Sniff: whether the operating system accepts each attempt is given in advance as a function of the trace length, not derived from sockets.
- VehicleDynamics.VehicleDynamicsPlugin.IncrementSpeed: float addition is a parameter `add`, because floating-point arithmetic is not modelled.
- VehicleDynamics.Float32: Python stores doubles, and `struct` rounds them to binary32 when packing. That rounding, and the OverflowError for values too large for `f`, are not modelled. A value is held as its binary32 bit pattern.
- The `print` and `pkt.show()` output is console I/O.
- The stubs `stop_someip_server` (src/SomeIPLab.py:104-105) and `custom_payload` (src/someip.py:48-49) do nothing.
- main.py, src/main.py and src/__init__.py are not part of this model. The first runs shell scripts and builds an unused packet, the second duplicates the listener, and the third is a docstring.
- The 0.2 s event period exists only as a comment (src/SomeIPLab.py:73-74). No timer, TTL countdown or session counter is modelled, because the code has none.
- SomeIpLab.Unsupported: the list in the NotImplementedError message is printed as `['A', 'B']`. Python's escaping of quotes inside names is not modelled.
- Common.Str: the exception texts follow CPython's wording for the cases the code meets. Other exception texts are not reproduced.
- PyInt.ParseHex: only ASCII digits and ASCII whitespace are modelled. Python also accepts other Unicode digits and spaces.
- SomeIpLab.MyLab.StartSomeIpServer: this member models the server with the defects below corrected. The offer is crafted without the stale ack call, the ack is read under the parser's keys, both SD messages are sent on the interface, and the listener returns the packet that matched the filter rather than the first captured packet (src/socketUDP.py:83). The code as written is StartSomeIpServerAsWritten.
- ServiceDiscovery.AckKeys: the two dictionary keys the ack code reads are a parameter of `craft_subscribeEventGroupACK_packet`. The as-written spelling and the parser's spelling are both constants, so each version of the code is stated once.

## Findings

| source | as written | input that shows it | evidently intended | confidence | as-written member | corrected member |
|---|---|---|---|---|---|---|
| src/serviceDiscovery.py:61 | `craft_offer_packet` calls the three-parameter ack method with two arguments. This raises TypeError, so `start_someip_server` fails after the bind and sends nothing | any call, e.g. a listed pair and a configured service | no call: the ack is crafted separately (src/SomeIPLab.py:63), and its entry would be overwritten at line 64 anyway | not executed | ServiceDiscovery.SomeipSD.CraftOfferPacketAsWritten | ServiceDiscovery.SomeipSD.CraftOfferPacket |
| src/serviceDiscovery.py:109 | the eventgroup is read under `EventgroupID`, but the parser's SUBSCRIBE dictionary has `EvengroupID` (src/parser.py:163). This raises KeyError | any service whose OFFER major version parses | read `EvengroupID` | not executed | ServiceDiscovery.AckEntryAsWrittenFails | ServiceDiscovery.AckEntryWithParserKeys |
| src/serviceDiscovery.py:122 | the source MAC is read under `mac_src`, which no `ecu1_to_ecu2` result has. This raises KeyError | any pair of known ECUs | read `mac_address` | not executed | ServiceDiscovery.AckLinkAsWrittenFails | ServiceDiscovery.AckLinkWithParserKeys |
| src/socketUDP.py:66 | the listener sends the ack with `someipSD().sendSDpacket`, which no class defines. This raises AttributeError; src/SomeIPLab.py:66 sends the offer the same way | any call | send the frame on the interface | not executed | SocketUdp.EscucharSubscribeEventgroupAsWritten | SocketUdp.EscucharSubscribeEventgroup |
| src/socketUDP.py:83 | returns the first captured packet, which is not necessarily the subscription the filter stopped on | a packet without SOME/IP arriving before a SubscribeEventgroup | return the packet that stopped the capture, or None (src/socketUDP.py:58-60) | not executed | SocketUdp.FirstCapturedNeedNotMatch | SocketUdp.MatchingCapturedIsFirstSubscribe |
