/** The provider's server: validate the ECU pair, bind the socket, then one
    round of OfferService, SubscribeEventgroupAck, capture and fifteen cyclic
    events, and close the socket. */
module SomeIpLab {
  import opened Common
  import opened Frames
  import opened Config
  import opened ServiceDiscovery
  import opened SomeIpEvent
  import opened Transport
  import opened SocketUdp

  /** What a call ended with: an exception that escaped it, or the pair it returned. */
  datatype StartOutcome = Raised(error: PyError) | Returned(ok: bool, message: string)

  const Started := "Servidor iniciado correctamente"
  const StartError := "[ERROR] Error al iniciar servidor SOME/IP: "
  const EventError := "Error al enviar el evento"
  /** Events sent per round; the code gives no timer and no other bound. */
  const EventsPerRun := 15

  /** The names as Python prints a list of strings: `['A', 'B']`. */
  function ListRepr(names: seq<string>): string {
    "[" + QuotedJoin(names) + "]"
  }

  function QuotedJoin(names: seq<string>): string {
    if |names| == 0 then ""
    else if |names| == 1 then "'" + names[0] + "'"
    else "'" + names[0] + "', " + QuotedJoin(names[1..])
  }

  /** The exception raised for an ECU that the configuration does not list. */
  function Unsupported(ecu: string, allowed: seq<string>): PyError {
    NotImplementedError("ECU '" + ecu + "' no está soportada. Solo se permiten: " + ListRepr(allowed))
  }

  /** The exception the pair validation raises: for the first ECU of the pair that is not listed. */
  function ValidationError(p: Parser, origen: string, destino: string): (r: Option<PyError>)
    ensures r.None? <==> origen in p.GetEcus() && destino in p.GetEcus()
  {
    if origen !in p.GetEcus() then Some(Unsupported(origen, p.GetEcus()))
    else if destino !in p.GetEcus() then Some(Unsupported(destino, p.GetEcus()))
    else None
  }

  /** The offer of a round, from a fresh SD helper. */
  function OfferFrameFor(p: Parser, origen: string, service: int): Result<SdFrame, PyError> {
    var dd := p.Multicast(origen);
    var update :- OfferUpdate(p.GetServiceData(service), dd);
    Ok(SdFrame(MulticastLink(dd.value), SdHeader, SdBody(SdFlags, [update.0], [update.1])))
  }

  /** The ack of a round, crafted after the offer on the same SD payload: its entry replaces the
      offer's, its option array is the offer's. */
  function AckFrameFor(p: Parser, origen: string, destino: string, service: int, options: seq<Ipv4Option>)
    : Result<SdFrame, PyError>
  {
    var entry :- AckEntry(p.GetServiceData(service), ParserAckKeys.eventgroup);
    var link :- AckLink(p.Ecu1ToEcu2(origen, destino), ParserAckKeys.macSrc);
    Ok(SdFrame(link, SdHeader, SdBody(SdFlags, [entry], options)))
  }

  /** The first `n` event attempts of a round, the first made when the trace has `k` entries:
      none when the event cannot be crafted. */
  function EventAttempts(refusal: nat -> Option<string>, k: nat, ev: Result<EventFrame, PyError>, n: nat): (a: seq<Action>)
    ensures |a| == (if ev.Ok? then n else 0)
    decreases n
  {
    if ev.Err? || n == 0 then []
    else EventAttempts(refusal, k, ev, n - 1) + [SendAction(refusal(k + n - 1), Event(ev.value))]
  }

  /** Attempt j sends the same event, accepted or refused as the network answers at `k + j`. */
  lemma {:induction false} EventAttemptsContents(refusal: nat -> Option<string>, k: nat, ev: Result<EventFrame, PyError>, n: nat)
    requires ev.Ok?
    ensures forall j :: 0 <= j < n ==> EventAttempts(refusal, k, ev, n)[j] == SendAction(refusal(k + j), Event(ev.value))
    decreases n
  {
    if n > 0 {
      EventAttemptsContents(refusal, k, ev, n - 1);
      var a := EventAttempts(refusal, k, ev, n);
      assert a == EventAttempts(refusal, k, ev, n - 1) + [SendAction(refusal(k + n - 1), Event(ev.value))];
    }
  }

  /** One more attempt appends one more send of the same event. */
  lemma EventAttemptsStep(refusal: nat -> Option<string>, k: nat, ev: Result<EventFrame, PyError>, n: nat)
    ensures EventAttempts(refusal, k, ev, n + 1) == EventAttempts(refusal, k, ev, n) + EventAttempts(refusal, k + n, ev, 1)
  {
    if ev.Ok? {
      assert EventAttempts(refusal, k + n, ev, 1) == [SendAction(refusal(k + n), Event(ev.value))];
    }
  }

  /** A trace that already holds `n` attempts, extended by the attempt made at its current
      length, holds `n + 1` attempts. */
  lemma ExtendAttempts(t0: seq<Action>, refusal: nat -> Option<string>, ev: Result<EventFrame, PyError>, n: nat)
    ensures var t := t0 + EventAttempts(refusal, |t0|, ev, n);
      t + EventAttempts(refusal, |t|, ev, 1) == t0 + EventAttempts(refusal, |t0|, ev, n + 1)
  {
    var a := EventAttempts(refusal, |t0|, ev, n);
    var t := t0 + a;
    if ev.Ok? {
      assert |t| == |t0| + n;
    }
    EventAttemptsStep(refusal, |t0|, ev, n);
    AppendSteps(t0, a, EventAttempts(refusal, |t|, ev, 1));
  }

  /** Appending a trace in steps records the same actions as appending them at once. */
  lemma AppendSteps(t: seq<Action>, a: seq<Action>, b: seq<Action>)
    ensures t + a + b == t + (a + b)
  {
  }

  function Failed(e: PyError): StartOutcome {
    Returned(false, StartError + Str(e))
  }

  /** The offer and the ack of a round, in the order they are crafted. */
  function RoundFrames(p: Parser, origen: string, destino: string, service: int): Result<(SdFrame, SdFrame), PyError> {
    var offer :- OfferFrameFor(p, origen, service);
    var ack :- AckFrameFor(p, origen, destino, service, offer.body.options);
    Ok((offer, ack))
  }

  /** What follows the offer in a round, the listener starting when the trace has `k` entries:
      the listener (ack, capture), then fifteen event attempts unless it raised. */
  function AfterOffer(refusal: nat -> Option<string>, arrivals: seq<Packet>, k: nat,
                      ack: SdFrame, ev: Result<EventFrame, PyError>): (Option<PyError>, seq<Action>)
  {
    var listen := Listen(refusal, arrivals, k, ack);
    if listen.0.Err? then (Some(listen.0.error), listen.1)
    else (None, listen.1 + EventAttempts(refusal, k + 2, ev, EventsPerRun))
  }

  /** The network part of a round once both SD messages are built, the offer sent when the trace
      has `k` entries: send the offer, run the listener (ack, capture), then fifteen event
      attempts. Gives the exception that escaped, if any, and the actions recorded. */
  function Round(refusal: nat -> Option<string>, arrivals: seq<Packet>, k: nat,
                 offer: SdFrame, ack: SdFrame, ev: Result<EventFrame, PyError>): (Option<PyError>, seq<Action>)
  {
    if refusal(k).Some? then (Some(OSError(refusal(k).value)), [SendRefused(Sd(offer))])
    else
      var rest := AfterOffer(refusal, arrivals, k + 1, ack, ev);
      (rest.0, [Sent(Sd(offer))] + rest.1)
  }

  /** What a call does once the pair is validated, given the pair's unicast addresses, the two SD
      messages (or the exception crafting them raised) and the event of the round: bind, the
      round, and the close when nothing escaped. */
  function Serve(refusal: nat -> Option<string>, arrivals: seq<Packet>, k: nat, u: UnicastData,
                 frames: Result<(SdFrame, SdFrame), PyError>, ev: Result<EventFrame, PyError>): (StartOutcome, seq<Action>)
  {
    if refusal(k).Some? then (Failed(OSError(refusal(k).value)), [BindRefused(u.ipSrc, u.udpDst)])
    else
      match frames
      case Err(e) => (Failed(e), [Bound(u.ipSrc, u.udpDst)])
      case Ok(f) =>
        var round := Round(refusal, arrivals, k + 1, f.0, f.1, ev);
        if round.0.Some? then (Failed(round.0.value), [Bound(u.ipSrc, u.udpDst)] + round.1)
        else (Returned(true, Started), [Bound(u.ipSrc, u.udpDst)] + round.1 + [Closed])
  }

  /** One call of `start_someip_server` on a network whose trace has `k` entries: what it ends
      with, and the actions it appends. */
  function Run(p: Parser, origen: string, destino: string, service: int,
               refusal: nat -> Option<string>, arrivals: seq<Packet>, k: nat): (StartOutcome, seq<Action>)
  {
    if ValidationError(p, origen, destino).Some? then (Raised(ValidationError(p, origen, destino).value), [])
    else
      UnicastForListedPair(p, origen, destino);
      var u := p.Ecu1ToEcu2(origen, destino).value;
      Serve(refusal, arrivals, k, u, RoundFrames(p, origen, destino, service), FreshEvent(p, service, Some(u)))
  }

  /** The simulation driver. */
  class MyLab {
    const myParser: Parser
    /** The unicast addresses of the running pair, None before a server was started. */
    var dataDst: Option<UnicastData>

    constructor (p: Parser)
      ensures myParser == p && dataDst == None
    {
      myParser := p;
      dataDst := None;
    }

    /** The check of the pair: each ECU, in order, must be one `get_ecus` lists. */
    method ValidatePair(origen: string, destino: string) returns (r: Option<PyError>)
      ensures r == ValidationError(myParser, origen, destino)
    {
      var allowedEcus := myParser.GetEcus();
      var ecuPair := [origen, destino];
      assert ecuPair[0] == origen && ecuPair[1] == destino;
      for k := 0 to |ecuPair|
        invariant forall j :: 0 <= j < k ==> ecuPair[j] in allowedEcus
      {
        if ecuPair[k] !in allowedEcus {
          return Some(Unsupported(ecuPair[k], allowedEcus));
        }
      }
      return None;
    }

    /** `someip_server_send_event`: crafts the event on a fresh builder and sends it; any
        exception is turned into `(False, "Error al enviar el evento")`, success into None. */
    method SomeipServerSendEvent(wire: Wire, serviceId: int) returns (r: Option<(bool, string)>)
      modifies wire
      ensures var ev := FreshEvent(myParser, serviceId, dataDst);
        && wire.trace == old(wire.trace) + EventAttempts(wire.refusal, |old(wire.trace)|, ev, 1)
        && r == (if ev.Ok? && wire.refusal(|old(wire.trace)|).None? then None else Some((false, EventError)))
    {
      var some := new Someip(myParser);
      var pk := some.CraftSomeipPk(serviceId, dataDst);
      if pk.Err? {
        return Some((false, EventError));
      }
      var sent := wire.Send(Event(pk.value));
      assert EventAttempts(wire.refusal, |old(wire.trace)|, Ok(pk.value), 1) == [SendAction(wire.refusal(|old(wire.trace)|), Event(pk.value))];
      if sent.Err? {
        return Some((false, EventError));
      }
      return None;
    }

    /** The fifteen cyclic events of a round, each sent whether or not the previous one failed. */
    method SendEvents(wire: Wire, serviceId: int, ghost ev: Result<EventFrame, PyError>)
      requires ev == FreshEvent(myParser, serviceId, dataDst)
      modifies wire
      ensures wire.trace == old(wire.trace) + EventAttempts(wire.refusal, |old(wire.trace)|, ev, EventsPerRun)
    {
      ghost var k := |wire.trace|;
      for x := 0 to EventsPerRun
        invariant wire.trace == old(wire.trace) + EventAttempts(wire.refusal, k, ev, x)
      {
        var _ := SomeipServerSendEvent(wire, serviceId);
        ExtendAttempts(old(wire.trace), wire.refusal, ev, x);
      }
    }

    /** `start_someip_server` as written: the first step of the round raises TypeError (see
        `SomeipSD.CraftOfferPacketAsWritten`), so after the bind nothing is sent, the socket is not
        closed, and the call reports failure. */
    method StartSomeIpServerAsWritten(wire: Wire, ecuPair: (string, string), serviceId: int) returns (r: StartOutcome)
      modifies this, wire
      ensures ValidationError(myParser, ecuPair.0, ecuPair.1).Some? ==>
        r == Raised(ValidationError(myParser, ecuPair.0, ecuPair.1).value)
        && wire.trace == old(wire.trace) && dataDst == old(dataDst)
      ensures ValidationError(myParser, ecuPair.0, ecuPair.1).None? ==>
        var u, k := myParser.Ecu1ToEcu2(ecuPair.0, ecuPair.1), |old(wire.trace)|;
        && u.Some? && dataDst == u
        && wire.trace == old(wire.trace) + [if wire.refusal(k).Some? then BindRefused(u.value.ipSrc, u.value.udpDst)
                                             else Bound(u.value.ipSrc, u.value.udpDst)]
        && r == Returned(false, StartError + if wire.refusal(k).Some? then wire.refusal(k).value else MissingServiceArgument)
    {
      var (origen, destino) := ecuPair;
      var invalid := ValidatePair(origen, destino);
      if invalid.Some? {
        return Raised(invalid.value);
      }
      var sd := new SomeipSD(myParser);
      dataDst := sd.myParser.Ecu1ToEcu2(origen, destino);
      UnicastForListedPair(myParser, origen, destino);
      var bound := wire.Bind(dataDst.value.ipSrc, dataDst.value.udpDst);
      if bound.Err? {
        return Returned(false, StartError + Str(bound.error));
      }
      var offerPacket := sd.CraftOfferPacketAsWritten(origen, destino, serviceId);
      return Returned(false, StartError + Str(offerPacket.error));
    }

    /** The body of the server loop: craft the offer and the ack on the shared SD payload, then
        exchange them on the network. Gives the exception that escaped, if any. */
    method ServeRound(wire: Wire, sd: SomeipSD, origen: string, destino: string, serviceId: int)
      returns (err: Option<PyError>)
      requires sd.myParser == myParser && sd.header == SdHeader && sd.s == SdBody(SdFlags, [], [])
      modifies wire, sd
      ensures match RoundFrames(myParser, origen, destino, serviceId)
        case Err(e) => err == Some(e) && wire.trace == old(wire.trace)
        case Ok(frames) =>
          var round := Round(wire.refusal, wire.arrivals, |old(wire.trace)|, frames.0, frames.1,
                             FreshEvent(myParser, serviceId, dataDst));
          err == round.0 && wire.trace == old(wire.trace) + round.1
    {
      var offerPacket := sd.CraftOfferPacket(origen, destino, serviceId);
      if offerPacket.Err? {
        return Some(offerPacket.error);
      }
      var offer := offerPacket.value;
      assert OfferFrameFor(myParser, origen, serviceId) == Ok(offer);
      var ackPacket := sd.CraftSubscribeEventGroupAckPacket(origen, destino, serviceId, ParserAckKeys);
      if ackPacket.Err? {
        return Some(ackPacket.error);
      }
      var ack := ackPacket.value;
      assert RoundFrames(myParser, origen, destino, serviceId) == Ok((offer, ack));
      err := Exchange(wire, offer, ack, serviceId);
    }

    /** The network part of the loop body once both SD messages are built: send the offer, then
        listen and send the events. It does what `Round` says. */
    method Exchange(wire: Wire, offer: SdFrame, ack: SdFrame, serviceId: int) returns (err: Option<PyError>)
      modifies wire
      ensures var round := Round(wire.refusal, wire.arrivals, |old(wire.trace)|, offer, ack,
                                 FreshEvent(myParser, serviceId, dataDst));
        err == round.0 && wire.trace == old(wire.trace) + round.1
    {
      var sent := wire.Send(Sd(offer));
      if sent.Err? {
        return Some(sent.error);
      }
      ghost var k, ev := |old(wire.trace)| + 1, FreshEvent(myParser, serviceId, dataDst);
      err := ListenAndSendEvents(wire, ack, serviceId, ev);
      AppendSteps(old(wire.trace), [Sent(Sd(offer))], AfterOffer(wire.refusal, wire.arrivals, k, ack, ev).1);
    }

    /** The listener, then the fifteen events unless it raised. It does what `AfterOffer` says. */
    method ListenAndSendEvents(wire: Wire, ack: SdFrame, serviceId: int, ghost ev: Result<EventFrame, PyError>)
      returns (err: Option<PyError>)
      requires ev == FreshEvent(myParser, serviceId, dataDst)
      modifies wire
      ensures var rest := AfterOffer(wire.refusal, wire.arrivals, |old(wire.trace)|, ack, ev);
        err == rest.0 && wire.trace == old(wire.trace) + rest.1
    {
      var k := |wire.trace|;
      ghost var listen := Listen(wire.refusal, wire.arrivals, k, ack);
      var pktSubscribe := EscucharSubscribeEventgroup(wire, ack);
      if pktSubscribe.Err? {
        return Some(pktSubscribe.error);
      }
      assert |wire.trace| == k + 2 by {
        ListenSendsAckFirst(wire.refusal, wire.arrivals, k, ack);
      }
      SendEvents(wire, serviceId, ev);
      AppendSteps(old(wire.trace), listen.1, EventAttempts(wire.refusal, k + 2, ev, EventsPerRun));
      return None;
    }

    /** `start_someip_server` with the offer crafted without the stale ack call, the ack read under
        the parser's keys, and both SD messages sent on the interface: it does what `Run` says. */
    method StartSomeIpServer(wire: Wire, ecuPair: (string, string), serviceId: int) returns (r: StartOutcome)
      modifies this, wire
      ensures var run := Run(myParser, ecuPair.0, ecuPair.1, serviceId, wire.refusal, wire.arrivals, |old(wire.trace)|);
        r == run.0 && wire.trace == old(wire.trace) + run.1
      ensures ValidationError(myParser, ecuPair.0, ecuPair.1).None? ==> dataDst == myParser.Ecu1ToEcu2(ecuPair.0, ecuPair.1)
      ensures ValidationError(myParser, ecuPair.0, ecuPair.1).Some? ==> dataDst == old(dataDst)
    {
      var (origen, destino) := ecuPair;
      var k := |wire.trace|;
      var invalid := ValidatePair(origen, destino);
      if invalid.Some? {
        return Raised(invalid.value);
      }
      var sd := new SomeipSD(myParser);
      dataDst := sd.myParser.Ecu1ToEcu2(origen, destino);
      UnicastForListedPair(myParser, origen, destino);
      var u := dataDst.value;
      ghost var frames := RoundFrames(myParser, origen, destino, serviceId);
      ghost var ev := FreshEvent(myParser, serviceId, Some(u));
      ghost var serve := Serve(wire.refusal, wire.arrivals, k, u, frames, ev);
      assert Run(myParser, origen, destino, serviceId, wire.refusal, wire.arrivals, k) == serve;
      var bound := wire.Bind(u.ipSrc, u.udpDst);
      if bound.Err? {
        return Failed(bound.error);
      }
      var i := 0;
      while i != 1
        invariant 0 <= i <= 1
        invariant dataDst == Some(u)
        invariant i == 0 ==> wire.trace == old(wire.trace) + [Bound(u.ipSrc, u.udpDst)]
                             && sd.myParser == myParser && sd.header == SdHeader && sd.s == SdBody(SdFlags, [], [])
        invariant i == 1 ==> serve.0 == Returned(true, Started) && wire.trace + [Closed] == old(wire.trace) + serve.1
        decreases 1 - i
      {
        ghost var before := wire.trace;
        var err := ServeRound(wire, sd, origen, destino, serviceId);
        if err.Some? {
          AppendSteps(old(wire.trace), [Bound(u.ipSrc, u.udpDst)], wire.trace[|before|..]);
          assert wire.trace == before + wire.trace[|before|..];
          return Failed(err.value);
        }
        ghost var round := Round(wire.refusal, wire.arrivals, k + 1, frames.value.0, frames.value.1, ev);
        assert wire.trace == before + round.1;
        assert serve == (Returned(true, Started), [Bound(u.ipSrc, u.udpDst)] + round.1 + [Closed]);
        AppendSteps(old(wire.trace), [Bound(u.ipSrc, u.udpDst)], round.1);
        AppendSteps(old(wire.trace), [Bound(u.ipSrc, u.udpDst)] + round.1, [Closed]);
        i := i + 1;
      }
      wire.Close();
      return Returned(true, Started);
    }
  }

  /** An ECU pair the configuration does not list raises before any network action. */
  lemma RunRejectsUnlistedPair(p: Parser, origen: string, destino: string, service: int,
                               refusal: nat -> Option<string>, arrivals: seq<Packet>, k: nat)
    requires origen !in p.GetEcus() || destino !in p.GetEcus()
    ensures var run := Run(p, origen, destino, service, refusal, arrivals, k);
      run.0.Raised? && run.0.error.NotImplementedError? && run.1 == []
  {
  }

  /** After validation, a call succeeds exactly when both SD messages can be built and the bind,
      both SD sends and the capture are accepted. */
  lemma ServeSucceedsIff(refusal: nat -> Option<string>, arrivals: seq<Packet>, k: nat, u: UnicastData,
                         frames: Result<(SdFrame, SdFrame), PyError>, ev: Result<EventFrame, PyError>)
    ensures Serve(refusal, arrivals, k, u, frames, ev).0 == Returned(true, Started) <==>
      && refusal(k).None? && refusal(k + 1).None? && refusal(k + 2).None? && refusal(k + 3).None?
      && frames.Ok?
  {
    if frames.Ok? {
      ListenSendsAckFirst(refusal, arrivals, k + 2, frames.value.1);
    }
  }

  /** A call succeeds exactly when the pair is listed, both SD messages can be built, and the
      bind, both SD sends and the capture are accepted; the events and the capture's result do
      not matter. */
  lemma RunSucceedsIff(p: Parser, origen: string, destino: string, service: int,
                       refusal: nat -> Option<string>, arrivals: seq<Packet>, k: nat)
    ensures Run(p, origen, destino, service, refusal, arrivals, k).0 == Returned(true, Started) <==>
      && ValidationError(p, origen, destino).None?
      && refusal(k).None? && refusal(k + 1).None? && refusal(k + 2).None? && refusal(k + 3).None?
      && RoundFrames(p, origen, destino, service).Ok?
  {
    if ValidationError(p, origen, destino).None? {
      UnicastForListedPair(p, origen, destino);
      var u := p.Ecu1ToEcu2(origen, destino).value;
      ServeSucceedsIff(refusal, arrivals, k, u, RoundFrames(p, origen, destino, service), FreshEvent(p, service, Some(u)));
    }
  }

  /** The two SD messages of a round: an OfferService entry with its endpoint, sent to the
      multicast group, then a SubscribeEventgroupAck entry for the same service carrying the
      offer's endpoint, sent to the consumer. */
  lemma RoundFramesShape(p: Parser, origen: string, destino: string, service: int)
    requires RoundFrames(p, origen, destino, service).Ok?
    ensures var (offer, ack) := RoundFrames(p, origen, destino, service).value;
      && offer.header == SdHeader && ack.header == SdHeader
      && |offer.body.entries| == 1 && offer.body.entries[0].typ == OfferServiceType
      && |ack.body.entries| == 1 && ack.body.entries[0].typ == SubscribeEventgroupAckType
      && ack.body.entries[0].srvId == offer.body.entries[0].srvId
      && |offer.body.options| == 1 && ack.body.options == offer.body.options
      && offer.link == MulticastLink(p.Multicast(origen).value)
  {
    var md := p.GetServiceData(service);
    OfferUpdateFields(md.value, p.Multicast(origen).value);
    AckEntryWithParserKeys(md.value);
  }

  /** What follows an offer that raised nothing: the ack, the capture, then the event attempts. */
  lemma AfterOfferSuccessTrace(refusal: nat -> Option<string>, arrivals: seq<Packet>, k: nat,
                               ack: SdFrame, ev: Result<EventFrame, PyError>)
    requires AfterOffer(refusal, arrivals, k, ack, ev).0.None?
    ensures AfterOffer(refusal, arrivals, k, ack, ev).1
      == [Sent(Sd(ack)), Sniffed(Capture(arrivals, Filtro))] + EventAttempts(refusal, k + 2, ev, EventsPerRun)
  {
    ListenSendsAckFirst(refusal, arrivals, k, ack);
  }

  /** The network part of a round that raised nothing: offer, ack, capture, then the same event
      exactly fifteen times unless it cannot be crafted. */
  lemma RoundSuccessTrace(refusal: nat -> Option<string>, arrivals: seq<Packet>, k: nat,
                          offer: SdFrame, ack: SdFrame, ev: Result<EventFrame, PyError>)
    requires Round(refusal, arrivals, k, offer, ack, ev).0.None?
    ensures var t := Round(refusal, arrivals, k, offer, ack, ev).1;
      && |t| == 3 + (if ev.Ok? then EventsPerRun else 0)
      && t[0] == Sent(Sd(offer)) && t[1] == Sent(Sd(ack)) && t[2] == Sniffed(Capture(arrivals, Filtro))
      && (forall j :: 3 <= j < |t| ==> t[j] == SendAction(refusal(k + j), Event(ev.value)))
  {
    RoundSuccessShape(refusal, arrivals, k, offer, ack, ev);
    PrefixedAttempts([Sent(Sd(offer)), Sent(Sd(ack)), Sniffed(Capture(arrivals, Filtro))], refusal, k, ev, EventsPerRun);
  }

  /** A round that raised nothing records the offer, the ack, the capture and the attempts. */
  lemma RoundSuccessShape(refusal: nat -> Option<string>, arrivals: seq<Packet>, k: nat,
                          offer: SdFrame, ack: SdFrame, ev: Result<EventFrame, PyError>)
    requires Round(refusal, arrivals, k, offer, ack, ev).0.None?
    ensures Round(refusal, arrivals, k, offer, ack, ev).1
      == [Sent(Sd(offer)), Sent(Sd(ack)), Sniffed(Capture(arrivals, Filtro))] + EventAttempts(refusal, k + 3, ev, EventsPerRun)
  {
    AfterOfferSuccessTrace(refusal, arrivals, k + 1, ack, ev);
    AppendSteps([Sent(Sd(offer))], [Sent(Sd(ack)), Sniffed(Capture(arrivals, Filtro))],
                EventAttempts(refusal, k + 3, ev, EventsPerRun));
  }

  /** Attempts appended to a prefix sit right after it, attempt j at trace position `k + j`. */
  lemma PrefixedAttempts(p: seq<Action>, refusal: nat -> Option<string>, k: nat, ev: Result<EventFrame, PyError>, n: nat)
    ensures var t := p + EventAttempts(refusal, k + |p|, ev, n);
      && |t| == |p| + (if ev.Ok? then n else 0)
      && forall j :: |p| <= j < |t| ==> t[j] == SendAction(refusal(k + j), Event(ev.value))
  {
    if ev.Ok? {
      var events := EventAttempts(refusal, k + |p|, ev, n);
      EventAttemptsContents(refusal, k + |p|, ev, n);
      forall j | |p| <= j < |p| + n ensures (p + events)[j] == SendAction(refusal(k + j), Event(ev.value)) {
        assert (p + events)[j] == events[j - |p|];
      }
    }
  }

  /** A successful call after validation binds, sends the offer, sends the ack, captures,
      attempts the event exactly fifteen times unless it cannot be crafted, and closes the socket
      last. */
  lemma ServeSuccessTrace(refusal: nat -> Option<string>, arrivals: seq<Packet>, k: nat, u: UnicastData,
                          frames: Result<(SdFrame, SdFrame), PyError>, ev: Result<EventFrame, PyError>)
    requires Serve(refusal, arrivals, k, u, frames, ev).0 == Returned(true, Started)
    ensures frames.Ok?
    ensures var t := Serve(refusal, arrivals, k, u, frames, ev).1;
      && |t| == 5 + (if ev.Ok? then EventsPerRun else 0)
      && t[0] == Bound(u.ipSrc, u.udpDst) && t[1] == Sent(Sd(frames.value.0)) && t[2] == Sent(Sd(frames.value.1))
      && t[3] == Sniffed(Capture(arrivals, Filtro))
      && (forall j :: 4 <= j < |t| - 1 ==> t[j] == SendAction(refusal(k + j), Event(ev.value)))
      && t[|t| - 1] == Closed
  {
    assert refusal(k).None? && frames.Ok?;
    var round := Round(refusal, arrivals, k + 1, frames.value.0, frames.value.1, ev);
    assert round.0.None?;
    RoundSuccessTrace(refusal, arrivals, k + 1, frames.value.0, frames.value.1, ev);
    var r := round.1;
    var t := [Bound(u.ipSrc, u.udpDst)] + r + [Closed];
    assert Serve(refusal, arrivals, k, u, frames, ev).1 == t;
    Framed(Bound(u.ipSrc, u.udpDst), r, Closed);
  }

  /** Where the actions of a round sit once the bind and the close surround them. */
  lemma Framed(b: Action, r: seq<Action>, c: Action)
    ensures var t := [b] + r + [c];
      && |t| == |r| + 2 && t[0] == b && t[|t| - 1] == c
      && forall j :: 1 <= j < |t| - 1 ==> t[j] == r[j - 1]
  {
  }

  /** A successful call binds, sends the offer, sends the ack (carrying the offer's option),
      captures, attempts the same event exactly fifteen times unless it cannot be crafted, and
      closes the socket last. */
  lemma RunSuccessTrace(p: Parser, origen: string, destino: string, service: int,
                        refusal: nat -> Option<string>, arrivals: seq<Packet>, k: nat)
    requires Run(p, origen, destino, service, refusal, arrivals, k).0 == Returned(true, Started)
    ensures RoundFrames(p, origen, destino, service).Ok?
    ensures var t := Run(p, origen, destino, service, refusal, arrivals, k).1;
      var (offer, ack) := RoundFrames(p, origen, destino, service).value;
      var ev := FreshEvent(p, service, p.Ecu1ToEcu2(origen, destino));
      && |t| == 5 + (if ev.Ok? then EventsPerRun else 0)
      && t[0].Bound? && t[1] == Sent(Sd(offer)) && t[2] == Sent(Sd(ack)) && t[3] == Sniffed(Capture(arrivals, Filtro))
      && (forall j :: 4 <= j < |t| - 1 ==> t[j] == SendAction(refusal(k + j), Event(ev.value)))
      && t[|t| - 1] == Closed
  {
    UnicastForListedPair(p, origen, destino);
    var u := p.Ecu1ToEcu2(origen, destino).value;
    ServeSuccessTrace(refusal, arrivals, k, u, RoundFrames(p, origen, destino, service), FreshEvent(p, service, Some(u)));
  }

  /** Every failure message starts with the error prefix. */
  lemma FailedPrefix(e: PyError)
    ensures |StartError| <= |Failed(e).message| && Failed(e).message[..|StartError|] == StartError
  {
    assert (StartError + Str(e))[..|StartError|] == StartError;
  }

  /** A round that raised stopped within its first three actions, before any event. */
  lemma RoundFailureStopsEarly(refusal: nat -> Option<string>, arrivals: seq<Packet>, k: nat,
                               offer: SdFrame, ack: SdFrame, ev: Result<EventFrame, PyError>)
    requires Round(refusal, arrivals, k, offer, ack, ev).0.Some?
    ensures var t := Round(refusal, arrivals, k, offer, ack, ev).1;
      && 1 <= |t| <= 3 && Closed !in t
      && forall j :: 0 <= j < |t| ==> !(t[j].Sent? && t[j].frame.Event?)
  {
    ListenSendsAckFirst(refusal, arrivals, k + 1, ack);
  }

  /** A call that fails after validation never closes the socket, and says why after the error
      prefix. */
  lemma ServeFailureLeavesSocketOpen(refusal: nat -> Option<string>, arrivals: seq<Packet>, k: nat, u: UnicastData,
                                     frames: Result<(SdFrame, SdFrame), PyError>, ev: Result<EventFrame, PyError>)
    requires !Serve(refusal, arrivals, k, u, frames, ev).0.ok
    ensures var serve := Serve(refusal, arrivals, k, u, frames, ev);
      && Closed !in serve.1 && 1 <= |serve.1| <= 4
      && |StartError| <= |serve.0.message| && serve.0.message[..|StartError|] == StartError
  {
    if refusal(k).Some? {
      FailedPrefix(OSError(refusal(k).value));
    } else if frames.Err? {
      FailedPrefix(frames.error);
    } else {
      var round := Round(refusal, arrivals, k + 1, frames.value.0, frames.value.1, ev);
      RoundFailureStopsEarly(refusal, arrivals, k + 1, frames.value.0, frames.value.1, ev);
      FailedPrefix(round.0.value);
    }
  }

  /** A call that fails after validation never closes the socket, and says why after the error prefix. */
  lemma RunFailureLeavesSocketOpen(p: Parser, origen: string, destino: string, service: int,
                                   refusal: nat -> Option<string>, arrivals: seq<Packet>, k: nat)
    requires Run(p, origen, destino, service, refusal, arrivals, k).0.Returned?
    requires !Run(p, origen, destino, service, refusal, arrivals, k).0.ok
    ensures var run := Run(p, origen, destino, service, refusal, arrivals, k);
      && Closed !in run.1 && |run.1| <= 4
      && |StartError| <= |run.0.message| && run.0.message[..|StartError|] == StartError
  {
    UnicastForListedPair(p, origen, destino);
    var u := p.Ecu1ToEcu2(origen, destino).value;
    ServeFailureLeavesSocketOpen(refusal, arrivals, k, u, RoundFrames(p, origen, destino, service), FreshEvent(p, service, Some(u)));
  }

  /** What arrives during the capture changes only the recorded capture. */
  lemma RoundIgnoresCapture(refusal: nat -> Option<string>, a1: seq<Packet>, a2: seq<Packet>, k: nat,
                            offer: SdFrame, ack: SdFrame, ev: Result<EventFrame, PyError>)
    ensures var r1, r2 := Round(refusal, a1, k, offer, ack, ev), Round(refusal, a2, k, offer, ack, ev);
      && r1.0 == r2.0 && |r1.1| == |r2.1|
      && forall j :: 0 <= j < |r1.1| && j != 2 ==> r1.1[j] == r2.1[j]
  {
  }

  /** After validation, what arrives during the capture changes only the recorded capture. */
  lemma ServeIgnoresCapture(refusal: nat -> Option<string>, a1: seq<Packet>, a2: seq<Packet>, k: nat, u: UnicastData,
                            frames: Result<(SdFrame, SdFrame), PyError>, ev: Result<EventFrame, PyError>)
    ensures var r1, r2 := Serve(refusal, a1, k, u, frames, ev), Serve(refusal, a2, k, u, frames, ev);
      && r1.0 == r2.0 && |r1.1| == |r2.1|
      && forall j :: 0 <= j < |r1.1| && j != 3 ==> r1.1[j] == r2.1[j]
  {
    if refusal(k).None? && frames.Ok? {
      var t1, t2 := Round(refusal, a1, k + 1, frames.value.0, frames.value.1, ev), Round(refusal, a2, k + 1, frames.value.0, frames.value.1, ev);
      RoundIgnoresCapture(refusal, a1, a2, k + 1, frames.value.0, frames.value.1, ev);
      var r1, r2 := Serve(refusal, a1, k, u, frames, ev).1, Serve(refusal, a2, k, u, frames, ev).1;
      var tail := if t1.0.Some? then [] else [Closed];
      assert r1 == [Bound(u.ipSrc, u.udpDst)] + t1.1 + tail && r2 == [Bound(u.ipSrc, u.udpDst)] + t2.1 + tail;
      forall j | 0 <= j < |r1| && j != 3 ensures r1[j] == r2[j] {
        if 0 < j < |r1| - |tail| { assert r1[j] == t1.1[j - 1] && r2[j] == t2.1[j - 1]; }
      }
    }
  }

  /** What arrives during the capture changes only the recorded capture: the outcome and every
      other action are the same. */
  lemma RunIgnoresCapture(p: Parser, origen: string, destino: string, service: int,
                          refusal: nat -> Option<string>, a1: seq<Packet>, a2: seq<Packet>, k: nat)
    ensures var r1, r2 := Run(p, origen, destino, service, refusal, a1, k), Run(p, origen, destino, service, refusal, a2, k);
      && r1.0 == r2.0 && |r1.1| == |r2.1|
      && forall j :: 0 <= j < |r1.1| && j != 3 ==> r1.1[j] == r2.1[j]
  {
    if ValidationError(p, origen, destino).None? {
      UnicastForListedPair(p, origen, destino);
      var u := p.Ecu1ToEcu2(origen, destino).value;
      ServeIgnoresCapture(refusal, a1, a2, k, u, RoundFrames(p, origen, destino, service), FreshEvent(p, service, Some(u)));
    }
  }
}
