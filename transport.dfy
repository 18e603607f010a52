/** The network as the provider sees it: binding the UDP socket, sending
    frames on the interface, capturing packets, closing the socket. Each
    attempt is recorded, in order, in a trace; whether the operating system
    refuses the attempt, and what arrives while capturing, are given when
    the network is created. */
module Transport {
  import opened Common
  import opened Frames

  datatype Frame = Sd(sd: SdFrame) | Event(event: EventFrame)

  datatype Action =
    | Bound(ip: Json, port: Json)
    | BindRefused(ip: Json, port: Json)
    | Sent(frame: Frame)
    | SendRefused(frame: Frame)
    | Sniffed(captured: seq<Packet>)
    | SniffRefused
    | Closed

  /** The record of a send that the operating system refused with `refusal`, or accepted. */
  function SendAction(refusal: Option<string>, f: Frame): Action {
    if refusal.Some? then SendRefused(f) else Sent(f)
  }

  /** What a call returns when the operating system refused it with `refusal`, or accepted it. */
  function Outcome(refusal: Option<string>): (r: Result<(), PyError>)
    ensures r.Ok? <==> refusal.None?
  {
    if refusal.Some? then Err(OSError(refusal.value)) else Ok(())
  }

  /** What a capture with a stop filter keeps: the arrivals up to and including the first one the
      filter accepts, or all of them when none does. */
  function Capture(arrivals: seq<Packet>, stop: Packet -> bool): (c: seq<Packet>)
    ensures |c| == 0 <==> |arrivals| == 0
    ensures |c| <= |arrivals| && c == arrivals[..|c|]
    ensures forall k :: 0 <= k < |c| - 1 ==> !stop(c[k])
    ensures |c| < |arrivals| ==> stop(c[|c| - 1])
  {
    if |arrivals| == 0 then []
    else if stop(arrivals[0]) then [arrivals[0]]
    else
      var rest := Capture(arrivals[1..], stop);
      assert arrivals[..|rest| + 1] == [arrivals[0]] + arrivals[1..][..|rest|];
      [arrivals[0]] + rest
  }

  class Wire {
    /** Every attempt so far, oldest first. */
    var trace: seq<Action>
    /** The error the operating system gives the attempt made when the trace has `k` entries, if any. */
    const refusal: nat -> Option<string>
    /** The packets that reach the interface while a capture runs, in order. */
    const arrivals: seq<Packet>

    constructor (refusal: nat -> Option<string>, arrivals: seq<Packet>)
      ensures trace == [] && this.refusal == refusal && this.arrivals == arrivals
    {
      trace := [];
      this.refusal := refusal;
      this.arrivals := arrivals;
    }

    /** `bind_udp_socket`: binds a UDP socket to `ip` and `port`. */
    method Bind(ip: Json, port: Json) returns (r: Result<(), PyError>)
      modifies this
      ensures r == Outcome(refusal(|old(trace)|))
      ensures trace == old(trace) + [if r.Ok? then Bound(ip, port) else BindRefused(ip, port)]
    {
      r := Outcome(refusal(|trace|));
      trace := trace + [if r.Ok? then Bound(ip, port) else BindRefused(ip, port)];
    }

    /** Sends one frame on the interface. */
    method Send(f: Frame) returns (r: Result<(), PyError>)
      modifies this
      ensures r == Outcome(refusal(|old(trace)|))
      ensures trace == old(trace) + [SendAction(refusal(|old(trace)|), f)]
    {
      r := Outcome(refusal(|trace|));
      trace := trace + [SendAction(refusal(|trace|), f)];
    }

    /** `sniff` with a stop filter, keeping what it captured. */
    method Sniff(stop: Packet -> bool) returns (r: Result<seq<Packet>, PyError>)
      modifies this
      ensures refusal(|old(trace)|).Some? ==>
        r == Err(OSError(refusal(|old(trace)|).value)) && trace == old(trace) + [SniffRefused]
      ensures refusal(|old(trace)|).None? ==>
        r == Ok(Capture(arrivals, stop)) && trace == old(trace) + [Sniffed(Capture(arrivals, stop))]
    {
      var refused := refusal(|trace|);
      if refused.Some? {
        r := Err(OSError(refused.value));
        trace := trace + [SniffRefused];
      } else {
        var captured := Capture(arrivals, stop);
        r := Ok(captured);
        trace := trace + [Sniffed(captured)];
      }
    }

    /** Closes the socket. */
    method Close()
      modifies this
      ensures trace == old(trace) + [Closed]
    {
      trace := trace + [Closed];
    }
  }
}
