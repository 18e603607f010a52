/** The simulated vehicle-dynamics state of the provider ECU and the three
    event payloads laid out from it with little-endian `struct` formats. */
module VehicleDynamics {
  import opened Common

  /** Validity of one field, packed as uint8. */
  datatype ValueState = Unavailable | Valid | Invalid

  /** Direction reported with the vehicle speed. */
  datatype SpeedSign = NullSpeed | Forward | Reverse | SignUnavailable

  /** Supposed motion state of the vehicle. */
  datatype SpeedSupposedState = SupposedUnavailable | Standstill | Moving

  function StateCode(v: ValueState): byte {
    match v
    case Unavailable => 0
    case Valid => 1
    case Invalid => 2
  }

  function SignCode(v: SpeedSign): byte {
    match v
    case NullSpeed => 0
    case Forward => 1
    case Reverse => 2
    case SignUnavailable => 3
  }

  function SupposedCode(v: SpeedSupposedState): byte {
    match v
    case SupposedUnavailable => 0
    case Standstill => 1
    case Moving => 2
  }

  function StateOf(b: byte): (r: Option<ValueState>)
    ensures r.Some? ==> StateCode(r.value) == b
    ensures r.None? <==> b > 2
  {
    if b == 0 then Some(Unavailable) else if b == 1 then Some(Valid) else if b == 2 then Some(Invalid) else None
  }

  function SignOf(b: byte): (r: Option<SpeedSign>)
    ensures r.Some? ==> SignCode(r.value) == b
    ensures r.None? <==> b > 3
  {
    if b == 0 then Some(NullSpeed) else if b == 1 then Some(Forward)
    else if b == 2 then Some(Reverse) else if b == 3 then Some(SignUnavailable) else None
  }

  function SupposedOf(b: byte): (r: Option<SpeedSupposedState>)
    ensures r.Some? ==> SupposedCode(r.value) == b
    ensures r.None? <==> b > 2
  {
    if b == 0 then Some(SupposedUnavailable) else if b == 1 then Some(Standstill)
    else if b == 2 then Some(Moving) else None
  }

  /** Each enumeration code decodes back to the enumerator it came from. */
  lemma CodesRoundTrip(v: ValueState, g: SpeedSign, p: SpeedSupposedState)
    ensures StateOf(StateCode(v)) == Some(v)
    ensures SignOf(SignCode(g)) == Some(g)
    ensures SupposedOf(SupposedCode(p)) == Some(p)
  {
  }

  type Bits32 = x: nat | x < 0x1_0000_0000

  /** A single-precision value, held as its IEEE-754 binary32 bit pattern. */
  datatype Float32 = Float32(bits: Bits32)

  /** +0.0 */
  const Zero := Float32(0)
  /** 1.0 */
  const One := Float32(0x3F80_0000)

  /** The four bytes `struct` writes for an `f` field in `<` order: least significant first. */
  function F32Bytes(x: Float32): (r: seq<byte>)
    ensures |r| == 4
  {
    var b := x.bits;
    [(b % 0x100) as byte, (b / 0x100 % 0x100) as byte,
     (b / 0x1_0000 % 0x100) as byte, (b / 0x100_0000) as byte]
  }

  function F32Of(r: seq<byte>): Float32
    requires |r| == 4
  {
    Float32(r[0] as nat + 0x100 * r[1] as nat + 0x1_0000 * r[2] as nat + 0x100_0000 * r[3] as nat)
  }

  lemma F32RoundTrip(x: Float32)
    ensures F32Of(F32Bytes(x)) == x
  {
    var b := x.bits;
    var q1 := b / 0x100;
    var q2 := q1 / 0x100;
    var q3 := q2 / 0x100;
    assert b == 0x100 * q1 + b % 0x100;
    assert q1 == 0x100 * q2 + q1 % 0x100;
    assert q2 == 0x100 * q3 + q2 % 0x100;
    assert q2 == b / 0x1_0000;
    assert q3 == b / 0x100_0000;
  }

  lemma F32BytesRoundTrip(r: seq<byte>)
    requires |r| == 4
    ensures F32Bytes(F32Of(r)) == r
  {
    var b := F32Of(r).bits;
    var hi := r[1] as nat + 0x100 * r[2] as nat + 0x1_0000 * r[3] as nat;
    assert b == r[0] as nat + 0x100 * hi;
    assert b / 0x100 == hi;
    assert b % 0x100 == r[0] as nat;
    var hi2 := r[2] as nat + 0x100 * r[3] as nat;
    assert hi == r[1] as nat + 0x100 * hi2;
    assert hi / 0x100 == hi2 && hi % 0x100 == r[1] as nat;
    assert b / 0x1_0000 == hi2;
    assert hi2 % 0x100 == r[2] as nat && hi2 / 0x100 == r[3] as nat;
    assert b / 0x100_0000 == r[3] as nat;
  }

  /** The `vehicle_speed` dictionary. */
  datatype VehicleSpeed = VehicleSpeed(
    speedState: ValueState, speed: Float32,
    signState: ValueState, sign: SpeedSign,
    lowSpeedState: ValueState, lowSpeed: Float32,
    standStillState: ValueState, standStill: SpeedSupposedState)

  /** The `vehicle_accel_yaw` dictionary. */
  datatype AccelAndYaw = AccelAndYaw(
    longitudinalCorrectedState: ValueState, longitudinalCorrected: Float32,
    transversalCorrectedState: ValueState, transversalCorrected: Float32,
    yawRateCorrectedState: ValueState, yawRateCorrected: Float32,
    longitudinalRawState: ValueState, longitudinalRaw: Float32,
    transversalRawState: ValueState, transversalRaw: Float32,
    yawRateRawState: ValueState, yawRateRaw: Float32)

  /** The `vehicle_speed_body` dictionary. */
  datatype SpeedBody = SpeedBody(state: ValueState, value: Float32)

  /** The whole simulated state at one moment. */
  datatype Snapshot = Snapshot(speed: VehicleSpeed, accelYaw: AccelAndYaw, body: SpeedBody)

  /** The state a fresh plugin holds: everything valid, zero, moving forward, standing still. */
  const Initial := Snapshot(
    VehicleSpeed(Valid, Zero, Valid, Forward, Valid, Zero, Valid, Standstill),
    AccelAndYaw(Valid, Zero, Valid, Zero, Valid, Zero, Valid, Zero, Valid, Zero, Valid, Zero),
    SpeedBody(Valid, Zero))

  /** `set_speed`: the three speed values become `v`. */
  function WithSpeed(s: Snapshot, v: Float32): Snapshot {
    s.(speed := s.speed.(speed := v, lowSpeed := v), body := s.body.(value := v))
  }

  /** `set_acceleration`: both longitudinal values become `l`, both transversal values `t`. */
  function WithAcceleration(s: Snapshot, l: Float32, t: Float32): Snapshot {
    s.(accelYaw := s.accelYaw.(longitudinalCorrected := l, transversalCorrected := t,
                               longitudinalRaw := l, transversalRaw := t))
  }

  /** `increment_speed`: each speed value becomes `add(value, increment)`. */
  function WithSpeedIncremented(s: Snapshot, increment: Float32, add: (Float32, Float32) -> Float32): Snapshot {
    s.(speed := s.speed.(speed := add(s.speed.speed, increment), lowSpeed := add(s.speed.lowSpeed, increment)),
       body := s.body.(value := add(s.body.value, increment)))
  }

  /** A validity byte followed by the four bytes of a float: the `Bf` unit of every layout. */
  function Field(state: ValueState, value: Float32): (r: seq<byte>)
    ensures |r| == 5 && r[0] == StateCode(state) && r[1..] == F32Bytes(value)
  {
    [StateCode(state)] + F32Bytes(value)
  }

  /** The `VehicleSpeed` payload, format `<BfBBBfBB`. */
  function EncodeVehicleSpeed(r: VehicleSpeed): (b: seq<byte>)
    ensures |b| == 14
    ensures b[0] == StateCode(r.speedState) && b[1..5] == F32Bytes(r.speed)
    ensures b[5] == StateCode(r.signState) && b[6] == SignCode(r.sign)
    ensures b[7] == StateCode(r.lowSpeedState) && b[8..12] == F32Bytes(r.lowSpeed)
    ensures b[12] == StateCode(r.standStillState) && b[13] == SupposedCode(r.standStill)
  {
    Field(r.speedState, r.speed) + [StateCode(r.signState), SignCode(r.sign)]
    + Field(r.lowSpeedState, r.lowSpeed) + [StateCode(r.standStillState), SupposedCode(r.standStill)]
  }

  /** The six (validity, value) pairs of the `VehicleAccelAndYaw` record, in wire order. */
  function AccelFields(a: AccelAndYaw): seq<(ValueState, Float32)> {
    [(a.longitudinalCorrectedState, a.longitudinalCorrected),
     (a.transversalCorrectedState, a.transversalCorrected),
     (a.yawRateCorrectedState, a.yawRateCorrected),
     (a.longitudinalRawState, a.longitudinalRaw),
     (a.transversalRawState, a.transversalRaw),
     (a.yawRateRawState, a.yawRateRaw)]
  }

  /** The `VehicleAccelAndYaw` payload, format `<BfBfBfBfBfBf`. */
  function EncodeAccelAndYaw(a: AccelAndYaw): (b: seq<byte>)
    ensures |b| == 30
    ensures b[0..5] == Field(a.longitudinalCorrectedState, a.longitudinalCorrected)
    ensures b[5..10] == Field(a.transversalCorrectedState, a.transversalCorrected)
    ensures b[10..15] == Field(a.yawRateCorrectedState, a.yawRateCorrected)
    ensures b[15..20] == Field(a.longitudinalRawState, a.longitudinalRaw)
    ensures b[20..25] == Field(a.transversalRawState, a.transversalRaw)
    ensures b[25..30] == Field(a.yawRateRawState, a.yawRateRaw)
  {
    var f := AccelFields(a);
    Field(f[0].0, f[0].1) + Field(f[1].0, f[1].1) + Field(f[2].0, f[2].1)
    + Field(f[3].0, f[3].1) + Field(f[4].0, f[4].1) + Field(f[5].0, f[5].1)
  }

  /** Field k of the record occupies bytes 5k to 5k+4 of the payload. */
  lemma AccelAndYawLayout(a: AccelAndYaw)
    ensures forall k :: 0 <= k < 6 ==> EncodeAccelAndYaw(a)[5 * k .. 5 * k + 5] == Field(AccelFields(a)[k].0, AccelFields(a)[k].1)
  {
    var f := AccelFields(a);
    var b := EncodeAccelAndYaw(a);
    assert b[0..5] == Field(f[0].0, f[0].1);
    assert b[5..10] == Field(f[1].0, f[1].1);
    assert b[10..15] == Field(f[2].0, f[2].1);
    assert b[15..20] == Field(f[3].0, f[3].1);
    assert b[20..25] == Field(f[4].0, f[4].1);
    assert b[25..30] == Field(f[5].0, f[5].1);
  }

  /** The `VehicleSpeedBody` payload, format `<Bf`. */
  function EncodeSpeedBody(s: SpeedBody): (b: seq<byte>)
    ensures |b| == 5 && b[0] == StateCode(s.state) && b[1..] == F32Bytes(s.value)
  {
    Field(s.state, s.value)
  }

  function DecodeField(b: seq<byte>): Option<(ValueState, Float32)>
    requires |b| == 5
  {
    var st :- StateOf(b[0]);
    Some((st, F32Of(b[1..])))
  }

  /** Reads a `VehicleSpeed` payload back; None unless it is 14 bytes of valid codes. */
  function DecodeVehicleSpeed(b: seq<byte>): Option<VehicleSpeed> {
    if |b| != 14 then None
    else
      var s0 :- StateOf(b[0]);
      var s1 :- StateOf(b[5]);
      var sign :- SignOf(b[6]);
      var s2 :- StateOf(b[7]);
      var s3 :- StateOf(b[12]);
      var still :- SupposedOf(b[13]);
      Some(VehicleSpeed(s0, F32Of(b[1..5]), s1, sign, s2, F32Of(b[8..12]), s3, still))
  }

  function DecodeAccelAndYaw(b: seq<byte>): Option<AccelAndYaw> {
    if |b| != 30 then None
    else
      var f0 :- DecodeField(b[0..5]);
      var f1 :- DecodeField(b[5..10]);
      var f2 :- DecodeField(b[10..15]);
      var f3 :- DecodeField(b[15..20]);
      var f4 :- DecodeField(b[20..25]);
      var f5 :- DecodeField(b[25..30]);
      Some(AccelAndYaw(f0.0, f0.1, f1.0, f1.1, f2.0, f2.1, f3.0, f3.1, f4.0, f4.1, f5.0, f5.1))
  }

  function DecodeSpeedBody(b: seq<byte>): Option<SpeedBody> {
    if |b| != 5 then None
    else
      var f :- DecodeField(b);
      Some(SpeedBody(f.0, f.1))
  }

  lemma FieldRoundTrip(state: ValueState, value: Float32)
    ensures DecodeField(Field(state, value)) == Some((state, value))
  {
    F32RoundTrip(value);
  }

  lemma FieldDecodeExact(b: seq<byte>)
    requires |b| == 5 && DecodeField(b).Some?
    ensures Field(DecodeField(b).value.0, DecodeField(b).value.1) == b
  {
    F32BytesRoundTrip(b[1..]);
    assert b == [b[0]] + b[1..];
  }

  /** The VehicleSpeed payload carries the whole record: decoding it gives the record back. */
  lemma VehicleSpeedRoundTrip(r: VehicleSpeed)
    ensures DecodeVehicleSpeed(EncodeVehicleSpeed(r)) == Some(r)
  {
    var b := EncodeVehicleSpeed(r);
    F32RoundTrip(r.speed);
    F32RoundTrip(r.lowSpeed);
    CodesRoundTrip(r.speedState, r.sign, r.standStill);
    CodesRoundTrip(r.signState, r.sign, r.standStill);
    CodesRoundTrip(r.lowSpeedState, r.sign, r.standStill);
    CodesRoundTrip(r.standStillState, r.sign, r.standStill);
  }

  /** A VehicleSpeed payload that decodes is exactly the encoding of what it decodes to. */
  lemma VehicleSpeedDecodeExact(b: seq<byte>)
    requires DecodeVehicleSpeed(b).Some?
    ensures EncodeVehicleSpeed(DecodeVehicleSpeed(b).value) == b
  {
    var r := DecodeVehicleSpeed(b).value;
    var e := EncodeVehicleSpeed(r);
    F32BytesRoundTrip(b[1..5]);
    F32BytesRoundTrip(b[8..12]);
    assert e[1..5] == b[1..5] && e[8..12] == b[8..12];
    forall i | 0 <= i < 14 ensures e[i] == b[i] {
      if 1 <= i < 5 {
        assert e[i] == e[1..5][i - 1];
        assert b[i] == b[1..5][i - 1];
      } else if 8 <= i < 12 {
        assert e[i] == e[8..12][i - 8];
        assert b[i] == b[8..12][i - 8];
      }
    }
  }

  lemma AccelAndYawRoundTrip(a: AccelAndYaw)
    ensures DecodeAccelAndYaw(EncodeAccelAndYaw(a)) == Some(a)
  {
    var b := EncodeAccelAndYaw(a);
    var f := AccelFields(a);
    AccelAndYawLayout(a);
    forall k | 0 <= k < 6 ensures DecodeField(b[5 * k .. 5 * k + 5]) == Some(f[k]) {
      FieldRoundTrip(f[k].0, f[k].1);
    }
    assert DecodeField(b[0..5]) == Some(f[0]);
    assert DecodeField(b[5..10]) == Some(f[1]);
    assert DecodeField(b[10..15]) == Some(f[2]);
    assert DecodeField(b[15..20]) == Some(f[3]);
    assert DecodeField(b[20..25]) == Some(f[4]);
    assert DecodeField(b[25..30]) == Some(f[5]);
  }

  lemma AccelAndYawDecodeExact(b: seq<byte>)
    requires DecodeAccelAndYaw(b).Some?
    ensures EncodeAccelAndYaw(DecodeAccelAndYaw(b).value) == b
  {
    var a := DecodeAccelAndYaw(b).value;
    var e := EncodeAccelAndYaw(a);
    var f := AccelFields(a);
    AccelAndYawLayout(a);
    forall k | 0 <= k < 6 ensures e[5 * k .. 5 * k + 5] == b[5 * k .. 5 * k + 5] {
      var piece := b[5 * k .. 5 * k + 5];
      FieldDecodeExact(piece);
      assert DecodeField(piece) == Some(f[k]) by {
        if k == 0 { assert piece == b[0..5]; }
        else if k == 1 { assert piece == b[5..10]; }
        else if k == 2 { assert piece == b[10..15]; }
        else if k == 3 { assert piece == b[15..20]; }
        else if k == 4 { assert piece == b[20..25]; }
        else { assert piece == b[25..30]; }
      }
    }
    forall i | 0 <= i < 30 ensures e[i] == b[i] {
      var k := i / 5;
      assert e[5 * k .. 5 * k + 5][i - 5 * k] == b[5 * k .. 5 * k + 5][i - 5 * k];
    }
  }

  lemma SpeedBodyRoundTrip(s: SpeedBody)
    ensures DecodeSpeedBody(EncodeSpeedBody(s)) == Some(s)
  {
    FieldRoundTrip(s.state, s.value);
  }

  lemma SpeedBodyDecodeExact(b: seq<byte>)
    requires DecodeSpeedBody(b).Some?
    ensures EncodeSpeedBody(DecodeSpeedBody(b).value) == b
  {
    FieldDecodeExact(b);
  }

  /** The event names `get_payload` knows. */
  const KnownEvents: set<string> := {"VehicleSpeed", "VehicleAccelAndYaw", "VehicleSpeedBody"}

  /** `get_payload(event)` over a snapshot of the state: the matching encoder's bytes, or the
      ValueError raised for any other name. */
  function Payload(event: string, s: Snapshot): (r: Result<seq<byte>, PyError>)
    ensures r.Ok? <==> event in KnownEvents
    ensures r.Err? ==> r.error == ValueError("Evento no reconocido: " + event)
    ensures event == "VehicleSpeed" ==> r.Ok? && |r.value| == 14 && DecodeVehicleSpeed(r.value) == Some(s.speed)
    ensures event == "VehicleAccelAndYaw" ==> r.Ok? && |r.value| == 30 && DecodeAccelAndYaw(r.value) == Some(s.accelYaw)
    ensures event == "VehicleSpeedBody" ==> r.Ok? && |r.value| == 5 && DecodeSpeedBody(r.value) == Some(s.body)
  {
    VehicleSpeedRoundTrip(s.speed);
    AccelAndYawRoundTrip(s.accelYaw);
    SpeedBodyRoundTrip(s.body);
    if event == "VehicleSpeed" then Ok(EncodeVehicleSpeed(s.speed))
    else if event == "VehicleAccelAndYaw" then Ok(EncodeAccelAndYaw(s.accelYaw))
    else if event == "VehicleSpeedBody" then Ok(EncodeSpeedBody(s.body))
    else Err(ValueError("Evento no reconocido: " + event))
  }

  lemma ZeroField()
    ensures Field(Valid, Zero) == [1, 0, 0, 0, 0]
  {
    assert F32Bytes(Zero) == [0, 0, 0, 0];
  }

  /** The VehicleSpeed payload of a fresh plugin, byte for byte. */
  lemma InitialVehicleSpeedPayload()
    ensures Payload("VehicleSpeed", Initial) == Ok([1, 0, 0, 0, 0, 1, 1, 1, 0, 0, 0, 0, 1, 1])
  {
    ZeroField();
    var v: seq<byte> := [1, 0, 0, 0, 0] + [1, 1] + [1, 0, 0, 0, 0] + [1, 1];
    assert EncodeVehicleSpeed(Initial.speed) == v;
    assert Payload("VehicleSpeed", Initial) == Ok(v);
    assert v == [1, 0, 0, 0, 0, 1, 1, 1, 0, 0, 0, 0, 1, 1];
  }

  /** The VehicleAccelAndYaw payload of a fresh plugin: six times a valid zero. */
  lemma InitialAccelAndYawPayload()
    ensures Payload("VehicleAccelAndYaw", Initial) == Ok(
      [1, 0, 0, 0, 0, 1, 0, 0, 0, 0, 1, 0, 0, 0, 0, 1, 0, 0, 0, 0, 1, 0, 0, 0, 0, 1, 0, 0, 0, 0])
  {
    ValidZeroAccelAndYaw(Initial.accelYaw);
    assert Payload("VehicleAccelAndYaw", Initial) == Ok(EncodeAccelAndYaw(Initial.accelYaw));
    SixValidZeros();
  }

  /** Six valid zero fields, byte for byte. */
  lemma SixValidZeros()
    ensures var f: seq<byte> := [1, 0, 0, 0, 0];
      f + f + f + f + f + f
      == [1, 0, 0, 0, 0, 1, 0, 0, 0, 0, 1, 0, 0, 0, 0, 1, 0, 0, 0, 0, 1, 0, 0, 0, 0, 1, 0, 0, 0, 0]
  {
  }

  /** A record whose six fields are valid zeros encodes as six copies of the valid zero field. */
  lemma ValidZeroAccelAndYaw(a: AccelAndYaw)
    requires a.longitudinalCorrectedState == a.transversalCorrectedState == a.yawRateCorrectedState == Valid
    requires a.longitudinalRawState == a.transversalRawState == a.yawRateRawState == Valid
    requires a.longitudinalCorrected == a.transversalCorrected == a.yawRateCorrected == Zero
    requires a.longitudinalRaw == a.transversalRaw == a.yawRateRaw == Zero
    ensures var f: seq<byte> := [1, 0, 0, 0, 0]; EncodeAccelAndYaw(a) == f + f + f + f + f + f
  {
    ZeroField();
    SixCopies(EncodeAccelAndYaw(a), [1, 0, 0, 0, 0]);
  }

  /** Thirty bytes whose six five-byte slices are all `f` are six copies of `f`. */
  lemma SixCopies(b: seq<byte>, f: seq<byte>)
    requires |f| == 5 && |b| == 30
    requires b[0..5] == f && b[5..10] == f && b[10..15] == f && b[15..20] == f && b[20..25] == f && b[25..30] == f
    ensures b == f + f + f + f + f + f
  {
    forall i | 0 <= i < 30 ensures b[i] == (f + f + f + f + f + f)[i] {
      assert b[i] == b[5 * (i / 5) .. 5 * (i / 5) + 5][i % 5];
    }
  }

  /** The VehicleSpeedBody payload of a fresh plugin. */
  lemma InitialSpeedBodyPayload()
    ensures Payload("VehicleSpeedBody", Initial) == Ok([1, 0, 0, 0, 0])
  {
    ZeroField();
  }

  /** `set_speed(v)` rewrites only the two speed floats of the VehicleSpeed payload and the float of
      the SpeedBody payload; every validity byte, and the whole AccelAndYaw payload, stay as they were. */
  lemma SetSpeedPayloads(s: Snapshot, v: Float32)
    ensures var before, after := EncodeVehicleSpeed(s.speed), EncodeVehicleSpeed(WithSpeed(s, v).speed);
      && after[1..5] == F32Bytes(v) && after[8..12] == F32Bytes(v)
      && forall i :: 0 <= i < 14 && !(1 <= i < 5) && !(8 <= i < 12) ==> after[i] == before[i]
    ensures EncodeSpeedBody(WithSpeed(s, v).body) == [StateCode(s.body.state)] + F32Bytes(v)
    ensures Payload("VehicleAccelAndYaw", WithSpeed(s, v)) == Payload("VehicleAccelAndYaw", s)
  {
  }

  /** `increment_speed` touches the same three floats as `set_speed` and nothing else: every validity
      byte of the speed payloads and the whole AccelAndYaw payload stay as they were. */
  lemma IncrementSpeedPayloads(s: Snapshot, increment: Float32, add: (Float32, Float32) -> Float32)
    ensures var s' := WithSpeedIncremented(s, increment, add);
      var before, after := EncodeVehicleSpeed(s.speed), EncodeVehicleSpeed(s'.speed);
      && after[1..5] == F32Bytes(add(s.speed.speed, increment))
      && after[8..12] == F32Bytes(add(s.speed.lowSpeed, increment))
      && (forall i :: 0 <= i < 14 && !(1 <= i < 5) && !(8 <= i < 12) ==> after[i] == before[i])
      && EncodeSpeedBody(s'.body) == [StateCode(s.body.state)] + F32Bytes(add(s.body.value, increment))
      && Payload("VehicleAccelAndYaw", s') == Payload("VehicleAccelAndYaw", s)
  {
  }

  /** `set_acceleration(l, t)` rewrites the four acceleration floats, in fields 0, 1, 3 and 4 of the
      AccelAndYaw payload, and leaves the yaw-rate fields, every validity byte and the speed payloads alone. */
  lemma SetAccelerationPayloads(s: Snapshot, l: Float32, t: Float32)
    ensures var before, after := EncodeAccelAndYaw(s.accelYaw), EncodeAccelAndYaw(WithAcceleration(s, l, t).accelYaw);
      && after[1..5] == F32Bytes(l) && after[16..20] == F32Bytes(l)
      && after[6..10] == F32Bytes(t) && after[21..25] == F32Bytes(t)
      && after[10..15] == before[10..15] && after[25..30] == before[25..30]
      && after[0] == before[0] && after[5] == before[5] && after[15] == before[15] && after[20] == before[20]
    ensures Payload("VehicleSpeed", WithAcceleration(s, l, t)) == Payload("VehicleSpeed", s)
    ensures Payload("VehicleSpeedBody", WithAcceleration(s, l, t)) == Payload("VehicleSpeedBody", s)
  {
    var a, a' := s.accelYaw, WithAcceleration(s, l, t).accelYaw;
    var before, after := EncodeAccelAndYaw(a), EncodeAccelAndYaw(a');
    AccelAndYawLayout(a);
    AccelAndYawLayout(a');
    assert after[0..5] == Field(a.longitudinalCorrectedState, l);
    assert after[5..10] == Field(a.transversalCorrectedState, t);
    assert after[15..20] == Field(a.longitudinalRawState, l);
    assert after[20..25] == Field(a.transversalRawState, t);
    assert after[10..15] == Field(a.yawRateCorrectedState, a.yawRateCorrected) == before[10..15];
    assert after[25..30] == Field(a.yawRateRawState, a.yawRateRaw) == before[25..30];
    assert before[0..5] == Field(a.longitudinalCorrectedState, a.longitudinalCorrected);
    assert before[5..10] == Field(a.transversalCorrectedState, a.transversalCorrected);
    assert before[15..20] == Field(a.longitudinalRawState, a.longitudinalRaw);
    assert before[20..25] == Field(a.transversalRawState, a.transversalRaw);
    assert after[0] == after[0..5][0] && before[0] == before[0..5][0];
    assert after[5] == after[5..10][0] && before[5] == before[5..10][0];
    assert after[15] == after[15..20][0] && before[15] == before[15..20][0];
    assert after[20] == after[20..25][0] && before[20] == before[20..25][0];
    assert after[1..5] == after[0..5][1..];
    assert after[16..20] == after[15..20][1..];
    assert after[21..25] == after[20..25][1..];
    assert after[6..10] == after[5..10][1..];
  }

  /** The simulated state, updated in place by the stimuli. */
  class VehicleDynamicsPlugin {
    var vehicleSpeed: VehicleSpeed
    var vehicleAccelYaw: AccelAndYaw
    var vehicleSpeedBody: SpeedBody
    /** The step of `increment_speed`, 1.0. */
    const speedIncrement: Float32

    function State(): Snapshot
      reads this
    {
      Snapshot(vehicleSpeed, vehicleAccelYaw, vehicleSpeedBody)
    }

    constructor ()
      ensures State() == Initial && speedIncrement == One
    {
      vehicleSpeed := Initial.speed;
      vehicleAccelYaw := Initial.accelYaw;
      vehicleSpeedBody := Initial.body;
      speedIncrement := One;
    }

    /** `increment_speed`; `add` stands for Python's float addition. */
    method IncrementSpeed(add: (Float32, Float32) -> Float32)
      modifies this
      ensures State() == WithSpeedIncremented(old(State()), speedIncrement, add)
    {
      vehicleSpeed := vehicleSpeed.(speed := add(vehicleSpeed.speed, speedIncrement));
      vehicleSpeed := vehicleSpeed.(lowSpeed := add(vehicleSpeed.lowSpeed, speedIncrement));
      vehicleSpeedBody := vehicleSpeedBody.(value := add(vehicleSpeedBody.value, speedIncrement));
    }

    method SetSpeed(value: Float32)
      modifies this
      ensures State() == WithSpeed(old(State()), value)
    {
      vehicleSpeed := vehicleSpeed.(speed := value);
      vehicleSpeed := vehicleSpeed.(lowSpeed := value);
      vehicleSpeedBody := vehicleSpeedBody.(value := value);
    }

    method SetAcceleration(longitudinal: Float32, transversal: Float32)
      modifies this
      ensures State() == WithAcceleration(old(State()), longitudinal, transversal)
    {
      vehicleAccelYaw := vehicleAccelYaw.(longitudinalCorrected := longitudinal);
      vehicleAccelYaw := vehicleAccelYaw.(transversalCorrected := transversal);
      vehicleAccelYaw := vehicleAccelYaw.(longitudinalRaw := longitudinal);
      vehicleAccelYaw := vehicleAccelYaw.(transversalRaw := transversal);
    }

    /** `get_payload`: reads the state and changes nothing, so two calls with no stimulus in
        between return the same bytes. */
    method GetPayload(event: string) returns (r: Result<seq<byte>, PyError>)
      ensures r == Payload(event, State())
    {
      if event == "VehicleSpeed" {
        r := Ok(EncodeVehicleSpeed(vehicleSpeed));
      } else if event == "VehicleAccelAndYaw" {
        r := Ok(EncodeAccelAndYaw(vehicleAccelYaw));
      } else if event == "VehicleSpeedBody" {
        r := Ok(EncodeSpeedBody(vehicleSpeedBody));
      } else {
        r := Err(ValueError("Evento no reconocido: " + event));
      }
    }
  }
}
