/** One round of sensor telemetry: the loops that fill the packet arrays in place
    (pad_server/src/telemetry.c). */
module SensorPacking {
  import opened Protocol

  const MAX_MEASUREMENTS := 32

  datatype Channel = Channel(num: nat, sensorId: byte, kind: byte)

  type Device = i: int | 0 <= i < 3

  /** The three ADCs. */
  function Channels(i: Device): seq<Channel> {
    if i == 0 then
      [Channel(4, 0, TELEM_TEMP), Channel(5, 1, TELEM_TEMP), Channel(6, 4, TELEM_PRESSURE), Channel(7, 2, TELEM_PRESSURE)]
    else if i == 1 then
      [Channel(4, 0, TELEM_PRESSURE), Channel(5, 1, TELEM_PRESSURE), Channel(6, 5, TELEM_PRESSURE), Channel(7, 3, TELEM_PRESSURE)]
    else [Channel(4, 0, TELEM_THRUST), Channel(7, 1, TELEM_CONT)]
  }

  type uint32 = x: int | 0 <= x < 0x1_0000_0000

  function ToUint32(x: int): uint32 { x % 0x1_0000_0000 }

  /** A reading with its clock in milliseconds, or microseconds for a uORB sample. */
  datatype Sample = Sample(clock: nat, value: int)

  /** Everything one round depends on: which devices opened, which sensors came up, and
      what each read or fetch yields. */
  datatype Round = Round(
    isOpen: Device -> bool, read: (Device, nat) -> Option<Sample>,
    massAvailable: bool, mass: Option<Sample>,
    tempAvailable: nat -> bool, temp: nat -> Option<Sample>)

  datatype Body =
    | Pressure(time: uint32, id: byte, pressure: int)
    | Mass(time: uint32, id: byte, mass: int)
    | Temp(time: uint32, id: byte, temperature: int)
    | Thrust(time: uint32, id: byte, thrust: uint32)
    | Continuity(time: uint32, state: byte)

  /** The telemetry subtype a body is read as. */
  function Subtype(b: Body): byte {
    match b
    case Pressure(_, _, _) => TELEM_PRESSURE
    case Mass(_, _, _) => TELEM_MASS
    case Temp(_, _, _) => TELEM_TEMP
    case Thrust(_, _, _) => TELEM_THRUST
    case Continuity(_, _) => TELEM_CONT
  }

  /** An iovec: the `k`th header, or the `k`th body with the length of a given subtype. */
  datatype Iov = Unset | HeaderAt(k: nat) | BodyAt(k: nat, subtype: byte)

  // ---- The specification: a list of slots, some of them filled ----

  const SLOTS := 15
  const ADC_SLOTS := 12

  function AdcBody(c: Channel, s: Sample): Option<Body> {
    var t := ToUint32(s.clock);
    if c.kind == TELEM_PRESSURE then Some(Pressure(t, c.sensorId, s.value))
    else if c.kind == TELEM_TEMP then Some(Temp(t, c.sensorId, s.value))
    else if c.kind == TELEM_THRUST then Some(Thrust(t, c.sensorId, ToUint32(s.value)))
    else if c.kind == TELEM_CONT then Some(Continuity(t, s.value % 256))
    else None
  }

  function TempId(i: nat): byte { if i == 0 then 2 else 3 }

  /** Slot `3 * channel + device` for the ADCs, then the mass sensor, then the two thermocouples. */
  function SlotBody(r: Round, n: nat): Option<Body>
    requires n < SLOTS
  {
    if n < 12 then
      var i: Device, j := n % 3, n / 3;
      if r.isOpen(i) && j < |Channels(i)| && r.read(i, j).Some? then AdcBody(Channels(i)[j], r.read(i, j).value) else None
    else if n == 12 then
      if r.massAvailable && r.mass.Some? then Some(Mass(ToUint32(r.mass.value.clock / 1000), 0, r.mass.value.value)) else None
    else
      var i := n - 13;
      if r.tempAvailable(i) && r.temp(i).Some? then
        Some(Temp(ToUint32(r.temp(i).value.clock / 1000), TempId(i), r.temp(i).value.value))
      else None
  }

  function Listed(b: Option<Body>): seq<Body> {
    match b
    case Some(x) => [x]
    case None => []
  }

  /** The filled slots below `n`, in order. */
  function Filled(r: Round, n: nat): seq<Body>
    requires n <= SLOTS
  {
    if n == 0 then [] else Filled(r, n - 1) + Listed(SlotBody(r, n - 1))
  }

  /** Each filled slot is listed once, at the place given by the filled slots before it. */
  lemma {:induction false} FilledIsOrdered(r: Round, n: nat, k: nat)
    requires k < n <= SLOTS
    ensures Filled(r, k) <= Filled(r, n)
    ensures SlotBody(r, k).Some? ==> |Filled(r, k)| < |Filled(r, n)| && Filled(r, n)[|Filled(r, k)|] == SlotBody(r, k).value
    decreases n
  {
    hide SlotBody;
    if k < n - 1 {
      FilledIsOrdered(r, n - 1, k);
    }
  }

  lemma FilledStep(r: Round, n: nat)
    requires n < SLOTS
    ensures Filled(r, n + 1) == Filled(r, n) + Listed(SlotBody(r, n))
    ensures |Filled(r, n + 1)| == |Filled(r, n)| + if SlotBody(r, n).Some? then 1 else 0
  {
  }

  /** At most one listing per slot, and none for the two channels the third ADC lacks, whose
      slots are 8 and 11: in all, at most thirteen. */
  lemma {:induction false} FilledBound(r: Round, n: nat)
    requires n <= SLOTS
    ensures |Filled(r, n)| <= n - (if n > 8 then 1 else 0) - (if n > 11 then 1 else 0)
  {
    if n > 0 {
      FilledBound(r, n - 1);
      FilledStep(r, n - 1);
      assert SlotBody(r, 8) == None && SlotBody(r, 11) == None;
    }
  }

  /** What one ADC channel contributes. */
  lemma AdcSlot(r: Round, i: Device, j: nat)
    requires j < 4
    ensures Filled(r, 3 * j + i + 1) == Filled(r, 3 * j + i) + Listed(
              if r.isOpen(i) && j < |Channels(i)| && r.read(i, j).Some? then AdcBody(Channels(i)[j], r.read(i, j).value) else None)
  {
    assert (3 * j + i) % 3 == i && (3 * j + i) / 3 == j;
  }

  // ---- What a packet's measurements are ----

  /** The sensor a body names within its kind; there is one continuity check. */
  function SensorId(b: Body): byte {
    match b
    case Pressure(_, id, _) => id
    case Mass(_, id, _) => id
    case Temp(_, id, _) => id
    case Thrust(_, id, _) => id
    case Continuity(_, _) => 0
  }

  /** What is measured in each slot, by the numbers of packets/packet.h: its kind (0 temperature,
      1 pressure, 2 mass, 3 thrust, 7 continuity) and, within the kind, its sensor. */
  lemma SlotSensor(r: Round, n: nat)
    requires n < SLOTS && SlotBody(r, n).Some?
    ensures var b := SlotBody(r, n).value;
            (Subtype(b), SensorId(b)) ==
            [(0, 0), (1, 0), (3, 0),
             (0, 1), (1, 1), (7, 0),
             (1, 4), (1, 5), (255, 255),
             (1, 2), (1, 3), (255, 255),
             (2, 0), (0, 2), (0, 3)][n]
  {
    hide ToUint32;
    SlotsOfThree(n);
  }

  lemma SlotsOfThree(n: nat)
    ensures n == 3 * (n / 3) + n % 3
  {
  }

  /** No two slots measure the same thing. */
  lemma SlotsDiffer(r: Round, m: nat, n: nat)
    requires m < n < SLOTS && SlotBody(r, m).Some? && SlotBody(r, n).Some?
    ensures var a, b := SlotBody(r, m).value, SlotBody(r, n).value;
            Subtype(a) != Subtype(b) || SensorId(a) != SensorId(b)
  {
    hide SlotBody, Subtype, SensorId;
    SlotSensor(r, m);
    SlotSensor(r, n);
    NotThirdDevice(r, m);
    NotThirdDevice(r, n);
  }

  lemma NotThirdDevice(r: Round, n: nat)
    requires n < SLOTS && SlotBody(r, n).Some?
    ensures n != 8 && n != 11
  {
  }

  /** Where a listed measurement comes from. */
  lemma {:induction false} ListedFrom(r: Round, n: nat, k: nat) returns (slot: nat)
    requires n <= SLOTS && k < |Filled(r, n)|
    ensures slot < n && SlotBody(r, slot) == Some(Filled(r, n)[k]) && k == |Filled(r, slot)|
    decreases n
  {
    hide SlotBody;
    FilledStep(r, n - 1);
    slot := n - 1;
    if k < |Filled(r, n - 1)| {
      slot := ListedFrom(r, n - 1, k);
    }
  }

  /** No two measurements of one packet tell of the same sensor. */
  lemma SensorsAreDistinct(r: Round, p: nat, q: nat)
    requires p < q < |Filled(r, SLOTS)|
    ensures var a, b := Filled(r, SLOTS)[p], Filled(r, SLOTS)[q];
            Subtype(a) != Subtype(b) || SensorId(a) != SensorId(b)
  {
    hide SlotBody, Filled, Subtype, SensorId;
    var m := ListedFrom(r, SLOTS, p);
    var n := ListedFrom(r, SLOTS, q);
    if m < n {
      SlotsDiffer(r, m, n);
    } else if n < m {
      SlotsDiffer(r, n, m);
    }
  }

  /** A slot is filled exactly when its device is there and its read or fetch succeeds; the
      third ADC has no third and fourth channel. */
  lemma FilledIff(r: Round, n: nat)
    requires n < SLOTS
    ensures SlotBody(r, n).Some? <==>
              if n < 12 then n != 8 && n != 11 && r.isOpen(n % 3) && r.read(n % 3, n / 3).Some?
              else if n == 12 then r.massAvailable && r.mass.Some?
              else r.tempAvailable(n - 13) && r.temp(n - 13).Some?
  {
    hide ToUint32;
    SlotsOfThree(n);
  }

  /** A measurement carries its own sample: an ADC's clock is in milliseconds, a sensor's in
      microseconds, and time stamps wrap at 32 bits. */
  lemma SampleOfSlot(r: Round, n: nat)
    requires n < SLOTS && SlotBody(r, n).Some?
    ensures n < 12 ==> r.isOpen(n % 3) && r.read(n % 3, n / 3).Some? && SlotBody(r, n).value.time == r.read(n % 3, n / 3).value.clock % 0x1_0000_0000
    ensures n < 12 ==>
              var v := r.read(n % 3, n / 3).value.value;
              match SlotBody(r, n).value
              case Pressure(_, _, x) => x == v
              case Temp(_, _, x) => x == v
              case Thrust(_, _, x) => x == v % 0x1_0000_0000
              case Continuity(_, x) => x == v % 256
              case Mass(_, _, _) => false
    ensures n == 12 ==> r.massAvailable && r.mass.Some? &&
                        SlotBody(r, n).value == Mass(r.mass.value.clock / 1000 % 0x1_0000_0000, 0, r.mass.value.value)
    ensures n > 12 ==> r.tempAvailable(n - 13) && r.temp(n - 13).Some? &&
                       SlotBody(r, n).value == Temp(r.temp(n - 13).value.clock / 1000 % 0x1_0000_0000, n - 11, r.temp(n - 13).value.value)
  {
  }

  class Packet {
    const pkt: array<Iov>
    const headers: array<Header>
    const bodies: array<Body>
    var sensorCount: nat

    ghost predicate Valid()
      reads this, pkt, headers, bodies
    {
      && pkt.Length == 2 * MAX_MEASUREMENTS && headers.Length == bodies.Length == MAX_MEASUREMENTS
      && sensorCount <= MAX_MEASUREMENTS
      && forall k | 0 <= k < sensorCount :: Complete(k)
    }

    /** The `k`th measurement: its header and body agree and its two iovecs lead to them. */
    ghost predicate Complete(k: nat)
      requires k < MAX_MEASUREMENTS
      requires pkt.Length == 2 * MAX_MEASUREMENTS && headers.Length == bodies.Length == MAX_MEASUREMENTS
      reads pkt, headers, bodies
    {
      && headers[k] == Header(TYPE_TELEM, Subtype(bodies[k]))
      && pkt[2 * k] == HeaderAt(k)
      && pkt[2 * k + 1] == BodyAt(k, Subtype(bodies[k]))
    }

    ghost function Packed(): seq<Body>
      requires Valid()
      reads this, pkt, headers, bodies
    {
      bodies[..sensorCount]
    }

    constructor ()
      ensures Valid() && fresh(pkt) && fresh(headers) && fresh(bodies) && sensorCount == 0
    {
      pkt := new Iov[2 * MAX_MEASUREMENTS](_ => Unset);
      headers := new Header[MAX_MEASUREMENTS](_ => Header(0, 0));
      bodies := new Body[MAX_MEASUREMENTS](_ => Continuity(0, 0));
      sensorCount := 0;
    }

    /** The header and its iovec, written before the body is known. */
    method PutHeader(subtype: byte)
      requires Valid() && sensorCount < MAX_MEASUREMENTS
      modifies pkt, headers
      ensures Valid() && Packed() == old(Packed())
      ensures headers[sensorCount] == Header(TYPE_TELEM, subtype) && pkt[2 * sensorCount] == HeaderAt(sensorCount)
    {
      headers[sensorCount] := Header(TYPE_TELEM, subtype);
      pkt[2 * sensorCount] := HeaderAt(sensorCount);
      assert forall k | 0 <= k < sensorCount :: old(Complete(k)) ==> Complete(k);
    }

    /** The body and its iovec, which complete the measurement. */
    method PutBody(b: Body)
      requires Valid() && sensorCount < MAX_MEASUREMENTS
      requires headers[sensorCount] == Header(TYPE_TELEM, Subtype(b)) && pkt[2 * sensorCount] == HeaderAt(sensorCount)
      modifies pkt, bodies, `sensorCount
      ensures Valid() && Packed() == old(Packed()) + [b]
    {
      bodies[sensorCount] := b;
      pkt[2 * sensorCount + 1] := BodyAt(sensorCount, Subtype(b));
      assert forall k | 0 <= k < sensorCount :: old(Complete(k)) ==> Complete(k);
      assert Complete(sensorCount);
      assert bodies[..sensorCount + 1] == old(bodies[..sensorCount]) + [b];
      sensorCount := sensorCount + 1;
      forall k | 0 <= k < sensorCount ensures Complete(k) {
        if k < sensorCount - 1 { assert old(Complete(k)); }
      }
    }

    /** The packet holds exactly the filled slots below `n`. */
    ghost predicate UpTo(r: Round, n: nat)
      requires n <= SLOTS
      reads this, pkt, headers, bodies
    {
      Valid() && Packed() == Filled(r, n)
    }

    /** One ADC channel: skipped, failed, or converted and packed by its type. */
    method PackAdc(r: Round, i: Device, j: nat)
      requires j < 4 && UpTo(r, 3 * j + i)
      modifies this, pkt, headers, bodies
      ensures UpTo(r, 3 * j + i + 1)
    {
      hide Filled, SlotBody, ToUint32, Channels, Complete;
      AdcSlot(r, i, j);
      FilledBound(r, 3 * j + i);
      if !r.isOpen(i) || j >= |Channels(i)| {
        return;
      }
      var channel := Channels(i)[j];
      var sample := r.read(i, j);
      if sample.None? {
        return;
      }
      var timeMs := ToUint32(sample.value.clock);
      var sensorVal := sample.value.value;
      PutHeader(channel.kind);
      if channel.kind == TELEM_PRESSURE {
        PutBody(Pressure(timeMs, channel.sensorId, sensorVal));
      } else if channel.kind == TELEM_TEMP {
        PutBody(Temp(timeMs, channel.sensorId, sensorVal));
      } else if channel.kind == TELEM_THRUST {
        PutBody(Thrust(timeMs, channel.sensorId, ToUint32(sensorVal)));
      } else if channel.kind == TELEM_CONT {
        PutBody(Continuity(timeMs, sensorVal % 256));
      }
    }

    method PackMass(r: Round)
      requires UpTo(r, ADC_SLOTS)
      modifies this, pkt, headers, bodies
      ensures UpTo(r, ADC_SLOTS + 1)
    {
      FilledBound(r, ADC_SLOTS);
      if r.massAvailable && r.mass.Some? {
        PutHeader(TELEM_MASS);
        PutBody(Mass(ToUint32(r.mass.value.clock / 1000), 0, r.mass.value.value));
      }
    }

    method PackTemp(r: Round, i: nat)
      requires i < 2 && UpTo(r, ADC_SLOTS + 1 + i)
      modifies this, pkt, headers, bodies
      ensures UpTo(r, ADC_SLOTS + 2 + i)
    {
      FilledBound(r, ADC_SLOTS + 1 + i);
      if r.tempAvailable(i) {
        if r.temp(i).None? {
          return;
        }
        PutHeader(TELEM_TEMP);
        PutBody(Temp(ToUint32(r.temp(i).value.clock / 1000), TempId(i), r.temp(i).value.value));
      }
    }

    /** One whole round: the arrays end up holding exactly the successful readings,
        channel by channel over the ADCs, then mass, then temperatures. */
    method Pack(r: Round) returns (send: bool, iovlen: nat)
      requires Valid() && sensorCount == 0
      modifies this, pkt, headers, bodies
      ensures Valid() && Packed() == Filled(r, SLOTS)
      ensures iovlen == 2 * |Filled(r, SLOTS)| <= 26
      ensures send <==> Filled(r, SLOTS) != []
    {
      hide SlotBody, Filled;
      FilledBound(r, 0);
      for j := 0 to 4
        invariant UpTo(r, 3 * j)
      {
        for i := 0 to 3
          invariant UpTo(r, 3 * j + i)
        {
          PackAdc(r, i, j);
        }
      }
      PackMass(r);
      for i := 0 to 2
        invariant UpTo(r, ADC_SLOTS + 1 + i)
      {
        PackTemp(r, i);
      }
      FilledBound(r, SLOTS);
      send, iovlen := sensorCount > 0, 2 * sensorCount;
    }
  }
}
