/** Building the pad-state message (pad_server/src/telemetry.c), one thread running alone;
    `Threads` takes the same fields in the same order while the controller runs. */
module Telemetry {
  import opened Protocol
  import opened PadModel
  import opened PadState

  const N_IOVS := 34

  datatype Body =
    | ArmState(time: nat, level: byte)
    | ConnState(time: nat, status: byte)
    | ActState(time: nat, id: byte, state: byte)

  /** Which buffer an iovec leads to. */
  datatype Iov = Unset | ArmHdr | ArmBody | ConnHdr | ConnBody | ActHdr(i: nat) | ActBody(i: nat)

  function StatusCode(c: ConnStatus): byte {
    match c case Connected => 0 case Reconnecting => 1 case Disconnected => 2
  }

  function StatusOf(b: byte): ConnStatus {
    if b == 0 then Connected else if b == 1 then Reconnecting else Disconnected
  }

  /** The buffers of one `sendmsg`. */
  datatype Message = Message(
    pkt: seq<Iov>, armHdr: Header, armBody: Body, connHdr: Header, connBody: Body,
    headers: seq<Header>, bodies: seq<Body>)

  /** The header and body that travel as the `k`th pair, if the iovecs lead to buffers. */
  function Pair(m: Message, k: nat): Option<(Header, Body)>
    requires 2 * k + 1 < |m.pkt|
  {
    match (m.pkt[2 * k], m.pkt[2 * k + 1])
    case (ArmHdr, ArmBody) => Some((m.armHdr, m.armBody))
    case (ConnHdr, ConnBody) => Some((m.connHdr, m.connBody))
    case (ActHdr(i), ActBody(j)) => if i < |m.headers| && j < |m.bodies| then Some((m.headers[i], m.bodies[j])) else None
    case _ => None
  }

  /** What a telemetry client reads out of one pair. */
  datatype Fact = SeesLevel(level: byte) | SeesConn(status: ConnStatus) | SeesAct(id: byte, on: bool) | Unreadable

  function Read(p: Option<(Header, Body)>): Fact {
    match p
    case None => Unreadable
    case Some((h, b)) =>
      if h.kind != TYPE_TELEM then Unreadable
      else if h.subtype == TELEM_ARM && b.ArmState? then SeesLevel(b.level)
      else if h.subtype == TELEM_CONN && b.ConnState? then SeesConn(StatusOf(b.status))
      else if h.subtype == TELEM_ACT && b.ActState? then SeesAct(b.id, b.state == 1)
      else Unreadable
  }

  /** The message tells a client the level, the connection, and every actuator once, in order. */
  ghost predicate Tells(m: Message, p: Pad) {
    && |m.pkt| == N_IOVS
    && Read(Pair(m, 0)) == SeesLevel(p.level)
    && Read(Pair(m, 1)) == SeesConn(p.conn)
    && forall id: byte | id < NUM_ACTUATORS :: Read(Pair(m, 2 + id)) == SeesAct(id, p.acts[id])
  }

  /** The bytes of the message: the headers, the time, and the numbers packets/packet.h gives to
      levels, connection statuses and actuators. */
  ghost predicate Carries(m: Message, p: Pad, time: nat) {
    && |m.pkt| == N_IOVS
    && Pair(m, 0) == Some((Header(1, 4), ArmState(time, p.level)))
    && Pair(m, 1) == Some((Header(1, 8), ConnState(time, match p.conn case Connected => 0 case Reconnecting => 1 case Disconnected => 2)))
    && forall id: byte | id < NUM_ACTUATORS :: Pair(m, 2 + id) == Some((Header(1, 5), ActState(time, id, if p.acts[id] then 1 else 0)))
  }

  /** Two pads told by the same message are the same. */
  lemma TellsOnePad(m: Message, p: Pad, q: Pad)
    requires Tells(m, p) && Tells(m, q)
    ensures p == q
  {
    forall id: byte | id < NUM_ACTUATORS ensures p.acts[id] == q.acts[id] {
      assert Read(Pair(m, 2 + id)) == SeesAct(id, p.acts[id]);
    }
    assert p.acts == q.acts;
  }

  class StatePacket {
    const pkt: array<Iov>
    const headers: array<Header>
    const bodies: array<Body>

    ghost predicate Valid() {
      pkt.Length == N_IOVS && headers.Length == bodies.Length == 15
    }

    /** The iovecs lead to the level and the connection. */
    ghost predicate HasFront()
      requires Valid()
      reads pkt
    {
      pkt[0] == ArmHdr && pkt[1] == ArmBody && pkt[2] == ConnHdr && pkt[3] == ConnBody
    }

    /** Actuator `i` is in its buffers and its iovecs lead there. */
    ghost predicate HasAct(i: nat, time: nat, on: bool)
      requires Valid() && i < 15
      reads pkt, headers, bodies
    {
      && headers[i] == Header(TYPE_TELEM, TELEM_ACT) && bodies[i] == ActState(time, i, if on then 1 else 0)
      && pkt[4 + i * 2] == ActHdr(i) && pkt[4 + i * 2 + 1] == ActBody(i)
    }

    constructor ()
      ensures Valid() && fresh(pkt) && fresh(headers) && fresh(bodies)
    {
      pkt := new Iov[N_IOVS](_ => Unset);
      headers := new Header[15](_ => Header(0, 0));
      bodies := new Body[15](_ => ArmState(0, 0));
    }

    method PutFront()
      requires Valid()
      modifies pkt
      ensures HasFront()
    {
      pkt[0], pkt[1] := ArmHdr, ArmBody;
      pkt[2], pkt[3] := ConnHdr, ConnBody;
    }

    method PutAct(i: nat, time: nat, on: bool)
      requires Valid() && i < 15 && HasFront()
      modifies pkt, headers, bodies
      ensures HasFront() && HasAct(i, time, on)
      ensures forall k, b | 0 <= k < i :: old(HasAct(k, time, b)) ==> HasAct(k, time, b)
    {
      headers[i] := Header(TYPE_TELEM, TELEM_ACT);
      bodies[i] := ActState(time, i, if on then 1 else 0);
      pkt[4 + i * 2] := ActHdr(i);
      pkt[4 + i * 2 + 1] := ActBody(i);
    }
  }

  /** The actuators' loop. */
  method PutActs(packet: StatePacket, state: PadState, time: nat)
    requires state.Valid() && packet.Valid() && packet.HasFront()
    modifies packet.pkt, packet.headers, packet.bodies
    ensures packet.HasFront()
    ensures forall k | 0 <= k < 15 :: packet.HasAct(k, time, state.View().acts[k])
  {
    ghost var view := state.View();
    for i := 0 to 15
      invariant packet.HasFront()
      invariant forall k | 0 <= k < i :: packet.HasAct(k, time, view.acts[k])
    {
      var actState := state.GetActState(i);
      packet.PutAct(i, time, actState == Some(true));
    }
  }

  /** The filled buffers as the message that `sendmsg` gathers. */
  method Gather(packet: StatePacket, armHdr: Header, armBody: Body, connHdr: Header, connBody: Body, ghost acts: seq<bool>, ghost time: nat)
    returns (msg: Message)
    requires packet.Valid() && packet.HasFront() && |acts| == 15
    requires forall k | 0 <= k < 15 :: packet.HasAct(k, time, acts[k])
    ensures msg == Message(packet.pkt[..], armHdr, armBody, connHdr, connBody, packet.headers[..], packet.bodies[..])
    ensures Gathered(msg, acts, time)
  {
    msg := Message(packet.pkt[..], armHdr, armBody, connHdr, connBody, packet.headers[..], packet.bodies[..]);
    forall id: byte | id < NUM_ACTUATORS ensures GatheredAct(msg, id, time, acts[id]) {
      assert packet.HasAct(id, time, acts[id]);
    }
  }

  predicate GatheredAct(m: Message, id: byte, time: nat, on: bool)
    requires id < NUM_ACTUATORS && |m.pkt| == N_IOVS && |m.headers| == |m.bodies| == NUM_ACTUATORS as int
  {
    && m.headers[id] == Header(TYPE_TELEM, TELEM_ACT) && m.bodies[id] == ActState(time, id, if on then 1 else 0)
    && m.pkt[4 + 2 * id] == ActHdr(id) && m.pkt[4 + 2 * id + 1] == ActBody(id)
  }

  ghost predicate Gathered(m: Message, acts: seq<bool>, time: nat)
    requires |acts| == NUM_ACTUATORS as int
  {
    && |m.pkt| == N_IOVS && |m.headers| == |m.bodies| == NUM_ACTUATORS as int
    && m.pkt[..4] == [ArmHdr, ArmBody, ConnHdr, ConnBody]
    && forall id: byte | id < NUM_ACTUATORS :: GatheredAct(m, id, time, acts[id])
  }

  method SendPadState(state: PadState, time: nat) returns (msg: Message)
    requires state.Valid()
    ensures Carries(msg, state.View(), time) && Tells(msg, state.View())
  {
    hide Tells, Carries, Gathered;
    var packet := new StatePacket();
    var armHdr := Header(TYPE_TELEM, TELEM_ARM);
    var level := state.GetLevel();
    var armBody := ArmState(time, level);
    var connHdr := Header(TYPE_TELEM, TELEM_CONN);
    var connBody := ConnState(time, StatusCode(state.connStatus));
    packet.PutFront();
    PutActs(packet, state, time);
    msg := Gather(packet, armHdr, armBody, connHdr, connBody, state.View().acts, time);
    MessageTells(msg, state.View(), time);
  }

  /** Buffers filled as in `StatePacket` tell the pad. */
  lemma MessageTells(m: Message, p: Pad, time: nat)
    requires Gathered(m, p.acts, time)
    requires m.armHdr == Header(TYPE_TELEM, TELEM_ARM) && m.armBody == ArmState(time, p.level)
    requires m.connHdr == Header(TYPE_TELEM, TELEM_CONN) && m.connBody == ConnState(time, StatusCode(p.conn))
    ensures Carries(m, p, time) && Tells(m, p)
  {
    assert m.pkt[0] == m.pkt[..4][0] && m.pkt[1] == m.pkt[..4][1] && m.pkt[2] == m.pkt[..4][2] && m.pkt[3] == m.pkt[..4][3];
    forall id: byte | id < NUM_ACTUATORS 
      ensures Pair(m, 2 + id) == Some((Header(1, 5), ActState(time, id, if p.acts[id] then 1 else 0)))
      ensures Read(Pair(m, 2 + id)) == SeesAct(id, p.acts[id])
    {
      assert GatheredAct(m, id, time, p.acts[id]);
      ActPair(m, id, time, p.acts[id]);
    }
  }

  lemma ActPair(m: Message, id: byte, time: nat, on: bool)
    requires id < NUM_ACTUATORS && |m.pkt| == N_IOVS && |m.headers| == |m.bodies| == NUM_ACTUATORS as int
    requires GatheredAct(m, id, time, on)
    ensures Pair(m, 2 + id) == Some((Header(TYPE_TELEM, TELEM_ACT), ActState(time, id, if on then 1 else 0)))
    ensures Read(Pair(m, 2 + id)) == SeesAct(id, on)
  {
    assert 2 * (2 + id) == 4 + 2 * id;
  }
}
