/** The hardware control client's switch table, callback and scan loop
    (control_client/src/control_client_main.c, control_client/src/switch.c). */
module ControlBox {
  import opened Protocol

  const N_SWITCHES := 20
  const N_ACT_SWITCHES := 15
  const VALVE_ARMING_SWITCH_IDX := 16
  const IGNITION_SWITCH_IDX := 17

  const EPERM := 1
  const EAGAIN := 11
  const ENODEV := 19
  const EINVAL := 22
  const ECONNABORTED := 103
  const ENOTCONN := 107
  const ECONNREFUSED := 111

  datatype Kind = ActSwitch | ArmSwitch

  datatype Switch = Switch(actId: byte, kind: Kind, state: bool)

  type Index = i: int | 0 <= i < N_SWITCHES

  /** The switch table: twelve valves, quick disconnect, dump, igniter, then the five arming levels. */
  function TableId(i: Index): byte {
    if i < 12 then i + 1
    else if i == 12 then ID_QUICK_DISCONNECT
    else if i == 13 then ID_DUMP
    else if i == 14 then ID_IGNITER
    else i - N_ACT_SWITCHES
  }

  function TableKind(i: Index): Kind {
    if i < N_ACT_SWITCHES then ActSwitch else ArmSwitch
  }

  /** Which table entries have a GPIO input (`ACTUATOR_IN`, `ARM_IN`). */
  predicate HasInput(i: Index) {
    i < N_ACT_SWITCHES || i == VALVE_ARMING_SWITCH_IDX || i == IGNITION_SWITCH_IDX
  }

  /** Where the switch of an actuator sits in the table. */
  function SwitchOf(id: byte): Index
    requires id < NUM_ACTUATORS
    ensures TableKind(SwitchOf(id)) == ActSwitch && TableId(SwitchOf(id)) == id
  {
    if id == ID_IGNITER then 14 else if id == ID_QUICK_DISCONNECT then 12 else if id == ID_DUMP then 13 else id - 1
  }

  /** The request a switch sends on reaching `on`; level 0 minus 1 wraps in its byte. */
  function RequestOf(i: Index, on: bool): Request {
    match TableKind(i)
    case ActSwitch => Act(TableId(i), if on then 1 else 0)
    case ArmSwitch => Arm(if on then TableId(i) else (TableId(i) - 1) % 256)
  }

  /** One GPIO read: the device may fail to open or to read. */
  datatype Reading = OpenFailed | ReadFailed | Pin(high: bool)

  /** What the network makes of one request. */
  datatype Response = SendFailed(errno: int) | RecvFailed(errno: int) | Received(status: byte)

  predicate ConnectionLost(err: int) {
    err == ENOTCONN || err == ECONNABORTED || err == ECONNREFUSED
  }

  function CheckAct(status: byte): int {
    if status == 1 then EPERM else if status == 2 then ENODEV else if status == 3 then EINVAL else 0
  }

  function CheckArm(status: byte): int {
    if status == 1 then EPERM else if status == 2 then EINVAL else 0
  }

  function ReturnCode(kind: Kind, r: Response): int {
    match r
    case SendFailed(e) => e
    case RecvFailed(e) => e
    case Received(st) => if kind == ActSwitch then CheckAct(st) else CheckArm(st)
  }

  /** The state a switch is to be put in after reading its pin, if it is to be acted on at all.
      Pins are pulled up, so low means on. */
  function Decide(sw: seq<bool>, i: Index, r: Reading): Option<bool>
    requires |sw| == N_SWITCHES
  {
    if !HasInput(i) || !r.Pin? || !r.high == sw[i] then None
    else if i == IGNITION_SWITCH_IDX && r.high && !sw[VALVE_ARMING_SWITCH_IDX] then None
    else Some(!r.high)
  }

  /** A request as it left the client, with the arming key's state at that moment. */
  datatype Sent = Sent(index: Index, req: Request, keyOn: bool)

  datatype ScanState = ScanState(sw: seq<bool>, sent: seq<Sent>, lost: bool)

  function Slot(s: ScanState, i: Index, input: Reading, net: Response): (t: ScanState)
    requires |s.sw| == N_SWITCHES
    ensures |t.sw| == N_SWITCHES
  {
    match Decide(s.sw, i, input)
    case None => s
    case Some(on) =>
      var sw := s.sw[i := on];
      ScanState(sw, s.sent + [Sent(i, RequestOf(i, on), sw[VALVE_ARMING_SWITCH_IDX])], ConnectionLost(ReturnCode(TableKind(i), net)))
  }

  /** The switch of the `n`th visit. */
  function IndexOf(n: nat): Index { n % N_SWITCHES }

  /** The scan after its first `n` switch visits; a lost connection ends it. */
  function After(sw: seq<bool>, n: nat, input: nat -> Reading, net: nat -> Response): (s: ScanState)
    requires |sw| == N_SWITCHES
    ensures |s.sw| == N_SWITCHES
  {
    if n == 0 then ScanState(sw, [], false)
    else
      var s := After(sw, n - 1, input, net);
      if s.lost then s else Slot(s, IndexOf(n - 1), input(n - 1), net(n - 1))
  }

  lemma {:induction false} LostEndsScan(sw: seq<bool>, n: nat, m: nat, input: nat -> Reading, net: nat -> Response)
    requires |sw| == N_SWITCHES && n <= m && After(sw, n, input, net).lost
    ensures After(sw, m, input, net) == After(sw, n, input, net)
    decreases m
  {
    if n < m {
      LostEndsScan(sw, n, m - 1, input, net);
    }
  }

  lemma AfterStep(sw: seq<bool>, n: nat, input: nat -> Reading, net: nat -> Response)
    requires |sw| == N_SWITCHES
    ensures var s := After(sw, n, input, net);
            After(sw, n + 1, input, net) == if s.lost then s else Slot(s, IndexOf(n), input(n), net(n))
  {
  }

  lemma IndexInPass(first: nat, i: Index)
    requires IndexOf(first) == 0
    ensures IndexOf(first + i) == i
  {
  }

  /** Visit `i` of a pass, and how a lost connection there decides the rest of the scan. */
  lemma AfterNext(sw: seq<bool>, first: nat, i: Index, end: nat, input: nat -> Reading, net: nat -> Response)
    requires |sw| == N_SWITCHES && IndexOf(first) == 0 && first + i < end
    requires !After(sw, first + i, input, net).lost
    ensures var t := Slot(After(sw, first + i, input, net), i, input(first + i), net(first + i));
            After(sw, first + (i + 1), input, net) == t && (t.lost ==> After(sw, end, input, net) == t)
  {
    hide After, Slot, IndexOf;
    IndexInPass(first, i);
    AfterStep(sw, first + i, input, net);
    if After(sw, first + i + 1, input, net).lost {
      LostEndsScan(sw, first + i + 1, end, input, net);
    }
  }

  lemma NoVisits(sw: seq<bool>, input: nat -> Reading, net: nat -> Response)
    requires |sw| == N_SWITCHES
    ensures After(sw, 0, input, net) == ScanState(sw, [], false)
  {
  }

  lemma PassStart(k: nat)
    ensures IndexOf(N_SWITCHES * k) == 0
  {
  }

  class ControlBox {
    const switches: array<Switch>
    ghost var sent: seq<Sent>

    ghost predicate Valid()
      reads this, switches
    {
      && switches.Length == N_SWITCHES
      && forall i: Index :: switches[i].actId == TableId(i) && switches[i].kind == TableKind(i)
    }

    ghost function States(): (s: seq<bool>)
      reads this, switches
      requires Valid()
      ensures |s| == N_SWITCHES
    {
      seq(N_SWITCHES, i requires 0 <= i < N_SWITCHES && switches.Length == N_SWITCHES reads this, switches => switches[i].state)
    }

    constructor ()
      ensures Valid() && fresh(switches)
      ensures States() == seq(N_SWITCHES, _ => false) && sent == []
      ensures forall i: Index :: switches[i] == Switch(TableId(i), TableKind(i), false)
    {
      switches := new Switch[N_SWITCHES](i requires 0 <= i < N_SWITCHES => Switch(TableId(i), TableKind(i), false));
      sent := [];
    }

    /** The switch takes its new state before the request goes out, whatever becomes of it. */
    method SwitchCallback(i: Index, newState: bool, net: Response) returns (err: int)
      requires Valid()
      modifies switches, `sent
      ensures Valid() && States() == old(States())[i := newState]
      ensures sent == old(sent) + [Sent(i, RequestOf(i, newState), States()[VALVE_ARMING_SWITCH_IDX])]
      ensures err == ReturnCode(TableKind(i), net)
      ensures net.SendFailed? || net.RecvFailed? ==> err == net.errno
      ensures net.Received? && i < N_ACT_SWITCHES ==>
                err == if net.status == 1 then EPERM else if net.status == 2 then ENODEV else if net.status == 3 then EINVAL else 0
      ensures net.Received? && i >= N_ACT_SWITCHES ==>
                err == if net.status == 1 then EPERM else if net.status == 2 then EINVAL else 0
    {
      switches[i] := switches[i].(state := newState);
      assert States() == old(States())[i := newState];
      var req;
      match switches[i].kind {
        case ActSwitch =>
          req := Act(switches[i].actId, if switches[i].state then 1 else 0);
        case ArmSwitch =>
          req := Arm(if newState then switches[i].actId else (switches[i].actId - 1) % 256);
      }
      sent := sent + [Sent(i, req, States()[VALVE_ARMING_SWITCH_IDX])];
      match net {
        case SendFailed(e) => return e;
        case RecvFailed(e) => return e;
        case Received(status) =>
          match switches[i].kind {
            case ActSwitch => return CheckAct(status);
            case ArmSwitch => return CheckArm(status);
          }
      }
    }

    /** The body of the scan for one switch; it reports whether the connection went. */
    method Visit(i: Index, reading: Reading, net: Response) returns (reconnect: bool)
      requires Valid()
      modifies switches, `sent
      ensures Valid()
      ensures var s := Slot(ScanState(old(States()), [], false), i, reading, net);
              States() == s.sw && sent == old(sent) + s.sent && reconnect == s.lost
    {
      if !HasInput(i) { return false; }
      if !reading.Pin? { return false; }
      var value := !reading.high;
      if value == switches[i].state { return false; }
      var turningOffIgnition := switches[i].kind == ArmSwitch && switches[i].actId == ARMED_IGNITION && !value;
      if turningOffIgnition && !switches[VALVE_ARMING_SWITCH_IDX].state { return false; }
      var err := SwitchCallback(i, value, net);
      reconnect := ConnectionLost(err);
    }

    /** The box is where a scan that found `sent0` is once it has come to `s`. */
    ghost predicate At(sent0: seq<Sent>, s: ScanState)
      requires Valid()
      reads this, switches
    {
      States() == s.sw && sent == sent0 + s.sent
    }

    /** Visit `i` of a pass: either the scan goes on, or it is over and has come to its `end`. */
    method NextVisit(first: nat, i: Index, input: nat -> Reading, net: nat -> Response, ghost sw0: seq<bool>, ghost sent0: seq<Sent>, ghost end: nat)
      returns (reconnect: bool)
      requires Valid() && |sw0| == N_SWITCHES && IndexOf(first) == 0 && first + i < end
      requires At(sent0, After(sw0, first + i, input, net)) && !After(sw0, first + i, input, net).lost
      modifies switches, `sent
      ensures Valid()
      ensures !reconnect ==> At(sent0, After(sw0, first + (i + 1), input, net)) && !After(sw0, first + (i + 1), input, net).lost
      ensures reconnect ==> At(sent0, After(sw0, end, input, net)) && After(sw0, end, input, net).lost
    {
      AfterNext(sw0, first, i, end, input, net);
      reconnect := Visit(i, input(first + i), net(first + i));
    }

    /** One pass over the table, starting with visit `first`. */
    method Pass(first: nat, input: nat -> Reading, net: nat -> Response, ghost sw0: seq<bool>, ghost sent0: seq<Sent>, ghost end: nat)
      returns (reconnect: bool)
      requires Valid() && |sw0| == N_SWITCHES && IndexOf(first) == 0 && first + N_SWITCHES <= end
      requires At(sent0, After(sw0, first, input, net)) && !After(sw0, first, input, net).lost
      modifies switches, `sent
      ensures Valid()
      ensures !reconnect ==> At(sent0, After(sw0, first + N_SWITCHES, input, net)) && !After(sw0, first + N_SWITCHES, input, net).lost
      ensures reconnect ==> At(sent0, After(sw0, end, input, net)) && After(sw0, end, input, net).lost
    {
      hide After, Slot;
      for i := 0 to N_SWITCHES
        invariant Valid()
        invariant At(sent0, After(sw0, first + i, input, net)) && !After(sw0, first + i, input, net).lost
      {
        reconnect := NextVisit(first, i, input, net, sw0, sent0, end);
        if reconnect {
          return;
        }
      }
      reconnect := false;
    }

    /** The nested scan after an interrupt: one pass per table entry over all entries. */
    method Scan(input: nat -> Reading, net: nat -> Response) returns (reconnect: bool)
      requires Valid()
      modifies switches, `sent
      ensures Valid()
      ensures At(old(sent), After(old(States()), N_SWITCHES * N_SWITCHES, input, net))
      ensures reconnect == After(old(States()), N_SWITCHES * N_SWITCHES, input, net).lost
    {
      hide After, Slot, IndexOf;
      ghost var sw0, sent0 := States(), sent;
      NoVisits(sw0, input, net);
      for k := 0 to N_SWITCHES
        invariant Valid()
        invariant At(sent0, After(sw0, N_SWITCHES * k, input, net)) && !After(sw0, N_SWITCHES * k, input, net).lost
      {
        PassStart(k);
        reconnect := Pass(N_SWITCHES * k, input, net, sw0, sent0, N_SWITCHES * N_SWITCHES);
        if reconnect {
          return;
        }
      }
      reconnect := false;
    }
  }

  // ---- What the table says ----

  /** The switches' ids in the order of the box (valves, quick disconnect, dump, igniter, then
      the arming levels), and which of them have an input: all but the
      arming switches of ARMED_PAD, ARMED_DISCONNECTED and ARMED_LAUNCH. */
  lemma TableListed(i: Index)
    ensures var ids := [1, 2, 3, 4, 5, 6, 7, 8, 9, 10, 11, 12, 13, 14, 0, 0, 1, 2, 3, 4];
            |ids| == N_SWITCHES && TableId(i) == ids[i]
    ensures TableKind(i) == ActSwitch <==> i < 15
    ensures HasInput(i) <==> i != 15 && i != 18 && i != 19
  {
  }

  /** What each switch asks for: its actuator on or off, its level or the one below, where
      ARMED_PAD has 255 below it. */
  lemma RequestsListed(i: Index, on: bool)
    ensures i < 15 ==> RequestOf(i, on) == Act(TableId(i), if on then 1 else 0)
    ensures i >= 15 && on ==> RequestOf(i, on) == Arm(i - 15)
    ensures i > 15 && !on ==> RequestOf(i, on) == Arm(i - 16)
    ensures i == 15 && !on ==> RequestOf(i, on) == Arm(255)
  {
  }

  /** A visit does something exactly for a switch with an input that was read, disagrees with
      its pulled-up pin, and is not the ignition switch being turned off without the key. It
      then puts that one switch in the state of its pin and sends one request. */
  lemma VisitActsIff(s: ScanState, i: Index, r: Reading, net: Response)
    requires |s.sw| == N_SWITCHES
    ensures var t := Slot(s, i, r, net);
            if i != 15 && i != 18 && i != 19 && r.Pin? && r.high == s.sw[i] && !(i == 17 && r.high && !s.sw[16]) then
              && t.sw == s.sw[i := !r.high]
              && t.sent == s.sent + [Sent(i, RequestOf(i, !r.high), t.sw[16])]
            else t == s
  {
  }

  // ---- What the scan guarantees ----

  /** No acknowledgement, whatever its status, counts as a lost connection. */
  lemma AcksKeepConnection(kind: Kind, status: byte)
    ensures !ConnectionLost(ReturnCode(kind, Received(status)))
  {
  }

  /** Visit `k` sent a request, and sending it or receiving its answer failed for want of a connection. */
  predicate FailsAt(sw: seq<bool>, k: nat, input: nat -> Reading, net: nat -> Response)
    requires |sw| == N_SWITCHES
  {
    && |After(sw, k + 1, input, net).sent| == |After(sw, k, input, net).sent| + 1
    && !net(k).Received?
    && (net(k).errno == ENOTCONN || net(k).errno == ECONNABORTED || net(k).errno == ECONNREFUSED)
  }

  lemma SlotLoses(s: ScanState, i: Index, r: Reading, net: Response)
    requires |s.sw| == N_SWITCHES && !s.lost
    ensures var t := Slot(s, i, r, net);
            t.lost <==> (|t.sent| == |s.sent| + 1 && !net.Received?
                         && (net.errno == ENOTCONN || net.errno == ECONNABORTED || net.errno == ECONNREFUSED))
  {
  }

  /** A scan ends in a reconnection if and only if one of its requests met a lost connection;
      answers of any kind, refusals included, let it go on. */
  lemma {:induction false} LostIffConnectionFails(sw: seq<bool>, n: nat, input: nat -> Reading, net: nat -> Response)
    requires |sw| == N_SWITCHES
    ensures After(sw, n, input, net).lost <==> exists k :: 0 <= k < n && FailsAt(sw, k, input, net)
    ensures (forall k: nat | k < n :: net(k).Received?) ==> !After(sw, n, input, net).lost
  {
    hide Slot;
    if n > 0 {
      var s := After(sw, n - 1, input, net);
      LostIffConnectionFails(sw, n - 1, input, net);
      if !s.lost {
        SlotLoses(s, IndexOf(n - 1), input(n - 1), net(n - 1));
        assert After(sw, n, input, net).lost <==> FailsAt(sw, n - 1, input, net);
      }
    }
  }

  /** Whatever the pins read and the network does, ARMED_VALVES is never requested without the key. */
  lemma {:induction false} KeyGuard(sw: seq<bool>, n: nat, input: nat -> Reading, net: nat -> Response)
    requires |sw| == N_SWITCHES
    ensures forall e | e in After(sw, n, input, net).sent :: e.req == Arm(ARMED_VALVES) ==> e.keyOn
  {
    if n > 0 {
      KeyGuard(sw, n - 1, input, net);
    }
  }

  /** With stable pins, a switch agrees with its pin, or is the ignition switch left on for want of the key. */
  predicate Settled(sw: seq<bool>, i: Index, pins: Index -> bool)
    requires |sw| == N_SWITCHES
  {
    HasInput(i) ==>
      || sw[i] == !pins(i)
      || (i == IGNITION_SWITCH_IDX && sw[i] && pins(i) && !sw[VALVE_ARMING_SWITCH_IDX])
  }

  /** Inputs that do not change during the scan, over a connection that stays up. */
  ghost predicate Stable(input: nat -> Reading, net: nat -> Response, pins: Index -> bool) {
    && (forall n: nat :: input(n) == Pin(pins(IndexOf(n))))
    && (forall n: nat, k: Kind :: !ConnectionLost(ReturnCode(k, net(n))))
  }

  /** `s` is the scan of `sw` after its first `n` visits: settled below `n`, untouched from
      `n` on, and exactly one request, with the new state, for each switch that changed. */
  ghost predicate PassSoFar(sw: seq<bool>, s: ScanState, n: nat, pins: Index -> bool)
    requires |sw| == |s.sw| == N_SWITCHES
  {
    && !s.lost
    && (forall i: Index :: i < n ==> Settled(s.sw, i, pins))
    && (forall i: Index :: i >= n ==> s.sw[i] == sw[i])
    && (forall i: Index :: s.sw[i] != sw[i] ==> exists p :: 0 <= p < |s.sent| && s.sent[p].index == i)
    && (forall p | 0 <= p < |s.sent| ::
          var e := s.sent[p]; e.index < n && s.sw[e.index] != sw[e.index] && e.req == RequestOf(e.index, s.sw[e.index]))
    && (forall p, q | 0 <= p < q < |s.sent| :: s.sent[p].index < s.sent[q].index)
  }

  lemma VisitSettles(sw: seq<bool>, s: ScanState, i: Index, pins: Index -> bool, net: Response)
    requires |sw| == |s.sw| == N_SWITCHES && PassSoFar(sw, s, i, pins)
    requires !ConnectionLost(ReturnCode(TableKind(i), net))
    ensures PassSoFar(sw, Slot(s, i, Pin(pins(i)), net), i + 1, pins)
  {
    hide PassSoFar, Slot, ReturnCode, TableKind, HasInput;
    VisitDecides(s, i, pins, net);
    var t := Slot(s, i, Pin(pins(i)), net);
    if t == s {
      VisitPasses(sw, s, i, pins);
    } else {
      VisitChanges(sw, s, i, pins, t);
    }
  }

  /** A visit leaves a settled switch alone and puts any other in the state of its pin. */
  lemma VisitDecides(s: ScanState, i: Index, pins: Index -> bool, net: Response)
    requires |s.sw| == N_SWITCHES && !ConnectionLost(ReturnCode(TableKind(i), net))
    ensures var t := Slot(s, i, Pin(pins(i)), net);
            if Settled(s.sw, i, pins) then t == s else Changes(s, i, !pins(i), t) && i <= IGNITION_SWITCH_IDX
  {
  }

  /** Switch `i` is turned `on`, with its request sent, and the connection stays up. */
  predicate Changes(s: ScanState, i: Index, on: bool, t: ScanState)
    requires |s.sw| == N_SWITCHES
  {
    && s.sw[i] != on && t.sw == s.sw[i := on] && !t.lost
    && t.sent == s.sent + [Sent(i, RequestOf(i, on), t.sw[VALVE_ARMING_SWITCH_IDX])]
  }

  lemma ChangeSettles(s: ScanState, i: Index, pins: Index -> bool, t: ScanState)
    requires |s.sw| == N_SWITCHES && Changes(s, i, !pins(i), t) && i <= IGNITION_SWITCH_IDX
    requires forall j: Index :: j < i ==> Settled(s.sw, j, pins)
    ensures forall j: Index :: j <= i ==> Settled(t.sw, j, pins)
  {
    forall j: Index | j <= i ensures Settled(t.sw, j, pins) {
      assert j < i ==> Settled(s.sw, j, pins);
    }
  }

  lemma VisitPasses(sw: seq<bool>, s: ScanState, i: Index, pins: Index -> bool)
    requires |sw| == |s.sw| == N_SWITCHES && PassSoFar(sw, s, i, pins) && Settled(s.sw, i, pins)
    ensures PassSoFar(sw, s, i + 1, pins)
  {
  }

  lemma VisitChanges(sw: seq<bool>, s: ScanState, i: Index, pins: Index -> bool, t: ScanState)
    requires |sw| == |s.sw| == N_SWITCHES && PassSoFar(sw, s, i, pins)
    requires Changes(s, i, !pins(i), t) && i <= IGNITION_SWITCH_IDX
    ensures PassSoFar(sw, t, i + 1, pins)
  {
    hide HasInput, RequestOf, Settled;
    assert t.sent[|s.sent|].index == i;
    ChangeSettles(s, i, pins, t);
    ChangeIsSent(sw, s, i, !pins(i), t);
  }

  lemma ChangeIsSent(sw: seq<bool>, s: ScanState, i: Index, on: bool, t: ScanState)
    requires |sw| == |s.sw| == N_SWITCHES && Changes(s, i, on, t)
    requires forall j: Index :: s.sw[j] != sw[j] ==> exists p :: 0 <= p < |s.sent| && s.sent[p].index == j
    ensures forall j: Index :: t.sw[j] != sw[j] ==> exists p :: 0 <= p < |t.sent| && t.sent[p].index == j
  {
    assert t.sent[|s.sent|].index == i;
    forall j: Index | t.sw[j] != sw[j] ensures exists p :: 0 <= p < |t.sent| && t.sent[p].index == j {
      if j != i {
        var p :| 0 <= p < |s.sent| && s.sent[p].index == j;
        assert t.sent[p].index == j;
      }
    }
  }

  /** Over a stable scan, one visit is one visit with the switch's own pin. */
  lemma StableStep(sw: seq<bool>, n: nat, input: nat -> Reading, net: nat -> Response, pins: Index -> bool)
    requires |sw| == N_SWITCHES && Stable(input, net, pins)
    ensures var s := After(sw, n, input, net);
            After(sw, n + 1, input, net) == if s.lost then s else Slot(s, IndexOf(n), Pin(pins(IndexOf(n))), net(n))
    ensures !ConnectionLost(ReturnCode(TableKind(IndexOf(n)), net(n)))
  {
    hide Slot, After;
    AfterStep(sw, n, input, net);
  }

  lemma NothingVisited(sw: seq<bool>, input: nat -> Reading, net: nat -> Response, pins: Index -> bool)
    requires |sw| == N_SWITCHES
    ensures PassSoFar(sw, After(sw, 0, input, net), 0, pins)
  {
  }

  /** The first pass settles the table from the bottom up, one request per switch that changes. */
  lemma {:induction false} FirstPass(sw: seq<bool>, n: nat, input: nat -> Reading, net: nat -> Response, pins: Index -> bool)
    requires |sw| == N_SWITCHES && n <= N_SWITCHES && Stable(input, net, pins)
    ensures PassSoFar(sw, After(sw, n, input, net), n, pins)
  {
    hide After, Slot, PassSoFar, Stable, ReturnCode;
    if n == 0 {
      NothingVisited(sw, input, net, pins);
    } else {
      FirstPass(sw, n - 1, input, net, pins);
      StableStep(sw, n - 1, input, net, pins);
      var s := After(sw, n - 1, input, net);
      assert !s.lost by { PassIsUp(sw, s, n - 1, pins); }
      VisitSettles(sw, s, n - 1, pins, net(n - 1));
    }
  }

  lemma PassIsUp(sw: seq<bool>, s: ScanState, n: nat, pins: Index -> bool)
    requires |sw| == |s.sw| == N_SWITCHES && PassSoFar(sw, s, n, pins)
    ensures !s.lost && forall i: Index :: i < n ==> Settled(s.sw, i, pins)
  {
  }

  /** A settled table sends nothing more. */
  lemma {:induction false} ScanQuiesces(sw: seq<bool>, n: nat, input: nat -> Reading, net: nat -> Response, pins: Index -> bool)
    requires |sw| == N_SWITCHES && n >= N_SWITCHES && Stable(input, net, pins)
    ensures After(sw, n, input, net) == After(sw, N_SWITCHES, input, net)
    ensures forall i: Index :: Settled(After(sw, n, input, net).sw, i, pins)
  {
    hide After, Slot, PassSoFar, Settled, Stable, ReturnCode;
    FirstPass(sw, N_SWITCHES, input, net, pins);
    PassIsUp(sw, After(sw, N_SWITCHES, input, net), N_SWITCHES, pins);
    if n > N_SWITCHES {
      ScanQuiesces(sw, n - 1, input, net, pins);
      StableStep(sw, n - 1, input, net, pins);
      VisitDecides(After(sw, n - 1, input, net), IndexOf(n - 1), pins, net(n - 1));
    }
  }
}
