/** The hardware control client and the pad server joined by a lossless connection, both
    fresh: requests and acknowledgements in flight, drivers that may fail. */
module Launch {
  import opened Protocol
  import opened PadModel
  import opened Interlock
  import opened ControlBox

  /** The client is between callbacks, or inside one waiting for its acknowledgement. */
  datatype Phase = Scanning | Awaiting(index: Index, on: bool)

  /** A finished callback: which switch, what it was set to, what the callback returned. */
  datatype Exchange = Exchange(index: Index, on: bool, ret: int)

  /** The client's arming switches when the server handled a request. */
  datatype Keys = Keys(valve: bool, ignition: bool)

  /** `hist`, `keys` and `done` record what the server handled, under which switches,
      and what the client was told. */
  datatype World = World(
    sw: seq<bool>, phase: Phase, toPad: seq<Request>, toBox: seq<Reply>, pad: Pad,
    hist: seq<Event>, keys: seq<Keys>, done: seq<Exchange>)

  function InitWorld(): World {
    World(seq(N_SWITCHES, _ => false), Scanning, [], [], InitPad(), [], [], [])
  }

  datatype Move = Visit(index: Index, reading: Reading) | Serve(drives: bool) | Deliver | GiveUp

  /** The client gives up only on an acknowledgement that will never come; one that comes is
      read whole. */
  predicate Enabled(w: World, m: Move) {
    match m
    case Visit(_, _) => w.phase.Scanning? && |w.sw| == N_SWITCHES
    case Serve(_) => w.toPad != [] && |w.sw| == N_SWITCHES
    case Deliver => w.phase.Awaiting? && w.toBox != []
    case GiveUp => w.phase.Awaiting? && w.toPad == [] && w.toBox == []
  }

  function StatusByte(r: Reply): byte {
    match r
    case ArmAck(s) => (match s case ArmOk => 0 case ArmDenied => 1 case ArmInv => 2)
    case ActAck(_, s) => (match s case ActOk => 0 case ActDenied => 1 case ActDne => 2 case ActInv => 3)
    case NoAck => 0
  }

  function VisitStep(w: World, i: Index, r: Reading): World
    requires |w.sw| == N_SWITCHES
  {
    match Decide(w.sw, i, r)
    case None => w
    case Some(on) => w.(sw := w.sw[i := on], toPad := w.toPad + [RequestOf(i, on)], phase := Awaiting(i, on))
  }

  function ServeStep(w: World, drives: bool): World
    requires w.toPad != [] && |w.sw| == N_SWITCHES
  {
    var c := ToCommand(w.toPad[0], drives);
    var (p, r) := Handle(w.pad, c);
    w.(toPad := w.toPad[1..], pad := p, toBox := if r == NoAck then w.toBox else w.toBox + [r],
       hist := w.hist + [Event(c, w.pad, p, r)],
       keys := w.keys + [Keys(w.sw[VALVE_ARMING_SWITCH_IDX], w.sw[IGNITION_SWITCH_IDX])])
  }

  function Finish(w: World, r: Response): World
    requires w.phase.Awaiting?
  {
    var i := w.phase.index;
    w.(phase := Scanning, done := w.done + [Exchange(i, w.phase.on, ReturnCode(TableKind(i), r))])
  }

  function Step(w: World, m: Move): World
    requires Enabled(w, m)
  {
    match m
    case Visit(i, r) => VisitStep(w, i, r)
    case Serve(d) => ServeStep(w, d)
    case Deliver => Finish(w, Received(StatusByte(w.toBox[0]))).(toBox := w.toBox[1..])
    case GiveUp => Finish(w, RecvFailed(EAGAIN))
  }

  ghost predicate Next(w: World, w': World) {
    exists m :: Enabled(w, m) && w' == Step(w, m)
  }

  ghost predicate IsRun(b: seq<World>) {
    && |b| > 0
    && b[0] == InitWorld()
    && forall i | 0 <= i < |b| - 1 :: NextAt(b, i)
  }

  ghost predicate NextAt(b: seq<World>, i: nat)
    requires i + 1 < |b|
  {
    Next(b[i], b[i + 1])
  }

  /** A visit here is a visit of the scan loop, whatever the network then does with its request. */
  lemma VisitMatchesScan(w: World, i: Index, r: Reading, net: Response)
    requires |w.sw| == N_SWITCHES
    ensures var s := Slot(ScanState(w.sw, [], false), i, r, net);
            var t := VisitStep(w, i, r);
            && t.sw == s.sw && |t.toPad| == |w.toPad| + |s.sent|
            && (s.sent != [] ==> t.toPad == w.toPad + [s.sent[0].req])
            && (s.sent != [] ==> Finish(t, net).done == w.done + [Exchange(i, s.sw[i], ReturnCode(TableKind(i), net))])
  {
  }

  // ---- The cross-process invariant ----

  /** Server level against client switches. */
  predicate KeysAgree(sw: seq<bool>, level: Level)
    requires |sw| == N_SWITCHES
  {
    && (level >= ARMED_VALVES <==> sw[VALVE_ARMING_SWITCH_IDX])
    && (level >= ARMED_IGNITION ==> sw[IGNITION_SWITCH_IDX])
  }

  /** The awaited request is still on its way to the pad. */
  predicate Pending(w: World) {
    w.phase.Awaiting? && w.toPad != []
  }

  /** At most one message is in flight, and it belongs to the callback in progress. */
  predicate LinkInv(w: World) {
    && |w.sw| == N_SWITCHES
    && (w.phase.Scanning? ==> w.toPad == [] && w.toBox == [])
    && (w.phase.Awaiting? ==> w.sw[w.phase.index] == w.phase.on && HasInput(w.phase.index))
    && (Pending(w) ==> w.toPad == [RequestOf(w.phase.index, w.phase.on)] && w.toBox == [])
    && (w.phase.Awaiting? && !Pending(w) ==>
          && w.hist != []
          && AsksFor(w.hist[|w.hist| - 1], RequestOf(w.phase.index, w.phase.on))
          && w.toBox == if w.hist[|w.hist| - 1].reply == NoAck then [] else [w.hist[|w.hist| - 1].reply])
  }

  /** The operation handled is the one the client asked for. */
  predicate AsksFor(e: Event, r: Request) {
    e.cmd == ToCommand(r, true) || e.cmd == ToCommand(r, false)
  }

  /** The pad agrees with the switches as they were before a request still on its way. */
  predicate KeyInv(w: World)
    requires |w.sw| == N_SWITCHES
  {
    if Pending(w) then
      && KeysAgree(w.sw[w.phase.index := !w.phase.on], w.pad.level)
      && (w.phase.index == IGNITION_SWITCH_IDX && !w.phase.on ==> w.sw[VALVE_ARMING_SWITCH_IDX])
    else KeysAgree(w.sw, w.pad.level)
  }

  /** The hardware box cannot ask for the two highest levels, nor for anything but on and off. */
  predicate FromBox(c: Command) {
    (c.ArmCmd? && c.level <= ARMED_IGNITION) || (c.ActCmd? && c.id < NUM_ACTUATORS && c.state <= 1)
  }

  /** Everything handled so far came from the box, and fire commands only under both keys. */
  ghost predicate HistInv(w: World) {
    && IsHistory(InitPad(), w.hist) && w.pad == At(InitPad(), w.hist, |w.hist|)
    && |w.keys| == |w.hist|
    && forall n | 0 <= n < |w.hist| :: KeyedEvent(w.hist[n], w.keys[n])
  }

  /** Any actuation but the dump valve's is accepted only with the key on; the quick
      disconnect's, the igniter's and the fire valve's only with the ignition switch on too. */
  predicate KeyedEvent(e: Event, keys: Keys) {
    && FromBox(e.cmd)
    && (e.cmd.ActCmd? && e.reply == ActAck(e.cmd.id, ActOk) && e.cmd.id != ID_DUMP ==> keys.valve)
    && (e.cmd.ActCmd? && e.reply == ActAck(e.cmd.id, ActOk) && e.cmd.id in {ID_QUICK_DISCONNECT, ID_IGNITER, ID_FIRE_VALVE} ==>
          keys.ignition)
  }

  /** The client was told of an operation what the server answered: nothing went wrong, it was
      refused, or no answer came. */
  predicate Reported(e: Event, x: Exchange) {
    && HasInput(x.index) && AsksFor(e, RequestOf(x.index, x.on))
    && (x.ret == 0 <==> Granted(e.reply))
    && (x.ret == EPERM <==> Refused(e.reply))
    && (x.ret == EAGAIN <==> e.reply == NoAck)
    && (x.ret == 0 || x.ret == EPERM || x.ret == EAGAIN)
  }

  predicate Granted(r: Reply) {
    (r.ArmAck? && r.arm == ArmOk) || (r.ActAck? && r.act == ActOk)
  }

  predicate Refused(r: Reply) {
    (r.ArmAck? && r.arm == ArmDenied) || (r.ActAck? && r.act == ActDenied)
  }

  /** The server has handled the awaited request. */
  predicate Handled(w: World) {
    w.phase.Awaiting? && !Pending(w)
  }

  /** Exchange by exchange, what the client was told is what the server answered. */
  ghost predicate DoneInv(w: World) {
    && |w.hist| == |w.done| + (if Handled(w) then 1 else 0)
    && forall k | 0 <= k < |w.done| :: Reported(w.hist[k], w.done[k])
  }

  /** What the client was last told it achieved for an actuator. */
  function LastGranted(done: seq<Exchange>, id: byte): bool
    requires id < NUM_ACTUATORS
  {
    if done == [] then false
    else
      var x := done[|done| - 1];
      if x.index == SwitchOf(id) && x.ret == 0 then x.on else LastGranted(done[..|done| - 1], id)
  }

  /** The server has granted the awaited request for `id`, and the client is yet to hear of it. */
  predicate GrantInFlight(w: World, id: byte)
    requires id < NUM_ACTUATORS
  {
    w.phase.Awaiting? && w.toBox != [] && w.phase.index == SwitchOf(id) && StatusByte(w.toBox[0]) == 0
  }

  predicate StateInv(w: World) {
    forall id: byte | id < NUM_ACTUATORS ::
      w.pad.acts[id] == if GrantInFlight(w, id) then w.phase.on else LastGranted(w.done, id)
  }

  ghost predicate Inv(w: World) {
    LinkInv(w) && KeyInv(w) && HistInv(w) && StateInv(w) && DoneInv(w)
  }

  lemma VisitKeepsInv(w: World, i: Index, r: Reading)
    requires Inv(w) && w.phase.Scanning?
    ensures Inv(VisitStep(w, i, r))
  {
    var t := VisitStep(w, i, r);
    if t != w {
      assert t.sw[i := !t.sw[i]] == w.sw;
    }
  }

  /** Handling the awaited request brings the level back in step with the switches. */
  lemma ServeKeepsKeys(w: World, drives: bool)
    requires LinkInv(w) && KeyInv(w) && Pending(w)
    ensures KeyInv(ServeStep(w, drives))
  {
  }

  /** A fire command is accepted only at ARMED_LAUNCH, where both switches are on. */
  lemma ServedEventIsKeyed(w: World, drives: bool)
    requires LinkInv(w) && KeyInv(w) && Pending(w)
    ensures var t := ServeStep(w, drives);
            IsEvent(t.hist[|w.hist|]) && KeyedEvent(t.hist[|w.hist|], t.keys[|w.keys|])
  {
    var c := ToCommand(w.toPad[0], drives);
    if c.ActCmd? { ActReplies(w.pad, c.id, c.state, drives); }
  }

  lemma ServeKeepsHist(w: World, drives: bool)
    requires |w.sw| == N_SWITCHES && HistInv(w) && w.toPad != []
    requires var t := ServeStep(w, drives);
             IsEvent(t.hist[|w.hist|]) && KeyedEvent(t.hist[|w.hist|], t.keys[|w.keys|])
    ensures HistInv(ServeStep(w, drives))
  {
    var t := ServeStep(w, drives);
    var e := t.hist[|w.hist|];
    assert t.hist == w.hist + [e];
    HistoryExtends(InitPad(), w.hist, e);
    forall n | 0 <= n < |t.hist| ensures KeyedEvent(t.hist[n], t.keys[n]) {
      if n < |w.hist| { assert KeyedEvent(w.hist[n], w.keys[n]); }
    }
  }

  lemma ServeKeepsState(w: World, drives: bool)
    requires LinkInv(w) && StateInv(w) && Pending(w)
    ensures StateInv(ServeStep(w, drives))
  {
    var t := ServeStep(w, drives);
    var e := t.hist[|w.hist|];
    forall id: byte | id < NUM_ACTUATORS
      ensures t.pad.acts[id] == if GrantInFlight(t, id) then t.phase.on else LastGranted(t.done, id)
    {
      StoredState(e, id);
    }
  }

  lemma FinishKeepsState(w: World, r: Response, t: World)
    requires LinkInv(w) && StateInv(w) && w.phase.Awaiting? && w.toPad == []
    requires if w.toBox != [] then r == Received(StatusByte(w.toBox[0])) else r == RecvFailed(EAGAIN)
    requires t.pad == w.pad && t.phase.Scanning? && t.done == Finish(w, r).done
    ensures StateInv(t)
  {
    assert t.done[..|w.done|] == w.done;
  }

  lemma ServeKeepsDone(w: World, drives: bool)
    requires LinkInv(w) && DoneInv(w) && Pending(w)
    ensures DoneInv(ServeStep(w, drives))
  {
  }

  /** A request from the box is never called invalid or unknown. */
  lemma BoxIsUnderstood(e: Event, i: Index, on: bool)
    requires IsEvent(e) && HasInput(i) && AsksFor(e, RequestOf(i, on))
    ensures Granted(e.reply) || Refused(e.reply) || e.reply == NoAck
    ensures e.reply.ArmAck? ==> TableKind(i) == ArmSwitch
    ensures e.reply.ActAck? ==> TableKind(i) == ActSwitch
  {
    match e.cmd
    case ArmCmd(l) => ArmReplies(e.before, l);
    case ActCmd(id, st, drives) => ActReplies(e.before, id, st, drives);
  }

  lemma FinishReports(w: World, r: Response)
    requires LinkInv(w) && HistInv(w) && Handled(w)
    requires if w.toBox != [] then r == Received(StatusByte(w.toBox[0])) else r == RecvFailed(EAGAIN)
    ensures Reported(w.hist[|w.hist| - 1], Exchange(w.phase.index, w.phase.on, ReturnCode(TableKind(w.phase.index), r)))
  {
    var e := w.hist[|w.hist| - 1];
    assert IsEvent(e);
    BoxIsUnderstood(e, w.phase.index, w.phase.on);
  }

  lemma FinishKeepsDone(w: World, r: Response, t: World)
    requires LinkInv(w) && HistInv(w) && DoneInv(w) && Handled(w)
    requires if w.toBox != [] then r == Received(StatusByte(w.toBox[0])) else r == RecvFailed(EAGAIN)
    requires t.hist == w.hist && t.phase.Scanning? && t.done == Finish(w, r).done
    ensures DoneInv(t)
  {
    hide Reported, ReturnCode, StatusByte, IsHistory;
    FinishReports(w, r);
    forall k | 0 <= k < |t.done| ensures Reported(t.hist[k], t.done[k]) {
      if k < |w.done| { assert Reported(w.hist[k], w.done[k]); }
    }
  }

  lemma StepKeepsInv(w: World, m: Move)
    requires Enabled(w, m) && Inv(w)
    ensures Inv(Step(w, m))
  {
    match m
    case Visit(i, r) => VisitKeepsInv(w, i, r);
    case Serve(d) =>
      ServeKeepsKeys(w, d);
      ServedEventIsKeyed(w, d);
      ServeKeepsHist(w, d);
      ServeKeepsState(w, d);
      ServeKeepsDone(w, d);
    case Deliver =>
      FinishKeepsState(w, Received(StatusByte(w.toBox[0])), Step(w, m));
      FinishKeepsDone(w, Received(StatusByte(w.toBox[0])), Step(w, m));
    case GiveUp =>
      FinishKeepsState(w, RecvFailed(EAGAIN), Step(w, m));
      FinishKeepsDone(w, RecvFailed(EAGAIN), Step(w, m));
  }

  lemma InitInv()
    ensures Inv(InitWorld())
  {
  }

  lemma {:induction false} RunInv(b: seq<World>, i: nat)
    requires IsRun(b) && i < |b|
    ensures Inv(b[i])
    decreases i
  {
    if i == 0 {
      InitInv();
    } else {
      RunInv(b, i - 1);
      assert NextAt(b, i - 1);
      var m :| Enabled(b[i - 1], m) && b[i] == Step(b[i - 1], m);
      StepKeepsInv(b[i - 1], m);
    }
  }

  // ---- Theorems over every run ----

  /** Between exchanges the level is above ARMED_PAD exactly when the key is in, and in the
      firing sequence only with the ignition switch on. */
  lemma CrossProcessInvariant(b: seq<World>, i: nat)
    requires IsRun(b) && i < |b| && b[i].phase.Scanning?
    ensures |b[i].sw| == N_SWITCHES
    ensures b[i].pad.level >= ARMED_VALVES <==> b[i].sw[VALVE_ARMING_SWITCH_IDX]
    ensures b[i].pad.level >= ARMED_IGNITION ==> b[i].sw[IGNITION_SWITCH_IDX]
  {
    RunInv(b, i);
  }

  /** An acknowledgement the client is about to read answers the request it is waiting on. */
  lemma AckAnswersRequest(b: seq<World>, i: nat)
    requires IsRun(b) && i < |b| && Enabled(b[i], Deliver)
    ensures var w := b[i];
            var r := RequestOf(w.phase.index, w.phase.on);
            && w.hist != [] && w.toBox == [w.hist[|w.hist| - 1].reply]
            && AsksFor(w.hist[|w.hist| - 1], r)
            && (r.Act? ==> w.toBox[0].ActAck? && w.toBox[0].id == r.id)
            && (r.Arm? ==> w.toBox[0].ArmAck?)
  {
    RunInv(b, i);
    var e := b[i].hist[|b[i].hist| - 1];
    assert IsEvent(e);
  }

  /** Between exchanges every actuator is in the state of the last exchange that returned 0
      for it, whatever was denied or failed in between. */
  lemma AcknowledgedStateAgreement(b: seq<World>, i: nat, id: byte)
    requires IsRun(b) && i < |b| && b[i].phase.Scanning? && id < NUM_ACTUATORS
    ensures b[i].pad.acts[id] == LastGranted(b[i].done, id)
  {
    RunInv(b, i);
  }

  /** Operation `e` is handled at state `j`, as the `n`th. */
  ghost predicate ServedAt(b: seq<World>, j: nat, n: nat, e: Event) {
    && j + 1 < |b| && |b[j].hist| == n && b[j + 1].hist == b[j].hist + [e]
    && |b[j].sw| == N_SWITCHES
  }

  lemma StepServes(w: World, m: Move)
    requires Enabled(w, m) && |w.keys| == |w.hist| && |w.sw| == N_SWITCHES
    ensures var t := Step(w, m);
            || (t.hist == w.hist && t.keys == w.keys)
            || (|t.hist| == |w.hist| + 1 && t.hist == w.hist + [t.hist[|w.hist|]]
                && t.keys == w.keys + [Keys(w.sw[VALVE_ARMING_SWITCH_IDX], w.sw[IGNITION_SWITCH_IDX])])
  {
  }

  /** Every operation on record was handled at some state of the run. */
  lemma {:induction false} WhenServed(b: seq<World>, i: nat, n: nat) returns (j: nat)
    requires IsRun(b) && i < |b| && n < |b[i].hist|
    ensures j < i && ServedAt(b, j, n, b[i].hist[n])
    ensures n < |b[i].keys| && b[i].keys[n] == Keys(b[j].sw[VALVE_ARMING_SWITCH_IDX], b[j].sw[IGNITION_SWITCH_IDX])
    decreases i
  {
    RunInv(b, i);
    j := i - 1;
    RunInv(b, j);
    assert NextAt(b, j);
    var m :| Enabled(b[j], m) && b[i] == Step(b[j], m);
    hide Inv, IsRun, Step, Enabled;
    StepServes(b[j], m);
    if n < |b[j].hist| {
      j := WhenServed(b, j, n);
    }
  }

  /** No actuation but the dump valve's is accepted while the key is off, nor any of the firing
      sequence's while the ignition switch is off. */
  lemma ActuationInterlock(b: seq<World>, i: nat, n: nat) returns (j: nat)
    requires IsRun(b) && i < |b| && n < |b[i].hist|
    requires var e := b[i].hist[n]; e.cmd.ActCmd? && e.reply == ActAck(e.cmd.id, ActOk) && e.cmd.id != ID_DUMP
    ensures j < i && ServedAt(b, j, n, b[i].hist[n])
    ensures b[j].sw[VALVE_ARMING_SWITCH_IDX]
    ensures b[i].hist[n].cmd.id in {ID_QUICK_DISCONNECT, ID_IGNITER, ID_FIRE_VALVE} ==> b[j].sw[IGNITION_SWITCH_IDX]
  {
    RunInv(b, i);
    j := WhenServed(b, i, n);
    assert KeyedEvent(b[i].hist[n], b[i].keys[n]);
  }

  /** The `k`th finished callback returned 0 if and only if the server granted its request,
      EPERM if and only if the server refused it, and EAGAIN if and only if there was no answer;
      nothing the hardware box asks for is called invalid or unknown. */
  lemma ExchangeReportsReply(b: seq<World>, i: nat, k: nat)
    requires IsRun(b) && i < |b| && k < |b[i].done|
    ensures k < |b[i].hist|
    ensures var e, x := b[i].hist[k], b[i].done[k];
            && (e.cmd == ToCommand(RequestOf(x.index, x.on), true) || e.cmd == ToCommand(RequestOf(x.index, x.on), false))
            && (x.ret == 0 <==> e.reply == ArmAck(ArmOk) || (e.cmd.ActCmd? && e.reply == ActAck(e.cmd.id, ActOk)))
            && (x.ret == EPERM <==> e.reply == ArmAck(ArmDenied) || (e.cmd.ActCmd? && e.reply == ActAck(e.cmd.id, ActDenied)))
            && (x.ret == EAGAIN <==> e.reply == NoAck)
            && x.ret != EINVAL && x.ret != ENODEV
  {
    RunInv(b, i);
    assert Reported(b[i].hist[k], b[i].done[k]);
    assert IsEvent(b[i].hist[k]);
    RepliesOwnId(b[i].hist[k]);
  }

  lemma RepliesOwnId(e: Event)
    requires IsEvent(e)
    ensures e.reply.ActAck? ==> e.cmd.ActCmd? && e.reply.id == e.cmd.id
  {
  }

  /** An arming switch's callback returned 0 if and only if its level was one step up, or
      ARMED_PAD, or ARMED_VALVES from the firing sequence, and otherwise EPERM. */
  lemma ArmingReports(b: seq<World>, i: nat, k: nat)
    requires IsRun(b) && i < |b| && k < |b[i].done| && TableKind(b[i].done[k].index) == ArmSwitch
    ensures k < |b[i].hist| && b[i].hist[k].cmd.ArmCmd?
    ensures var now, l := b[i].hist[k].before.level, b[i].hist[k].cmd.level;
            b[i].done[k].ret == if l == now + 1 || l == ARMED_PAD || (l == ARMED_VALVES && now >= ARMED_IGNITION) then 0 else EPERM
  {
    RunInv(b, i);
    var e := b[i].hist[k];
    assert Reported(e, b[i].done[k]);
    assert IsEvent(e);
    ArmReplies(e.before, e.cmd.level);
  }

  /** Every accepted fire-valve command was handled, at state `j`, with the key and the ignition
      switch on, after an accepted quick-disconnect-on and then an accepted igniter-on, with no
      fall of the level since it last rose to ARMED_IGNITION. */
  lemma LaunchInterlock(b: seq<World>, i: nat, n: nat) returns (c: Climb, j: nat)
    requires IsRun(b) && i < |b|
    requires n < |b[i].hist| && Accepted(b[i].hist[n], ID_FIRE_VALVE)
    ensures j < i && ServedAt(b, j, n, b[i].hist[n])
    ensures b[j].sw[VALVE_ARMING_SWITCH_IDX] && b[j].sw[IGNITION_SWITCH_IDX]
    ensures IsClimb(b[i].hist, c, n)
    ensures AcceptedOn(b[i].hist[c.toDisconnected], ID_QUICK_DISCONNECT)
    ensures AcceptedOn(b[i].hist[c.toLaunch], ID_IGNITER)
  {
    RunInv(b, i);
    c := ClimbHistory(InitPad(), b[i].hist, n);
    j := ActuationInterlock(b, i, n);
    var w := b[i];
    assert KeyedEvent(w.hist[c.toDisconnected], w.keys[c.toDisconnected]) && KeyedEvent(w.hist[c.toLaunch], w.keys[c.toLaunch]);
  }
}
