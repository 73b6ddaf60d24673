/** The controller thread and the pad-state telemetry thread over one `padstate_t`, one
    lock operation or shared access at a time (pad_server/src/state.c,
    pad_server/src/telemetry.c). */
module Threads {
  import opened Protocol
  import opened PadModel

  datatype Owner = Free | Ctl | Tel

  /** `rw_lock`: the controller may hold it to write; either thread may hold it to read. */
  datatype RwLock = RwLock(writer: bool, ctlReads: bool, telReads: bool)

  /** Where `padstate_signal_update` returns to. `ActDone(true)` still has to announce a
      stored actuator; after `ActDone(false)` the level change already announced it. */
  datatype After = ArmDone | ConnDone | LevelDone | ActDone(unannounced: bool)

  /** The controller thread's program counter, with its live locals. */
  datatype CtlPc =
    | Idle
    | CheckLock | CheckRead | CheckUnlock(seen: Level) | Permit(seen: Level)
    | Drive
    | RecheckLock | RecheckRead | RecheckUnlock(seen: Level) | Recheck(seen: Level)
    | LevelLock(next: Level, inner: bool) | LevelTest(next: Level, inner: bool)
    | LevelWrite(next: Level, inner: bool) | LevelUnlock(inner: bool, moved: bool)
    | ConnLock | ConnWrite | ConnUnlock
    | SignalLock(after: After) | SignalSet(after: After) | SignalWake(after: After) | SignalUnlock(after: After)
    | Answer(reply: Reply)

  /** The telemetry thread's program counter. */
  datatype TelPc =
    | Begin | MutexLock | WaitTest(timedOut: bool) | Waiting | Woken(timedOut: bool)
    | TakeLevelLock | TakeLevel | DropLevelLock
    | TakeConnLock | TakeConn | DropConnLock
    | TakeAct | Publish | Clear | MutexUnlock

  /** `snap` is the packet under construction, `last` the packet most recently handed to
      `sendmsg`; `start` and `log` record where the current command began and what
      the finished ones did, `signals` how often `update_cond` was signalled. */
  datatype Sys = Sys(
    pad: Pad, recorded: bool, mut: Owner, rw: RwLock,
    cpc: CtlPc, cmd: Command,
    tpc: TelPc, snap: PadFields, last: Option<PadFields>,
    start: Pad, log: seq<Event>, signals: nat)

  function InitSys(): Sys {
    Sys(InitPad(), false, Free, RwLock(false, false, false), Idle, ConnCmd(Reconnecting), Begin, EmptySnap(), None, InitPad(), [], 0)
  }

  function EmptySnap(): PadFields {
    PadFields(ARMED_PAD, Reconnecting, [])
  }

  // ---- The controller thread ----

  predicate CtlEnabled(s: Sys) {
    match s.cpc
    case CheckLock | RecheckLock => !s.rw.writer
    case LevelLock(_, _) => NoLockHolder(s.rw)
    case ConnLock => NoLockHolder(s.rw)
    case SignalLock(_) => s.mut == Free
    case _ => true
  }

  predicate NoLockHolder(rw: RwLock) {
    !rw.writer && !rw.ctlReads && !rw.telReads
  }

  /** The checks `padstate_change_level` and `pad_actuate` make before touching any lock. */
  function EntryPoint(c: Command): CtlPc {
    match c
    case ArmCmd(l) => if l > ARMED_LAUNCH then Answer(ArmAck(ArmInv)) else LevelLock(l, false)
    case ActCmd(id, st, _) =>
      if id >= NUM_ACTUATORS then Answer(ActAck(id, ActDne))
      else if id == ID_DUMP then Drive
      else if st != 0 && st != 1 then Answer(ActAck(id, ActInv))
      else CheckLock
    case ConnCmd(_) => ConnLock
  }

  /** The level a special actuator leads to when switched on. */
  function Target(id: byte): Level {
    if id == ID_QUICK_DISCONNECT then ARMED_DISCONNECTED else ARMED_LAUNCH
  }

  /** After the store: on asks for the next level unless already there, off asks for the one below. */
  function AfterDrive(id: byte, st: byte): CtlPc {
    if id == ID_QUICK_DISCONNECT || id == ID_IGNITER then
      if st != 0 then RecheckLock else LevelLock(Target(id) - 1, true)
    else SignalLock(ActDone(true))
  }

  function AfterSignal(a: After, c: Command): CtlPc {
    match a
    case ArmDone => Answer(ArmAck(ArmOk))
    case ConnDone => Answer(NoAck)
    case LevelDone => SignalLock(ActDone(false))
    case ActDone(_) => if c.ActCmd? then Answer(ActAck(c.id, ActOk)) else Answer(NoAck)
  }

  /** One controller step; `c` is the next command, used only between commands. */
  function CtlStep(s: Sys, c: Command): Sys
    requires CtlEnabled(s)
    requires CtlTyped(s.cpc, s.cmd)
  {
    match s.cpc
    case Idle => s.(cmd := c, cpc := EntryPoint(c), start := s.pad)
    case CheckLock => s.(rw := s.rw.(ctlReads := true), cpc := CheckRead)
    case CheckRead => s.(cpc := CheckUnlock(s.pad.level))
    case CheckUnlock(l) => s.(rw := s.rw.(ctlReads := false), cpc := Permit(l))
    case Permit(l) => s.(cpc := if SwitchPermits(l, s.cmd.id) then Drive else Answer(ActAck(s.cmd.id, ActDenied)))
    case Drive =>
      if !s.cmd.drives then s.(cpc := Answer(NoAck))
      else s.(pad := Store(s.pad, s.cmd.id, s.cmd.state), cpc := AfterDrive(s.cmd.id, s.cmd.state))
    case RecheckLock => s.(rw := s.rw.(ctlReads := true), cpc := RecheckRead)
    case RecheckRead => s.(cpc := RecheckUnlock(s.pad.level))
    case RecheckUnlock(l) => s.(rw := s.rw.(ctlReads := false), cpc := Recheck(l))
    case Recheck(l) =>
      s.(cpc := if l < Target(s.cmd.id) then LevelLock(Target(s.cmd.id), true) else SignalLock(ActDone(true)))
    case LevelLock(l, inner) => s.(rw := s.rw.(writer := true), cpc := LevelTest(l, inner))
    case LevelTest(l, inner) =>
      s.(cpc := if CodeMoves(s.pad.level, l) then LevelWrite(l, inner) else LevelUnlock(inner, false))
    case LevelWrite(l, inner) => s.(pad := s.pad.(level := l), cpc := LevelUnlock(inner, true))
    case LevelUnlock(inner, moved) =>
      s.(rw := s.rw.(writer := false),
         cpc := if moved then SignalLock(if inner then LevelDone else ArmDone)
                else if inner then SignalLock(ActDone(true)) else Answer(ArmAck(ArmDenied)))
    case ConnLock => s.(rw := s.rw.(writer := true), cpc := ConnWrite)
    case ConnWrite => s.(pad := s.pad.(conn := s.cmd.status), cpc := ConnUnlock)
    case ConnUnlock => s.(rw := s.rw.(writer := false), cpc := SignalLock(ConnDone))
    case SignalLock(a) => s.(mut := Ctl, cpc := SignalSet(a))
    case SignalSet(a) => s.(recorded := true, cpc := SignalWake(a))
    case SignalWake(a) => s.(tpc := if s.tpc == Waiting then Woken(false) else s.tpc, signals := s.signals + 1, cpc := SignalUnlock(a))
    case SignalUnlock(a) => s.(mut := Free, cpc := AfterSignal(a, s.cmd))
    case Answer(r) => s.(log := s.log + [Event(s.cmd, s.start, s.pad, r)], cpc := Idle)
  }

  /** Which program points belong to which kind of command. */
  predicate CtlTyped(pc: CtlPc, c: Command) {
    match pc
    case Idle | Answer(_) => true
    case CheckLock | CheckRead | CheckUnlock(_) | Permit(_) =>
      c.ActCmd? && c.id < NUM_ACTUATORS && c.id != ID_DUMP && c.state <= 1
    case Drive => c.ActCmd? && c.id < NUM_ACTUATORS
    case RecheckLock | RecheckRead | RecheckUnlock(_) | Recheck(_) => AdvancingCommand(c) && c.state != 0
    case LevelLock(l, inner) => LevelTyped(l, inner, c)
    case LevelTest(l, inner) => LevelTyped(l, inner, c)
    case LevelWrite(l, inner) => LevelTyped(l, inner, c)
    case LevelUnlock(inner, _) => if inner then AdvancingCommand(c) else c.ArmCmd?
    case ConnLock | ConnWrite | ConnUnlock => c.ConnCmd?
    case SignalLock(a) => AfterTyped(a, c)
    case SignalSet(a) => AfterTyped(a, c)
    case SignalWake(a) => AfterTyped(a, c)
    case SignalUnlock(a) => AfterTyped(a, c)
  }

  predicate AdvancingCommand(c: Command) {
    c.ActCmd? && (c.id == ID_QUICK_DISCONNECT || c.id == ID_IGNITER)
  }

  predicate LevelTyped(l: Level, inner: bool, c: Command) {
    if inner then AdvancingCommand(c) && l == (if c.state != 0 then Target(c.id) else Target(c.id) - 1)
    else c == ArmCmd(l)
  }

  predicate AfterTyped(a: After, c: Command) {
    match a
    case ArmDone => c.ArmCmd?
    case ConnDone => c.ConnCmd?
    case LevelDone => AdvancingCommand(c)
    case ActDone(unannounced) => c.ActCmd? && c.id < NUM_ACTUATORS
  }

  // ---- The telemetry thread ----

  /** `strict` refuses a read lock while a writer is queued, as POSIX lets an implementation do. */
  predicate TelEnabled(s: Sys, strict: bool) {
    match s.tpc
    case MutexLock | Woken(_) => s.mut == Free
    case TakeLevelLock | TakeConnLock => !s.rw.writer && (strict ==> !WriterQueued(s))
    case _ => true
  }

  predicate WriterQueued(s: Sys) {
    s.cpc.LevelLock? || s.cpc.ConnLock?
  }

  /** One telemetry step. Leaving `Waiting` here is a time-out or a spurious wake-up. */
  function TelStep(s: Sys, timedOut: bool): Sys
    requires TelEnabled(s, false)
    requires s.tpc.TakeAct? ==> |s.snap.acts| < NUM_ACTUATORS as int
  {
    match s.tpc
    case Begin => s.(tpc := MutexLock)
    case MutexLock => s.(mut := Tel, tpc := WaitTest(false))
    case WaitTest(t) =>
      if !t && !s.recorded then s.(mut := Free, tpc := Waiting) else s.(tpc := TakeLevelLock, snap := EmptySnap())
    case Waiting => s.(tpc := Woken(timedOut))
    case Woken(t) => s.(mut := Tel, tpc := WaitTest(t))
    case TakeLevelLock => s.(rw := s.rw.(telReads := true), tpc := TakeLevel)
    case TakeLevel => s.(snap := s.snap.(level := s.pad.level), tpc := DropLevelLock)
    case DropLevelLock => s.(rw := s.rw.(telReads := false), tpc := TakeConnLock)
    case TakeConnLock => s.(rw := s.rw.(telReads := true), tpc := TakeConn)
    case TakeConn => s.(snap := s.snap.(conn := s.pad.conn), tpc := DropConnLock)
    case DropConnLock => s.(rw := s.rw.(telReads := false), tpc := TakeAct)
    case TakeAct =>
      var i := |s.snap.acts|;
      s.(snap := s.snap.(acts := s.snap.acts + [s.pad.acts[i]]), tpc := if i + 1 < NUM_ACTUATORS as int then TakeAct else Publish)
    case Publish => s.(last := Some(s.snap), tpc := Clear)
    case Clear => s.(recorded := false, tpc := MutexUnlock)
    case MutexUnlock => s.(mut := Free, tpc := Begin)
  }

  // ---- Runs ----

  datatype Move = CtlMove(next: Command) | TelMove(timedOut: bool)

  predicate Enabled(s: Sys, m: Move) {
    match m
    case CtlMove(_) => CtlEnabled(s) && CtlTyped(s.cpc, s.cmd)
    case TelMove(_) => TelEnabled(s, false) && (s.tpc.TakeAct? ==> |s.snap.acts| < NUM_ACTUATORS as int)
  }

  function Step(s: Sys, m: Move): Sys
    requires Enabled(s, m)
  {
    match m
    case CtlMove(c) => CtlStep(s, c)
    case TelMove(t) => TelStep(s, t)
  }

  ghost predicate Next(s: Sys, s': Sys) {
    exists m :: Enabled(s, m) && s' == Step(s, m)
  }

  /** A run: any interleaving of the two threads, over any commands and any wake-ups. */
  ghost predicate IsRun(b: seq<Sys>) {
    && |b| > 0
    && b[0] == InitSys()
    && forall i | 0 <= i < |b| - 1 :: NextAt(b, i)
  }

  ghost predicate NextAt(b: seq<Sys>, i: nat)
    requires i + 1 < |b|
  {
    Next(b[i], b[i + 1])
  }

  /** The move between two states of a run. */
  lemma MoveOf(b: seq<Sys>, i: nat) returns (m: Move)
    requires IsRun(b) && i + 1 < |b|
    ensures Enabled(b[i], m) && b[i + 1] == Step(b[i], m)
  {
    assert NextAt(b, i);
    m :| Enabled(b[i], m) && b[i + 1] == Step(b[i], m);
  }
}
