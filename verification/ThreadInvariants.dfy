/** What every step of either thread keeps. */
module ThreadInvariants {
  import opened Protocol
  import opened PadModel
  import opened Threads

  // ---- Locks ----

  predicate CtlHoldsMutex(pc: CtlPc) { pc.SignalSet? || pc.SignalWake? || pc.SignalUnlock? }

  predicate CtlWrites(pc: CtlPc) { pc.LevelTest? || pc.LevelWrite? || pc.LevelUnlock? || pc.ConnWrite? || pc.ConnUnlock? }

  predicate CtlReads(pc: CtlPc) { pc.CheckRead? || pc.CheckUnlock? || pc.RecheckRead? || pc.RecheckUnlock? }

  /** `telemetry_send_padstate` is running. */
  predicate Sending(pc: TelPc) {
    || pc.TakeLevelLock? || pc.TakeLevel? || pc.DropLevelLock? || pc.TakeConnLock? || pc.TakeConn?
    || pc.DropConnLock? || pc.TakeAct? || pc.Publish?
  }

  predicate TelHoldsMutex(pc: TelPc) { pc.WaitTest? || Sending(pc) || pc.Clear? || pc.MutexUnlock? }

  predicate TelReads(pc: TelPc) { pc.TakeLevel? || pc.DropLevelLock? || pc.TakeConn? || pc.DropConnLock? }

  /** Each lock is held exactly where the program counters say, never by both threads. */
  predicate LockInv(s: Sys) {
    MutexInv(s) && RwInv(s)
  }

  predicate MutexInv(s: Sys) {
    && (s.mut == Ctl <==> CtlHoldsMutex(s.cpc))
    && (s.mut == Tel <==> TelHoldsMutex(s.tpc))
  }

  predicate RwInv(s: Sys) {
    && (s.rw.writer <==> CtlWrites(s.cpc))
    && (s.rw.ctlReads <==> CtlReads(s.cpc))
    && (s.rw.telReads <==> TelReads(s.tpc))
    && !(s.rw.writer && s.rw.telReads)
  }

  // ---- The controller against the atomic specification ----

  /** The controller has stored an actuator or level that it has not yet announced. */
  predicate Dirty(pc: CtlPc) {
    match pc
    case RecheckLock | RecheckRead | RecheckUnlock(_) | Recheck(_) => true
    case LevelLock(_, inner) => inner
    case LevelTest(_, inner) => inner
    case LevelWrite(_, inner) => inner
    case LevelUnlock(inner, moved) => inner || moved
    case ConnUnlock => true
    case SignalLock(a) => a != ActDone(false)
    case SignalSet(a) => a != ActDone(false)
    case _ => false
  }

  /** Between storing a special actuator and deciding the level. */
  predicate BetweenStores(pc: CtlPc) {
    match pc
    case RecheckLock | RecheckRead | RecheckUnlock(_) | Recheck(_) => true
    case LevelLock(_, inner) => inner
    case LevelTest(_, inner) => inner
    case LevelWrite(_, inner) => inner
    case _ => false
  }

  /** Nothing has been stored by the current command yet. */
  predicate BeforeStores(pc: CtlPc) {
    match pc
    case CheckLock | CheckRead | CheckUnlock(_) | Permit(_) | Drive => true
    case LevelLock(_, inner) => !inner
    case LevelTest(_, inner) => !inner
    case LevelWrite(_, inner) => !inner
    case ConnLock | ConnWrite => true
    case _ => false
  }

  function Finish(c: Command, p: Pad): (Pad, Reply) {
    (p, if c.ActCmd? then ActAck(c.id, ActOk) else NoAck)
  }

  function RestLevel(l: Level, inner: bool, c: Command, p: Pad): (Pad, Reply) {
    var moves := CodeMoves(p.level, l);
    var q := if moves then p.(level := l) else p;
    if inner then Finish(c, q) else (q, ArmAck(if moves then ArmOk else ArmDenied))
  }

  function RestRecheck(seen: Level, c: Command, p: Pad): (Pad, Reply)
    requires AdvancingCommand(c)
  {
    if seen < Target(c.id) then RestLevel(Target(c.id), true, c, p) else Finish(c, p)
  }

  function RestDrive(c: Command, p: Pad): (Pad, Reply)
    requires c.ActCmd? && c.id < NUM_ACTUATORS
  {
    if !c.drives then (p, NoAck)
    else
      var q := Store(p, c.id, c.state);
      if !AdvancingCommand(c) then Finish(c, q)
      else if c.state != 0 then RestRecheck(q.level, c, q)
      else RestLevel(Target(c.id) - 1, true, c, q)
  }

  function RestPermit(seen: Level, c: Command, p: Pad): (Pad, Reply)
    requires c.ActCmd? && c.id < NUM_ACTUATORS
  {
    if SwitchPermits(seen, c.id) then RestDrive(c, p) else (p, ActAck(c.id, ActDenied))
  }

  function RestAfter(a: After, c: Command, p: Pad): (Pad, Reply) {
    match a
    case ArmDone => (p, ArmAck(ArmOk))
    case ConnDone => (p, NoAck)
    case LevelDone => Finish(c, p)
    case ActDone(_) => Finish(c, p)
  }

  /** What the controller would end up with if it ran on alone from `pc`. */
  function Rest(pc: CtlPc, c: Command, p: Pad): (Pad, Reply)
    requires CtlTyped(pc, c)
  {
    match pc
    case Idle => (p, NoAck)
    case CheckLock | CheckRead => RestPermit(p.level, c, p)
    case CheckUnlock(l) => RestPermit(l, c, p)
    case Permit(l) => RestPermit(l, c, p)
    case Drive => RestDrive(c, p)
    case RecheckLock | RecheckRead => RestRecheck(p.level, c, p)
    case RecheckUnlock(l) => RestRecheck(l, c, p)
    case Recheck(l) => RestRecheck(l, c, p)
    case LevelLock(l, inner) => RestLevel(l, inner, c, p)
    case LevelTest(l, inner) => RestLevel(l, inner, c, p)
    case LevelWrite(l, inner) => var q := p.(level := l); if inner then Finish(c, q) else (q, ArmAck(ArmOk))
    case LevelUnlock(inner, moved) => if inner then Finish(c, p) else (p, ArmAck(if moved then ArmOk else ArmDenied))
    case ConnLock | ConnWrite => if c.ConnCmd? then (p.(conn := c.status), NoAck) else (p, NoAck)
    case ConnUnlock => (p, NoAck)
    case SignalLock(a) => RestAfter(a, c, p)
    case SignalSet(a) => RestAfter(a, c, p)
    case SignalWake(a) => RestAfter(a, c, p)
    case SignalUnlock(a) => RestAfter(a, c, p)
    case Answer(r) => (p, r)
  }

  /** Running any command alone from its entry point is the atomic operation: the code's
      switch, its no-op downward moves and its re-reads come to thresholds and legal moves. */
  lemma EntryMeetsSpec(c: Command, p: Pad)
    ensures CtlTyped(EntryPoint(c), c)
    ensures Rest(EntryPoint(c), c, p) == Handle(p, c)
  {
    match c
    case ArmCmd(l) => if l <= ARMED_LAUNCH { CodeMovesAreLegal(p.level, l); }
    case ConnCmd(_) =>
    case ActCmd(id, st, drives) =>
      if id < NUM_ACTUATORS && id != ID_DUMP { SwitchIsThreshold(p.level, id); }
  }

  /** The finished commands are an atomic history that ends where the current one began. */
  ghost predicate LogInv(s: Sys) {
    && IsHistory(InitPad(), s.log)
    && (if s.cpc.Idle? then s.pad else s.start) == At(InitPad(), s.log, |s.log|)
  }

  /** The current command is on its way to the atomic result, and what it has stored so far. */
  predicate CommandInv(s: Sys) {
    && CtlTyped(s.cpc, s.cmd)
    && (!s.cpc.Idle? ==> Rest(s.cpc, s.cmd, s.pad) == Handle(s.start, s.cmd))
    && (BeforeStores(s.cpc) ==> s.pad == s.start)
    && (BetweenStores(s.cpc) ==> AdvancingCommand(s.cmd) && s.pad == Store(s.start, s.cmd.id, s.cmd.state))
  }

  // ---- What one controller step can touch ----

  /** Only three steps write the pad, each leaving it to be announced, and only setting the
      flag settles what is due; the packet is none of the controller's business. */
  ghost predicate CtlTouches(s: Sys, t: Sys) {
    && t.snap == s.snap && t.last == s.last
    && (t.tpc == s.tpc || (s.tpc.Waiting? && s.cpc.SignalWake?))
    && (s.cpc.SignalWake? ==> !t.tpc.Waiting?)
    && (t.tpc != s.tpc ==> t.tpc == Woken(false))
    && t.recorded == (s.recorded || s.cpc.SignalSet?)
    && (s.cpc.SignalSet? ==> t.cpc.SignalWake?)
    && (t.pad == s.pad || (Dirty(t.cpc) && (s.cpc.Drive? || s.cpc.LevelWrite? || s.cpc.ConnWrite?)))
    && (Dirty(s.cpc) ==> Dirty(t.cpc) || s.cpc.SignalSet?)
  }

  predicate LocksNothing(pc: CtlPc) {
    !CtlHoldsMutex(pc) && !CtlWrites(pc) && !CtlReads(pc)
  }

  // Where the branching steps can lead: inside the command, without a lock, and with
  // something to announce exactly after the store.

  lemma EntryHoldsNothing(c: Command)
    ensures var pc := EntryPoint(c); LocksNothing(pc) && !Dirty(pc) && !pc.Idle?
  {
  }

  lemma StoreHoldsNothing(c: Command)
    requires c.ActCmd?
    ensures var pc := AfterDrive(c.id, c.state); LocksNothing(pc) && Dirty(pc) && !pc.Idle?
  {
  }

  lemma SignalLeavesNothing(a: After, c: Command)
    ensures var pc := AfterSignal(a, c); LocksNothing(pc) && !Dirty(pc) && !pc.Idle?
  {
  }

  predicate Deciding(pc: CtlPc) {
    || pc.Idle? || pc.Answer? || pc.CheckLock? || pc.CheckRead? || pc.CheckUnlock? || pc.Permit?
    || pc.RecheckLock? || pc.RecheckRead? || pc.RecheckUnlock? || pc.Recheck?
  }

  predicate Signalling(pc: CtlPc) {
    pc.SignalLock? || pc.SignalSet? || pc.SignalWake? || pc.SignalUnlock?
  }

  lemma DecidingTouches(s: Sys, c: Command)
    requires CtlEnabled(s) && CtlTyped(s.cpc, s.cmd) && Deciding(s.cpc)
    ensures CtlTouches(s, CtlStep(s, c))
  {
    hide EntryPoint, AfterDrive, AfterSignal, Store, CodeMoves, SwitchPermits, Target, AdvancingCommand,
      LevelTyped, AfterTyped;
    EntryHoldsNothing(c);
  }

  lemma SignallingTouches(s: Sys, c: Command)
    requires CtlEnabled(s) && CtlTyped(s.cpc, s.cmd) && Signalling(s.cpc)
    ensures CtlTouches(s, CtlStep(s, c))
  {
    hide EntryPoint, AfterDrive, AfterSignal, Store, CodeMoves, SwitchPermits, Target, AdvancingCommand,
      LevelTyped, AfterTyped;
    SignalLeavesNothing(s.cpc.after, s.cmd);
  }

  lemma StoringTouches(s: Sys, c: Command)
    requires CtlEnabled(s) && CtlTyped(s.cpc, s.cmd) && !Deciding(s.cpc) && !Signalling(s.cpc)
    ensures CtlTouches(s, CtlStep(s, c))
  {
    hide EntryPoint, AfterDrive, AfterSignal, Store, CodeMoves, SwitchPermits, Target, AdvancingCommand,
      LevelTyped, AfterTyped;
    if s.cpc.Drive? { StoreHoldsNothing(s.cmd); }
  }

  lemma CtlFootprint(s: Sys, c: Command)
    requires CtlEnabled(s) && CtlTyped(s.cpc, s.cmd)
    ensures CtlTouches(s, CtlStep(s, c))
  {
    hide CtlStep, CtlTouches, CtlTyped;
    if Deciding(s.cpc) {
      DecidingTouches(s, c);
    } else if Signalling(s.cpc) {
      SignallingTouches(s, c);
    } else {
      StoringTouches(s, c);
    }
  }

  // A controller step moves along the rest of its command without changing where it leads.

  /** The permission check. */
  lemma CheckKeepsRest(s: Sys, c: Command)
    requires CtlEnabled(s) && CommandInv(s)
    requires s.cpc.CheckLock? || s.cpc.CheckRead? || s.cpc.CheckUnlock? || s.cpc.Permit?
    ensures CommandInv(CtlStep(s, c))
  {
    hide Handle, CodeMoves;
  }

  /** The store. */
  lemma DriveKeepsRest(s: Sys, c: Command)
    requires CtlEnabled(s) && CommandInv(s) && s.cpc.Drive?
    ensures CommandInv(CtlStep(s, c))
  {
    hide Handle, CodeMoves;
  }

  /** The level test after a special actuator was switched on. */
  lemma RecheckKeepsRest(s: Sys, c: Command)
    requires CtlEnabled(s) && CommandInv(s)
    requires s.cpc.RecheckLock? || s.cpc.RecheckRead? || s.cpc.RecheckUnlock? || s.cpc.Recheck?
    ensures CommandInv(CtlStep(s, c))
  {
    hide Handle, CodeMoves;
  }

  /** The level change, whether asked for by the client or by an actuation. */
  lemma LevelTestKeepsRest(s: Sys, c: Command)
    requires CtlEnabled(s) && CommandInv(s)
    requires s.cpc.LevelLock? || s.cpc.LevelTest?
    ensures CommandInv(CtlStep(s, c))
  {
    hide CodeMoves, Handle, Store, Target;
  }

  lemma LevelWriteKeepsRest(s: Sys, c: Command)
    requires CtlEnabled(s) && CommandInv(s) && s.cpc.LevelWrite?
    ensures CommandInv(CtlStep(s, c))
  {
    hide CodeMoves, Handle, Store, Target;
  }

  lemma LevelUnlockKeepsRest(s: Sys, c: Command)
    requires CtlEnabled(s) && CommandInv(s) && s.cpc.LevelUnlock?
    ensures CommandInv(CtlStep(s, c))
  {
    hide CodeMoves, Handle, Store, Target;
  }

  /** The announcement. */
  lemma SignalKeepsRest(s: Sys, c: Command)
    requires CtlEnabled(s) && CommandInv(s)
    requires s.cpc.SignalLock? || s.cpc.SignalSet? || s.cpc.SignalWake? || s.cpc.SignalUnlock?
    ensures CommandInv(CtlStep(s, c))
  {
    hide Handle, CodeMoves;
  }

  lemma EntryStoresNothing(c: Command)
    ensures !BetweenStores(EntryPoint(c))
  {
  }

  /** Taking up a command, a connection change, and the end of a command. */
  lemma EndsKeepRest(s: Sys, c: Command)
    requires CtlEnabled(s) && CommandInv(s)
    requires s.cpc.Idle? || s.cpc.ConnLock? || s.cpc.ConnWrite? || s.cpc.ConnUnlock? || s.cpc.Answer?
    ensures CommandInv(CtlStep(s, c))
  {
    hide Handle, CodeMoves, RestLevel, RestDrive, RestPermit, RestRecheck;
    EntryMeetsSpec(c, s.pad);
    EntryStoresNothing(c);
  }

  lemma CtlKeepsCommand(s: Sys, c: Command)
    requires CtlEnabled(s) && CommandInv(s)
    ensures CommandInv(CtlStep(s, c))
  {
    hide CtlStep, Rest, Handle, BeforeStores, BetweenStores;
    match s.cpc
    case CheckLock | CheckRead | CheckUnlock(_) | Permit(_) => CheckKeepsRest(s, c);
    case Drive => DriveKeepsRest(s, c);
    case RecheckLock | RecheckRead | RecheckUnlock(_) | Recheck(_) => RecheckKeepsRest(s, c);
    case LevelLock(_, _) | LevelTest(_, _) => LevelTestKeepsRest(s, c);
    case LevelWrite(_, _) => LevelWriteKeepsRest(s, c);
    case LevelUnlock(_, _) => LevelUnlockKeepsRest(s, c);
    case SignalLock(_) | SignalSet(_) | SignalWake(_) | SignalUnlock(_) => SignalKeepsRest(s, c);
    case Idle | ConnLock | ConnWrite | ConnUnlock | Answer(_) => EndsKeepRest(s, c);
  }

  /** A step takes up at most one command, and only between commands; a finished one goes on record. */
  lemma CtlIssues(s: Sys, c: Command)
    requires CtlEnabled(s) && CtlTyped(s.cpc, s.cmd)
    ensures var t := CtlStep(s, c);
            && t.log == (if s.cpc.Answer? then s.log + [Event(s.cmd, s.start, s.pad, s.cpc.reply)] else s.log)
            && t.start == (if s.cpc.Idle? then s.pad else s.start)
            && (s.cpc.Idle? ==> !t.cpc.Idle? && t.pad == s.pad)
            && (s.cpc.Answer? ==> t.pad == s.pad)
            && (!s.cpc.Idle? ==> t.cmd == s.cmd && (t.cpc.Idle? <==> s.cpc.Answer?))
  {
    hide CodeMoves, SwitchPermits, Store, EntryPoint, AfterDrive, AfterSignal, Target, LevelTyped, AfterTyped,
      AdvancingCommand;
    EntryHoldsNothing(c);
    if s.cpc.Drive? { StoreHoldsNothing(s.cmd); }
    if s.cpc.SignalUnlock? { SignalLeavesNothing(s.cpc.after, s.cmd); }
  }

  lemma CtlKeepsLog(s: Sys, c: Command)
    requires CtlEnabled(s) && CommandInv(s) && LogInv(s)
    ensures LogInv(CtlStep(s, c))
  {
    hide IsHistory, CtlStep, BeforeStores, BetweenStores;
    CtlIssues(s, c);
    if s.cpc.Answer? {
      HistoryExtends(InitPad(), s.log, Event(s.cmd, s.start, s.pad, s.cpc.reply));
    }
  }

  // ---- The snapshot under construction ----

  predicate LevelTaken(pc: TelPc) { Sending(pc) && !pc.TakeLevelLock? && !pc.TakeLevel? }

  predicate ConnTaken(pc: TelPc) { pc.DropConnLock? || pc.TakeAct? || pc.Publish? }

  /** How far the packet has been filled in. */
  predicate SnapTyped(s: Sys) {
    && |s.snap.acts| <= NUM_ACTUATORS as int
    && (s.tpc.TakeAct? ==> |s.snap.acts| < NUM_ACTUATORS as int)
    && (s.tpc.Publish? ==> |s.snap.acts| == NUM_ACTUATORS as int)
    && (Sending(s.tpc) && !s.tpc.TakeAct? && !s.tpc.Publish? ==> s.snap.acts == [])
  }

  /** Pad `p` has the values already taken into the packet. */
  predicate AgreesTaken(p: Pad, s: Sys)
    requires |s.snap.acts| <= NUM_ACTUATORS as int
  {
    && (LevelTaken(s.tpc) ==> s.snap.level == p.level)
    && (ConnTaken(s.tpc) ==> s.snap.conn == p.conn)
    && s.snap.acts == p.acts[..|s.snap.acts|]
  }

  /** Pad `p` has the current values of everything still to be taken. */
  predicate AgreesUntaken(p: Pad, s: Sys)
    requires |s.snap.acts| <= NUM_ACTUATORS as int
  {
    && (!LevelTaken(s.tpc) ==> s.pad.level == p.level)
    && (!ConnTaken(s.tpc) ==> s.pad.conn == p.conn)
    && s.pad.acts[|s.snap.acts|..] == p.acts[|s.snap.acts|..]
  }

  /** A fresh value in every taken field, unless the controller has something to announce. */
  predicate SnapInv(s: Sys) {
    && SnapTyped(s)
    && (Sending(s.tpc) ==> Dirty(s.cpc) || AgreesTaken(s.pad, s))
  }

  /** Everything the controller ever stored is announced, about to be announced, or published. */
  predicate UpdateInv(s: Sys) {
    && (s.recorded || Dirty(s.cpc) || s.last == None || s.last == Some(s.pad))
    && (s.tpc.Clear? ==> Dirty(s.cpc) || s.last == Some(s.pad))
    && (s.tpc.Waiting? && s.recorded ==> s.cpc.SignalWake?)
  }

  ghost predicate Inv(s: Sys) {
    LockInv(s) && CommandInv(s) && LogInv(s) && SnapInv(s) && UpdateInv(s)
  }

  lemma SignallingKeepsMutex(s: Sys, c: Command)
    requires CtlEnabled(s) && CtlTyped(s.cpc, s.cmd) && MutexInv(s) && Signalling(s.cpc)
    ensures MutexInv(CtlStep(s, c))
  {
    hide EntryPoint, AfterDrive, AfterSignal, Store, CodeMoves, SwitchPermits, Target, AdvancingCommand,
      LevelTyped, AfterTyped;
    SignalLeavesNothing(s.cpc.after, s.cmd);
  }

  lemma OthersKeepMutex(s: Sys, c: Command)
    requires CtlEnabled(s) && CtlTyped(s.cpc, s.cmd) && MutexInv(s) && !Signalling(s.cpc)
    ensures MutexInv(CtlStep(s, c))
  {
    hide EntryPoint, AfterDrive, AfterSignal, Store, CodeMoves, SwitchPermits, Target, AdvancingCommand,
      LevelTyped, AfterTyped, TelHoldsMutex;
    EntryHoldsNothing(c);
    if s.cpc.Drive? { StoreHoldsNothing(s.cmd); }
  }

  lemma DecidingKeepsRwLock(s: Sys, c: Command)
    requires CtlEnabled(s) && CtlTyped(s.cpc, s.cmd) && RwInv(s) && Deciding(s.cpc)
    ensures RwInv(CtlStep(s, c))
  {
    hide TelReads, EntryPoint, AfterDrive, AfterSignal, Store, CodeMoves, SwitchPermits, Target,
      AdvancingCommand, LevelTyped, AfterTyped, CtlHoldsMutex, Dirty;
    EntryHoldsNothing(c);
  }

  lemma StoringKeepsRwLock(s: Sys, c: Command)
    requires CtlEnabled(s) && CtlTyped(s.cpc, s.cmd) && RwInv(s) && !Deciding(s.cpc) && !Signalling(s.cpc)
    ensures RwInv(CtlStep(s, c))
  {
    hide TelReads, EntryPoint, AfterDrive, AfterSignal, Store, CodeMoves, SwitchPermits, Target,
      AdvancingCommand, LevelTyped, AfterTyped;
    if s.cpc.Drive? { StoreHoldsNothing(s.cmd); }
  }

  lemma SignallingKeepsRwLock(s: Sys, c: Command)
    requires CtlEnabled(s) && CtlTyped(s.cpc, s.cmd) && RwInv(s) && Signalling(s.cpc)
    ensures RwInv(CtlStep(s, c))
  {
    hide EntryPoint, AfterDrive, AfterSignal, Store, CodeMoves, SwitchPermits, Target, AdvancingCommand,
      LevelTyped, AfterTyped;
    SignalLeavesNothing(s.cpc.after, s.cmd);
  }

  lemma CtlKeepsLocks(s: Sys, c: Command)
    requires CtlEnabled(s) && CtlTyped(s.cpc, s.cmd) && LockInv(s)
    ensures LockInv(CtlStep(s, c))
  {
    hide CtlStep, CtlTyped, MutexInv, RwInv;
    if Signalling(s.cpc) {
      SignallingKeepsMutex(s, c);
    } else {
      OthersKeepMutex(s, c);
    }
    if Deciding(s.cpc) {
      DecidingKeepsRwLock(s, c);
    } else if Signalling(s.cpc) {
      SignallingKeepsRwLock(s, c);
    } else {
      StoringKeepsRwLock(s, c);
    }
  }

  /** The controller cannot leave a dirty stretch while the telemetry thread holds the mutex. */
  lemma CtlKeepsSnapshot(s: Sys, c: Command)
    requires CtlEnabled(s) && CtlTyped(s.cpc, s.cmd) && MutexInv(s) && SnapInv(s)
    ensures SnapInv(CtlStep(s, c))
  {
    hide CtlStep, Dirty, CtlTyped;
    CtlFootprint(s, c);
  }

  /** A dirty stretch ends only by recording the update. */
  lemma CtlKeepsUpdate(s: Sys, c: Command)
    requires CtlEnabled(s) && CtlTyped(s.cpc, s.cmd) && MutexInv(s) && UpdateInv(s)
    ensures UpdateInv(CtlStep(s, c))
  {
    hide CtlStep, Dirty, CtlTyped;
    CtlFootprint(s, c);
  }

  lemma TelKeepsMutex(s: Sys, timedOut: bool)
    requires TelEnabled(s, false) && SnapTyped(s) && MutexInv(s)
    ensures MutexInv(TelStep(s, timedOut))
  {
    hide CtlHoldsMutex;
  }

  lemma SendingKeepsRwLock(s: Sys, timedOut: bool)
    requires TelEnabled(s, false) && SnapTyped(s) && RwInv(s) && Sending(s.tpc)
    ensures RwInv(TelStep(s, timedOut))
  {
    hide CtlWrites, CtlReads;
  }

  lemma WaitingKeepsRwLock(s: Sys, timedOut: bool)
    requires TelEnabled(s, false) && SnapTyped(s) && RwInv(s) && !Sending(s.tpc)
    ensures RwInv(TelStep(s, timedOut))
  {
    hide CtlWrites, CtlReads;
  }

  lemma TelKeepsLocks(s: Sys, timedOut: bool)
    requires TelEnabled(s, false) && SnapTyped(s) && LockInv(s)
    ensures LockInv(TelStep(s, timedOut))
  {
    hide TelStep, MutexInv, RwInv;
    TelKeepsMutex(s, timedOut);
    if Sending(s.tpc) {
      SendingKeepsRwLock(s, timedOut);
    } else {
      WaitingKeepsRwLock(s, timedOut);
    }
  }

  /** One more field is taken, with its present value. */
  lemma SendingKeepsSnapshot(s: Sys, timedOut: bool)
    requires TelEnabled(s, false) && SnapInv(s) && Sending(s.tpc)
    ensures SnapInv(TelStep(s, timedOut))
  {
    hide Dirty;
    if s.tpc.TakeAct? {
      var i := |s.snap.acts|;
      assert s.pad.acts[..i + 1] == s.pad.acts[..i] + [s.pad.acts[i]];
    }
  }

  /** A packet is begun empty. */
  lemma WaitingKeepsSnapshot(s: Sys, timedOut: bool)
    requires TelEnabled(s, false) && SnapInv(s) && !Sending(s.tpc)
    ensures SnapInv(TelStep(s, timedOut))
  {
    hide Dirty;
  }

  lemma TelKeepsSnapshot(s: Sys, timedOut: bool)
    requires TelEnabled(s, false) && SnapInv(s)
    ensures SnapInv(TelStep(s, timedOut))
  {
    hide TelStep, Sending;
    if Sending(s.tpc) {
      SendingKeepsSnapshot(s, timedOut);
    } else {
      WaitingKeepsSnapshot(s, timedOut);
    }
  }

  /** The flag is cleared only after a packet that is current unless an announcement is due. */
  lemma TelKeepsUpdate(s: Sys, timedOut: bool)
    requires TelEnabled(s, false) && LockInv(s) && SnapInv(s) && UpdateInv(s)
    ensures UpdateInv(TelStep(s, timedOut))
  {
    hide Dirty, CtlWrites, CtlReads, CtlHoldsMutex;
    if s.tpc.Publish? { assert s.pad.acts[..|s.snap.acts|] == s.pad.acts; }
  }

  lemma TelLeavesControllerAlone(s: Sys, timedOut: bool)
    requires TelEnabled(s, false) && SnapTyped(s)
    ensures var t := TelStep(s, timedOut);
            t.pad == s.pad && t.cpc == s.cpc && t.cmd == s.cmd && t.start == s.start && t.log == s.log && t.signals == s.signals
  {
  }

  lemma CtlKeepsInv(s: Sys, c: Command)
    requires CtlEnabled(s) && Inv(s)
    ensures Inv(CtlStep(s, c))
  {
    CtlKeepsLocks(s, c);
    CtlKeepsCommand(s, c);
    CtlKeepsLog(s, c);
    CtlKeepsSnapshot(s, c);
    CtlKeepsUpdate(s, c);
  }

  lemma TelKeepsInv(s: Sys, timedOut: bool)
    requires TelEnabled(s, false) && Inv(s)
    ensures Inv(TelStep(s, timedOut))
  {
    TelLeavesControllerAlone(s, timedOut);
    TelKeepsLocks(s, timedOut);
    TelKeepsSnapshot(s, timedOut);
    TelKeepsUpdate(s, timedOut);
  }

  lemma StepKeepsInv(s: Sys, m: Move)
    requires Enabled(s, m) && Inv(s)
    ensures Inv(Step(s, m))
  {
    match m
    case CtlMove(c) => CtlKeepsInv(s, c);
    case TelMove(t) => TelKeepsInv(s, t);
  }

  lemma RunStepKeepsInv(b: seq<Sys>, i: nat)
    requires IsRun(b) && i + 1 < |b| && Inv(b[i])
    ensures Inv(b[i + 1])
  {
    hide IsRun, Inv, Step, Enabled;
    var m := MoveOf(b, i);
    StepKeepsInv(b[i], m);
  }

  lemma InitInv(b: seq<Sys>)
    requires IsRun(b)
    ensures Inv(b[0])
  {
  }

  /** Every state of every run satisfies all the invariants. */
  lemma {:induction false} RunInv(b: seq<Sys>, i: nat)
    requires IsRun(b) && i < |b|
    ensures Inv(b[i])
    decreases i
  {
    if i == 0 {
      InitInv(b);
    } else {
      RunInv(b, i - 1);
      RunStepKeepsInv(b, i - 1);
    }
  }
}
