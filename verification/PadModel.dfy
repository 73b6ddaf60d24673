/** The pad's visible state and the reference meaning of one controller operation,
    stated by thresholds and legal moves rather than by the code's branches. */
module PadModel {
  import opened Protocol

  datatype PadFields = PadFields(level: Level, conn: ConnStatus, acts: seq<bool>)

  type Pad = p: PadFields | |p.acts| == NUM_ACTUATORS as int
    witness PadFields(ARMED_PAD, Reconnecting, AllOff())

  function AllOff(): seq<bool> {
    seq(NUM_ACTUATORS, _ => false)
  }

  function InitPad(): Pad {
    PadFields(ARMED_PAD, Reconnecting, AllOff())
  }

  /** The lowest arming level at which an actuator may be commanded. */
  function MinLevel(id: byte): Level
    requires id < NUM_ACTUATORS
  {
    if id == ID_DUMP then ARMED_PAD
    else if id == ID_QUICK_DISCONNECT then ARMED_IGNITION
    else if id == ID_IGNITER then ARMED_DISCONNECTED
    else if id == ID_FIRE_VALVE then ARMED_LAUNCH
    else ARMED_VALVES
  }

  /** The moves an arming request may make: one step up, down to ARMED_PAD, or
      out of the firing sequence down to ARMED_VALVES. */
  predicate LegalMove(now: Level, next: Level) {
    next == now + 1 || next == ARMED_PAD || (next == ARMED_VALVES && now >= ARMED_IGNITION)
  }

  function ChangeLevel(p: Pad, next: byte): (Pad, ArmStatus) {
    if next > ARMED_LAUNCH then (p, ArmInv)
    else if LegalMove(p.level, next) then (p.(level := next), ArmOk)
    else (p, ArmDenied)
  }

  /** The actuations that carry the arming sequence forward by themselves. */
  predicate Advances(level: Level, id: byte, state: byte) {
    && state != 0
    && ((id == ID_QUICK_DISCONNECT && level == ARMED_IGNITION) || (id == ID_IGNITER && level == ARMED_DISCONNECTED))
  }

  function Store(p: Pad, id: byte, state: byte): Pad
    requires id < NUM_ACTUATORS
  {
    p.(acts := p.acts[id := state != 0])
  }

  function Actuate(p: Pad, id: byte, state: byte, drives: bool): (Pad, Reply) {
    if id >= NUM_ACTUATORS then (p, ActAck(id, ActDne))
    else if id != ID_DUMP && state > 1 then (p, ActAck(id, ActInv))
    else if p.level < MinLevel(id) then (p, ActAck(id, ActDenied))
    else if !drives then (p, NoAck)
    else
      var q := Store(p, id, state);
      (if Advances(p.level, id, state) then q.(level := p.level + 1) else q, ActAck(id, ActOk))
  }

  /** One controller operation, done atomically. */
  function Handle(p: Pad, c: Command): (Pad, Reply) {
    match c
    case ArmCmd(l) => var (q, s) := ChangeLevel(p, l); (q, ArmAck(s))
    case ActCmd(id, st, drives) => Actuate(p, id, st, drives)
    case ConnCmd(status) => (p.(conn := status), NoAck)
  }

  // ---- The code's own branches, shared by the sequential and the threaded model ----

  predicate IsSolenoid(id: byte) {
    ID_XV1 <= id <= ID_XV12 && id != ID_FIRE_VALVE
  }

  /** The permission switch of `pad_actuate`. */
  predicate SwitchPermits(level: Level, id: byte) {
    match level
    case 0 => false
    case 1 => IsSolenoid(id)
    case 2 => IsSolenoid(id) || id == ID_QUICK_DISCONNECT
    case 3 => IsSolenoid(id) || id == ID_QUICK_DISCONNECT || id == ID_IGNITER
    case _ => true
  }

  /** The three conditions computed by `padstate_change_level`. */
  predicate CodeMoves(now: Level, next: Level) {
    var increase := next == now + 1 && next <= ARMED_LAUNCH;
    var fromValves := now == ARMED_VALVES && next == ARMED_PAD;
    var fromFiring :=
      (next == ARMED_VALVES && (now == ARMED_IGNITION || now == ARMED_DISCONNECTED || now == ARMED_LAUNCH)) ||
      next == ARMED_PAD;
    increase || fromValves || fromFiring
  }

  /** The level switch in the code is exactly a threshold per actuator: valves from
      ARMED_VALVES, quick disconnect from ARMED_IGNITION, igniter from ARMED_DISCONNECTED,
      fire valve at ARMED_LAUNCH. */
  lemma SwitchIsThreshold(level: Level, id: byte)
    requires id < NUM_ACTUATORS && id != ID_DUMP
    ensures SwitchPermits(level, id) <==> MinLevel(id) <= level
    ensures SwitchPermits(level, id) <==>
              || (ID_XV1 <= id <= ID_XV12 && id != ID_FIRE_VALVE && level >= ARMED_VALVES)
              || (id == ID_QUICK_DISCONNECT && level >= ARMED_IGNITION)
              || (id == ID_IGNITER && level >= ARMED_DISCONNECTED)
              || (id == ID_FIRE_VALVE && level == ARMED_LAUNCH)
  {
  }

  lemma CodeMovesAreLegal(now: Level, next: Level)
    ensures CodeMoves(now, next) <==> LegalMove(now, next)
  {
  }

  // ---- What each operation does, case by case ----

  /** How every actuation request is answered. */
  lemma ActReplies(p: Pad, id: byte, st: byte, drives: bool)
    ensures var r := Handle(p, ActCmd(id, st, drives)).1;
            var permitted :=
              || id == ID_DUMP
              || (st <= 1 && (
                  || (ID_XV1 <= id <= ID_XV12 && id != ID_FIRE_VALVE && p.level >= ARMED_VALVES)
                  || (id == ID_QUICK_DISCONNECT && p.level >= ARMED_IGNITION)
                  || (id == ID_IGNITER && p.level >= ARMED_DISCONNECTED)
                  || (id == ID_FIRE_VALVE && p.level == ARMED_LAUNCH)));
            && (r == ActAck(id, ActDne) <==> id >= NUM_ACTUATORS)
            && (r == ActAck(id, ActInv) <==> id < NUM_ACTUATORS && id != ID_DUMP && st > 1)
            && (r == ActAck(id, ActDenied) <==> id < NUM_ACTUATORS && !permitted && st <= 1)
            && (r == ActAck(id, ActOk) <==> permitted && drives)
            && (r == NoAck <==> permitted && !drives)
  {
  }

  /** An accepted actuation sets its own actuator and no other, and moves the level only from
      ARMED_IGNITION by the quick disconnect and from ARMED_DISCONNECTED by the igniter; any
      other leaves the pad as it was. */
  lemma ActEffects(p: Pad, id: byte, st: byte, drives: bool)
    ensures var (q, r) := Handle(p, ActCmd(id, st, drives));
            if r != ActAck(id, ActOk) then q == p
            else
              && q.conn == p.conn && id < NUM_ACTUATORS && q.acts[id] == (st != 0)
              && (forall other: byte | other < NUM_ACTUATORS && other != id :: q.acts[other] == p.acts[other])
              && q.level == (if id == ID_QUICK_DISCONNECT && st == 1 && p.level == ARMED_IGNITION then ARMED_DISCONNECTED
                             else if id == ID_IGNITER && st == 1 && p.level == ARMED_DISCONNECTED then ARMED_LAUNCH
                             else p.level)
  {
  }

  /** How every arming request is answered, and that a refused one changes nothing. */
  lemma ArmReplies(p: Pad, l: byte)
    ensures var (q, r) := Handle(p, ArmCmd(l));
            && (r == ArmAck(ArmInv) <==> l > ARMED_LAUNCH)
            && (r == ArmAck(ArmOk) <==>
                  l <= ARMED_LAUNCH && (l == p.level + 1 || l == ARMED_PAD || (l == ARMED_VALVES && p.level >= ARMED_IGNITION)))
            && (r == ArmAck(ArmOk) || r == ArmAck(ArmDenied) || r == ArmAck(ArmInv))
            && (if r == ArmAck(ArmOk) then q.level == l && q.conn == p.conn && q.acts == p.acts else q == p)
  {
  }

  /** A change of connection is silent and touches nothing else. */
  lemma ConnEffects(p: Pad, status: ConnStatus)
    ensures var (q, r) := Handle(p, ConnCmd(status));
            r == NoAck && q.conn == status && q.level == p.level && q.acts == p.acts
  {
  }

  // ---- Histories ----

  datatype Event = Event(cmd: Command, before: Pad, after: Pad, reply: Reply)

  ghost predicate IsEvent(e: Event) {
    Handle(e.before, e.cmd) == (e.after, e.reply)
  }

  /** A run of the controller from `start`: each operation acts on what the one before left. */
  ghost predicate IsHistory(start: Pad, h: seq<Event>) {
    && (forall i {:trigger IsEvent(h[i])} | 0 <= i < |h| :: IsEvent(h[i]))
    && (forall i {:trigger At(start, h, i)} | 0 <= i < |h| :: h[i].before == At(start, h, i))
  }

  /** The pad after the first `i` operations. */
  function At(start: Pad, h: seq<Event>, i: nat): Pad
    requires i <= |h|
  {
    if i == 0 then start else h[i - 1].after
  }

  function Final(start: Pad, cmds: seq<Command>): Pad
    decreases |cmds|
  {
    if cmds == [] then start else Final(Handle(start, cmds[0]).0, cmds[1..])
  }

  function Replies(start: Pad, cmds: seq<Command>): seq<Reply>
    decreases |cmds|
  {
    if cmds == [] then []
    else var (p, r) := Handle(start, cmds[0]); [r] + Replies(p, cmds[1..])
  }

  function Commands(h: seq<Event>): seq<Command> {
    seq(|h|, i requires 0 <= i < |h| => h[i].cmd)
  }

  function Answers(h: seq<Event>): seq<Reply> {
    seq(|h|, i requires 0 <= i < |h| => h[i].reply)
  }

  /** A history is determined by its commands: it is the fold of `Handle`. */
  lemma {:induction false} HistoryIsFold(start: Pad, h: seq<Event>)
    requires IsHistory(start, h)
    ensures Final(start, Commands(h)) == At(start, h, |h|)
    ensures Replies(start, Commands(h)) == Answers(h)
    decreases |h|
  {
    if h != [] {
      var p := h[0].after;
      var t := h[1..];
      assert h[0].before == At(start, h, 0) == start && IsEvent(h[0]);
      assert IsHistory(p, t) by {
        forall i | 0 <= i < |t| ensures IsEvent(t[i]) && t[i].before == At(p, t, i) {
          assert t[i] == h[i + 1] && h[i + 1].before == At(start, h, i + 1) && IsEvent(h[i + 1]);
        }
      }
      HistoryIsFold(p, t);
      assert Commands(h)[1..] == Commands(t);
      assert Answers(h) == [h[0].reply] + Answers(t);
    }
  }

  lemma {:induction false} FoldSnoc(start: Pad, cmds: seq<Command>, c: Command)
    ensures Final(start, cmds + [c]) == Handle(Final(start, cmds), c).0
    ensures Replies(start, cmds + [c]) == Replies(start, cmds) + [Handle(Final(start, cmds), c).1]
    decreases |cmds|
  {
    if cmds == [] {
      assert [c][1..] == [];
    } else {
      FoldSnoc(Handle(start, cmds[0]).0, cmds[1..], c);
      assert (cmds + [c])[1..] == cmds[1..] + [c];
    }
  }

  /** Extending a history by one atomic operation. */
  lemma HistoryExtends(start: Pad, h: seq<Event>, e: Event)
    requires IsHistory(start, h) && IsEvent(e) && e.before == At(start, h, |h|)
    ensures IsHistory(start, h + [e]) && At(start, h + [e], |h| + 1) == e.after
  {
    var g := h + [e];
    forall i | 0 <= i < |g| ensures IsEvent(g[i]) && g[i].before == At(start, g, i) {
      if i < |h| { assert g[i] == h[i] && IsEvent(h[i]) && h[i].before == At(start, h, i); }
    }
  }
}
