/** What the arming sequence guarantees over whole controller runs, for any client. */
module Interlock {
  import opened Protocol
  import opened PadModel

  // ---- Level accounting ----

  predicate Rises(e: Event) {
    e.after.level > e.before.level
  }

  function Drop(e: Event): nat {
    if e.after.level < e.before.level then e.before.level - e.after.level else 0
  }

  function RiseCount(h: seq<Event>): nat {
    if h == [] then 0 else RiseCount(h[..|h| - 1]) + if Rises(h[|h| - 1]) then 1 else 0
  }

  function TotalDrop(h: seq<Event>): nat {
    if h == [] then 0 else TotalDrop(h[..|h| - 1]) + Drop(h[|h| - 1])
  }

  /** What one operation can do to the level: the kinds of rise, and that only an
      accepted arming request can lower it. */
  lemma LevelMoves(e: Event)
    requires IsEvent(e)
    ensures Rises(e) ==> e.after.level == e.before.level + 1 && RiseCause(e)
    ensures e.after.level < e.before.level ==>
              && e.after.level in {ARMED_PAD, ARMED_VALVES}
              && e.cmd == ArmCmd(e.after.level) && e.reply == ArmAck(ArmOk)
  {
  }

  lemma LevelMovesAt(start: Pad, h: seq<Event>, i: nat)
    requires IsHistory(start, h) && i < |h|
    ensures h[i].before == At(start, h, i)
    ensures Rises(h[i]) ==> h[i].after.level == h[i].before.level + 1 && RiseCause(h[i])
    ensures h[i].after.level < h[i].before.level ==> h[i].after.level in {ARMED_PAD, ARMED_VALVES}
  {
    assert IsEvent(h[i]);
    LevelMoves(h[i]);
  }

  /** The operations that may take the level up by one. */
  predicate RiseCause(e: Event) {
    || (e.cmd == ArmCmd(e.after.level) && e.reply == ArmAck(ArmOk))
    || (e.after.level == ARMED_DISCONNECTED && AcceptedOn(e, ID_QUICK_DISCONNECT))
    || (e.after.level == ARMED_LAUNCH && AcceptedOn(e, ID_IGNITER))
  }

  predicate Accepted(e: Event, id: byte) {
    e.cmd.ActCmd? && e.cmd.id == id && e.reply == ActAck(id, ActOk)
  }

  predicate AcceptedOn(e: Event, id: byte) {
    Accepted(e, id) && e.cmd.state == 1
  }

  lemma {:induction false} LevelAccounting(start: Pad, h: seq<Event>)
    requires IsHistory(start, h)
    ensures RiseCount(h) + start.level == At(start, h, |h|).level + TotalDrop(h)
  {
    if h != [] {
      var g := h[..|h| - 1];
      PrefixHistory(start, h, |h| - 1);
      LevelAccounting(start, g);
      LevelMovesAt(start, h, |h| - 1);
      assert At(start, h, |h| - 1) == At(start, g, |g|);
    }
  }

  lemma PrefixHistory(start: Pad, h: seq<Event>, n: nat)
    requires IsHistory(start, h) && n <= |h|
    ensures IsHistory(start, h[..n])
    ensures forall i | 0 <= i <= n :: At(start, h[..n], i) == At(start, h, i)
  {
    var g := h[..n];
    forall i | 0 <= i < n ensures IsEvent(g[i]) && g[i].before == At(start, g, i) {
      assert g[i] == h[i] && IsEvent(h[i]) && h[i].before == At(start, h, i);
    }
  }

  // ---- The climb to the fire valve ----

  /** Event `a` lifted the level to `top`, and it stayed exactly there until event `n`. */
  ghost predicate LastRiseTo(h: seq<Event>, a: nat, n: nat, top: Level) {
    && a < n <= |h|
    && h[a].before.level + 1 == h[a].after.level == top
    && RiseCause(h[a])
    && forall j | a < j < n :: h[j].before.level == top == h[j].after.level
  }

  /** A level of at least two was reached by a rise of one and held since: levels
      from ARMED_IGNITION up cannot be fallen into. */
  lemma {:induction false} FindLastRise(start: Pad, h: seq<Event>, n: nat) returns (a: nat)
    requires IsHistory(start, h) && n <= |h| && start.level <= ARMED_VALVES
    requires At(start, h, n).level >= ARMED_IGNITION
    ensures LastRiseTo(h, a, n, At(start, h, n).level)
    decreases n
  {
    a := n - 1;
    LevelMovesAt(start, h, a);
    if h[a].before.level == h[a].after.level {
      a := FindLastRise(start, h, n - 1);
    }
  }

  /** Where the three rises below an accepted fire-valve command happened. */
  datatype Climb = Climb(toIgnition: nat, toDisconnected: nat, toLaunch: nat)

  ghost predicate IsClimb(h: seq<Event>, c: Climb, n: nat) {
    && LastRiseTo(h, c.toLaunch, n, ARMED_LAUNCH)
    && LastRiseTo(h, c.toDisconnected, c.toLaunch, ARMED_DISCONNECTED)
    && LastRiseTo(h, c.toIgnition, c.toDisconnected, ARMED_IGNITION)
  }

  /** An accepted fire-valve command was reached by exactly the rises 1->2, 2->3, 3->4,
      in that order, with the level constant between them. */
  lemma ClimbHistory(start: Pad, h: seq<Event>, n: nat) returns (c: Climb)
    requires IsHistory(start, h) && start.level <= ARMED_VALVES
    requires n < |h| && Accepted(h[n], ID_FIRE_VALVE)
    ensures IsClimb(h, c, n)
    ensures h[c.toIgnition].before.level == ARMED_VALVES && h[n].before.level == ARMED_LAUNCH
    ensures h[c.toIgnition].cmd == ArmCmd(ARMED_IGNITION)
    ensures h[c.toDisconnected].cmd == ArmCmd(ARMED_DISCONNECTED) || AcceptedOn(h[c.toDisconnected], ID_QUICK_DISCONNECT)
    ensures h[c.toLaunch].cmd == ArmCmd(ARMED_LAUNCH) || AcceptedOn(h[c.toLaunch], ID_IGNITER)
  {
    assert IsEvent(h[n]) && h[n].before == At(start, h, n);
    var top := FindLastRise(start, h, n);
    assert h[top].before == At(start, h, top);
    var mid := FindLastRise(start, h, top);
    assert h[mid].before == At(start, h, mid);
    var low := FindLastRise(start, h, mid);
    c := Climb(low, mid, top);
  }

  // ---- Actuator replay and freezing ----

  /** The truth value of the last acknowledged request for `id`, `off` if there was none. */
  function LastOk(h: seq<Event>, id: byte, off: bool): bool {
    if h == [] then off
    else
      var e := h[|h| - 1];
      if Accepted(e, id) then e.cmd.state != 0 else LastOk(h[..|h| - 1], id, off)
  }

  /** One operation touches an actuator exactly when it acknowledges a request for it. */
  lemma StoredState(e: Event, id: byte)
    requires IsEvent(e) && id < NUM_ACTUATORS
    ensures e.after.acts[id] == if Accepted(e, id) then e.cmd.state != 0 else e.before.acts[id]
    ensures Accepted(e, id) ==> MinLevel(id) <= e.before.level
  {
    match e.cmd
    case ArmCmd(_) =>
    case ConnCmd(_) =>
    case ActCmd(other, state, _) =>
      if other < NUM_ACTUATORS {
        assert Store(e.before, other, state).acts[id] == if id == other then state != 0 else e.before.acts[id];
      }
  }

  /** Each actuator holds what it was last acknowledged to hold, driver failures included. */
  lemma {:induction false} ActuatorReplay(start: Pad, h: seq<Event>, id: byte)
    requires IsHistory(start, h) && id < NUM_ACTUATORS
    ensures At(start, h, |h|).acts[id] == LastOk(h, id, start.acts[id])
  {
    if h != [] {
      var e := h[|h| - 1];
      PrefixHistory(start, h, |h| - 1);
      ActuatorReplay(start, h[..|h| - 1], id);
      assert IsEvent(e) && e.before == At(start, h, |h| - 1);
      StoredState(e, id);
    }
  }

  /** While the level stays at or below `cap`, every actuator that needs more is frozen. */
  lemma {:induction false} Freezing(start: Pad, h: seq<Event>, i: nat, n: nat, cap: Level, id: byte)
    requires IsHistory(start, h) && i <= n <= |h|
    requires id < NUM_ACTUATORS && MinLevel(id) > cap
    requires forall j | i <= j < n :: h[j].before.level <= cap
    ensures At(start, h, n).acts[id] == At(start, h, i).acts[id]
    decreases n
  {
    if i < n {
      Freezing(start, h, i, n - 1, cap, id);
      assert IsEvent(h[n - 1]) && h[n - 1].before == At(start, h, n - 1);
      StoredState(h[n - 1], id);
    }
  }
}
