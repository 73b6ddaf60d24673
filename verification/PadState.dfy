/** The pad server's state object as the code runs it (pad_server/src/state.c,
    pad_server/src/actuator.c), each operation proved against the atomic model. Locks are
    the business of `Threads`; here one thread runs alone. */
module PadState {
  import opened Protocol
  import opened PadModel

  /** Which pair of handlers switches an actuator, and the private data they need: the number
      of a GPIO device, or a PWM device with its channel and duty cycles. */
  datatype Wiring = Gpio(dev: nat) | Pwm(dev: nat, channel: nat, closeDuty: nat, openDuty: nat)

  datatype ActuatorInfo = ActuatorInfo(id: byte, wiring: Wiring)

  type Place = i: int | 0 <= i < NUM_ACTUATORS as int

  /** The actuators in the order in which `padstate_init` initialises them. */
  function Table(i: Place): ActuatorInfo {
    if i == 12 then ActuatorInfo(ID_IGNITER, Gpio(7))
    else if i == 13 then ActuatorInfo(ID_DUMP, Pwm(5, 1, 0x4000, 0x8000))
    else if i == 14 then ActuatorInfo(ID_QUICK_DISCONNECT, Pwm(5, 0, 0x2666, 0x8ccc))
    else ActuatorInfo(i + 1, Gpio(ValvePin(i)))
  }

  /** The GPIO device of the valve at place `i`. */
  function ValvePin(i: Place): nat {
    if i < 7 then i else if i < 11 then 18 - i else 28
  }

  /** Where the table has an actuator. */
  function PlaceOf(id: byte): Place
    requires id < NUM_ACTUATORS
  {
    if id == ID_IGNITER then 12 else if id == ID_DUMP then 13 else if id == ID_QUICK_DISCONNECT then 14 else id - 1
  }

  /** What an actuator's handlers drive: a GPIO device, or one channel of a PWM device. */
  function Output(w: Wiring): (bool, nat, nat) {
    if w.Gpio? then (true, w.dev, 0) else (false, w.dev, w.channel)
  }

  /** The table lists every actuator, exactly once, each with an output of its own. */
  lemma TableIsComplete()
    ensures forall id: byte | id < NUM_ACTUATORS :: Table(PlaceOf(id)).id == id
    ensures forall i: Place :: Table(i).id < NUM_ACTUATORS && PlaceOf(Table(i).id) == i
    ensures forall i: Place | i < 13 :: Table(i).wiring == Gpio([0, 1, 2, 3, 4, 5, 6, 11, 10, 9, 8, 28, 7][i])
    ensures Table(13) == ActuatorInfo(ID_DUMP, Pwm(5, 1, 0x4000, 0x8000))
    ensures Table(14) == ActuatorInfo(ID_QUICK_DISCONNECT, Pwm(5, 0, 0x2666, 0x8ccc))
    ensures forall i: Place, j: Place | i != j :: Output(Table(i).wiring) != Output(Table(j).wiring)
  {
  }

  class Actuator {
    var id: byte
    var state: bool
    var wiring: Wiring

    method Init(id: byte, wiring: Wiring)
      modifies this
      ensures this.id == id && !state && this.wiring == wiring
    {
      this.id := id;
      state := false;
      this.wiring := wiring;
    }

    /** `driver` is what the device driver returned; only -1 counts as failure. */
    method On(driver: int) returns (err: int)
      modifies `state
      ensures if driver == -1 then err == -1 && state == old(state) else err == 0 && state
    {
      err := driver;
      if err == -1 {
        return;
      }
      state := true;
      err := 0;
    }

    method Off(driver: int) returns (err: int)
      modifies `state
      ensures if driver == -1 then err == -1 && state == old(state) else err == 0 && !state
    {
      err := driver;
      if err == -1 {
        return;
      }
      state := false;
      err := 0;
    }

    method Set(newState: bool, driver: int) returns (err: int)
      modifies `state
      ensures if driver == -1 then err == -1 && state == old(state) else err == 0 && state == newState
    {
      if newState {
        err := On(driver);
      } else {
        err := Off(driver);
      }
    }
  }

  class PadState {
    const actuators: seq<Actuator>
    var armLevel: Level
    var connStatus: ConnStatus
    var updateRecorded: bool
    /** How often `update_cond` was signalled. */
    ghost var signals: nat

    ghost predicate Valid()
      reads this, actuators
    {
      && |actuators| == NUM_ACTUATORS as int
      && (forall i | 0 <= i < |actuators| :: actuators[i].id == i)
      && (forall i, j | 0 <= i < j < |actuators| :: actuators[i] != actuators[j])
    }

    /** What the telemetry and control clients can see of the pad. */
    ghost function View(): Pad
      reads this, actuators
      requires Valid()
    {
      PadFields(armLevel, connStatus, States(actuators))
    }

    constructor ()
      ensures Valid() && fresh(actuators)
      ensures View() == InitPad() && !updateRecorded && signals == 0
      ensures armLevel == ARMED_PAD && connStatus == Reconnecting
      ensures forall id: byte | id < NUM_ACTUATORS :: actuators[id].id == id && !actuators[id].state
      ensures forall id: byte | id < NUM_ACTUATORS :: actuators[id].wiring == Table(PlaceOf(id)).wiring
    {
      var cells: seq<Actuator> := [];
      while |cells| < NUM_ACTUATORS as int
        invariant |cells| <= NUM_ACTUATORS as int && fresh(cells)
        invariant forall i, j | 0 <= i < j < |cells| :: cells[i] != cells[j]
      {
        var cell := new Actuator;
        cells := cells + [cell];
      }
      actuators := cells;
      armLevel := ARMED_PAD;
      connStatus := Reconnecting;
      updateRecorded, signals := false, 0;
      new;
      TableIsComplete();
      for i := 0 to NUM_ACTUATORS as int
        invariant |actuators| == NUM_ACTUATORS as int && fresh(actuators)
        invariant forall p, q | 0 <= p < q < |actuators| :: actuators[p] != actuators[q]
        invariant forall k: Place | k < i :: Initialised(Table(k))
        invariant armLevel == ARMED_PAD && connStatus == Reconnecting && !updateRecorded && signals == 0
      {
        var info := Table(i);
        actuators[info.id].Init(info.id, info.wiring);
      }
      forall id: byte | id < NUM_ACTUATORS
        ensures actuators[id].id == id && !actuators[id].state && actuators[id].wiring == Table(PlaceOf(id)).wiring
      {
        assert Initialised(Table(PlaceOf(id)));
      }
    }

    ghost predicate Initialised(info: ActuatorInfo)
      requires |actuators| == NUM_ACTUATORS as int && info.id < NUM_ACTUATORS
      reads this, actuators
    {
      var act := actuators[info.id];
      act.id == info.id && !act.state && act.wiring == info.wiring
    }

    method GetLevel() returns (level: Level)
      ensures level == armLevel
    {
      level := armLevel;
    }

    /** The flag is set and the condition signalled. */
    method SignalUpdate() returns (err: int)
      modifies `updateRecorded, `signals
      ensures err == 0 && updateRecorded && signals == old(signals) + 1
    {
      updateRecorded := true;
      err, signals := 0, signals + 1;
    }

    /** Any step up, ARMED_PAD, and ARMED_VALVES from the firing sequence are granted; an
        update is announced exactly then. */
    method ChangeLevel(newArm: byte) returns (rc: ArmStatus)
      requires Valid()
      modifies `armLevel, `updateRecorded, `signals
      ensures Valid() && (View(), rc) == PadModel.ChangeLevel(old(View()), newArm)
      ensures updateRecorded == (old(updateRecorded) || rc == ArmOk)
      ensures signals == old(signals) + if rc == ArmOk then 1 else 0
      ensures rc == ArmInv <==> newArm > ARMED_LAUNCH
      ensures rc == ArmOk <==> newArm <= ARMED_LAUNCH &&
                                 (newArm == old(armLevel) + 1 || newArm == ARMED_PAD || (newArm == ARMED_VALVES && old(armLevel) >= ARMED_IGNITION))
      ensures armLevel == if rc == ArmOk then newArm else old(armLevel)
    {
      if newArm > ARMED_LAUNCH {
        return ArmInv;
      }
      CodeMovesAreLegal(armLevel, newArm);
      var lvlIncrease := newArm == armLevel + 1 && newArm <= ARMED_LAUNCH;
      var lvlDecreaseFromArmedValves := armLevel == ARMED_VALVES && newArm == ARMED_PAD;
      var lvlDecreaseFromFiringSequence :=
        (newArm == ARMED_VALVES &&
         (armLevel == ARMED_IGNITION || armLevel == ARMED_DISCONNECTED || armLevel == ARMED_LAUNCH)) ||
        newArm == ARMED_PAD;
      if lvlIncrease || lvlDecreaseFromArmedValves || lvlDecreaseFromFiringSequence {
        armLevel := newArm;
      } else {
        return ArmDenied;
      }
      var _ := SignalUpdate();
      rc := ArmOk;
    }

    method SetConnStatus(status: ConnStatus)
      requires Valid()
      modifies `connStatus, `updateRecorded, `signals
      ensures Valid() && View() == Handle(old(View()), ConnCmd(status)).0
      ensures updateRecorded && signals == old(signals) + 1
    {
      connStatus := status;
      var _ := SignalUpdate();
    }

    method GetActState(id: byte) returns (state: Option<bool>)
      requires Valid()
      ensures state == if id < NUM_ACTUATORS then Some(View().acts[id]) else None
    {
      if id >= NUM_ACTUATORS {
        return None;
      }
      state := Some(actuators[id].state);
    }

    /** The level check of an actuation request. */
    method LevelPermits(id: byte) returns (permitted: bool)
      requires id < NUM_ACTUATORS && id != ID_DUMP
      ensures permitted <==> MinLevel(id) <= armLevel
      ensures permitted <==>
                || (ID_XV1 <= id <= ID_XV12 && id != ID_FIRE_VALVE && armLevel >= ARMED_VALVES)
                || (id == ID_QUICK_DISCONNECT && armLevel >= ARMED_IGNITION)
                || (id == ID_IGNITER && armLevel >= ARMED_DISCONNECTED)
                || (id == ID_FIRE_VALVE && armLevel == ARMED_LAUNCH)
    {
      var isSolenoidValve := (id >= ID_XV1 && id <= ID_XV12) && id != ID_FIRE_VALVE;
      var armLvl := GetLevel();
      match armLvl {
        case 0 => permitted := false;
        case 1 => permitted := isSolenoidValve;
        case 2 => permitted := !(!isSolenoidValve && id != ID_QUICK_DISCONNECT);
        case 3 => permitted := !(!isSolenoidValve && id != ID_QUICK_DISCONNECT && id != ID_IGNITER);
        case _ => permitted := true;
      }
    }

    /** The checks of an actuation request: `None` if it is to be carried out. */
    method CheckRequest(id: byte, reqState: byte) returns (refusal: Option<ActStatus>)
      ensures refusal == Some(ActDne) <==> id >= NUM_ACTUATORS
      ensures refusal == Some(ActInv) <==> id < NUM_ACTUATORS && id != ID_DUMP && reqState > 1
      ensures refusal == None <==>
                || id == ID_DUMP
                || (reqState <= 1 && (
                    || (ID_XV1 <= id <= ID_XV12 && id != ID_FIRE_VALVE && armLevel >= ARMED_VALVES)
                    || (id == ID_QUICK_DISCONNECT && armLevel >= ARMED_IGNITION)
                    || (id == ID_IGNITER && armLevel >= ARMED_DISCONNECTED)
                    || (id == ID_FIRE_VALVE && armLevel == ARMED_LAUNCH)))
      ensures if refusal.Some? then Refuses(armLevel, id, reqState, refusal.value) else Permits(armLevel, id, reqState)
    {
      if id >= NUM_ACTUATORS {
        return Some(ActDne);
      }
      if id != ID_DUMP {
        if reqState != 0 && reqState != 1 {
          return Some(ActInv);
        }
        var permitted := LevelPermits(id);
        if !permitted {
          return Some(ActDenied);
        }
      }
      refusal := None;
    }

    /** The level changes a stored actuator asks for: switching on may advance, and
        switching off asks for a move that is never legal from where it is permitted. */
    method AdvanceLevel(id: byte, reqState: byte)
      requires Valid() && id < NUM_ACTUATORS && MinLevel(id) <= armLevel
      modifies `armLevel, `updateRecorded, `signals
      ensures Valid()
      ensures armLevel == if Advances(old(armLevel), id, reqState) then old(armLevel) + 1 else old(armLevel)
      ensures updateRecorded == (old(updateRecorded) || Advances(old(armLevel), id, reqState))
      ensures signals == old(signals) + if Advances(old(armLevel), id, reqState) then 1 else 0
    {
      if id == ID_QUICK_DISCONNECT {
        var level := GetLevel();
        if reqState != 0 && level < ARMED_DISCONNECTED {
          var _ := ChangeLevel(ARMED_DISCONNECTED);
        }
        if reqState == 0 {
          var _ := ChangeLevel(ARMED_IGNITION);
        }
      } else if id == ID_IGNITER {
        var level := GetLevel();
        if reqState != 0 && level < ARMED_LAUNCH {
          var _ := ChangeLevel(ARMED_LAUNCH);
        }
        if reqState == 0 {
          var _ := ChangeLevel(ARMED_DISCONNECTED);
        }
      }
    }

    /** Drives one actuator: only its own state can change, and only if the driver works. */
    method DriveActuator(id: byte, reqState: byte, driver: int) returns (err: int)
      requires Valid() && id < NUM_ACTUATORS
      modifies actuators[id]
      ensures Valid() && (err == 0 <==> driver != -1)
      ensures States(actuators) == if driver == -1 then old(States(actuators)) else old(States(actuators))[id := reqState != 0]
    {
      err := actuators[id].Set(reqState != 0, driver);
    }

    /** `None` stands for the return value -1. Nothing is announced unless the request is
        accepted; an actuation that advances the level announces the level and then itself. */
    method Actuate(id: byte, reqState: byte, driver: int) returns (rc: Option<ActStatus>)
      requires Valid()
      modifies `armLevel, `updateRecorded, `signals, actuators
      ensures Valid() && (View(), ActReply(id, rc)) == Handle(old(View()), ActCmd(id, reqState, driver != -1))
      ensures updateRecorded == (old(updateRecorded) || rc == Some(ActOk))
      ensures signals == old(signals) + Announcements(old(armLevel), id, reqState, rc)
      ensures rc == Some(ActDne) <==> id >= NUM_ACTUATORS
      ensures rc == Some(ActInv) <==> id < NUM_ACTUATORS && id != ID_DUMP && reqState > 1
      ensures rc == Some(ActOk) || rc == None <==>
                || id == ID_DUMP
                || (reqState <= 1 && (
                    || (ID_XV1 <= id <= ID_XV12 && id != ID_FIRE_VALVE && old(armLevel) >= ARMED_VALVES)
                    || (id == ID_QUICK_DISCONNECT && old(armLevel) >= ARMED_IGNITION)
                    || (id == ID_IGNITER && old(armLevel) >= ARMED_DISCONNECTED)
                    || (id == ID_FIRE_VALVE && old(armLevel) == ARMED_LAUNCH)))
      ensures rc == Some(ActOk) ==> driver != -1
      ensures rc == None ==> driver == -1
    {
      hide Handle, MinLevel, Advances, Refuses, Permits, ActReply, States;
      ghost var p := View();
      rc := CheckRequest(id, reqState);
      if rc.Some? {
        RefusalMeetsSpec(p, id, reqState, driver != -1, rc.value);
        return;
      }
      PermittedMeetsSpec(p, id, reqState, driver != -1);
      rc := CarryOut(id, reqState, driver);
    }

    /** A permitted actuation: the actuator is driven, the level may advance, and what was done
        is announced. */
    method CarryOut(id: byte, reqState: byte, driver: int) returns (rc: Option<ActStatus>)
      requires Valid() && Permits(armLevel, id, reqState)
      modifies `armLevel, `updateRecorded, `signals, actuators
      ensures Valid() && rc == if driver == -1 then None else Some(ActOk)
      ensures View() == if driver == -1 then old(View()) else
                          PadFields(if Advances(old(armLevel), id, reqState) then old(armLevel) + 1 else old(armLevel),
                                    old(connStatus), old(View()).acts[id := reqState != 0])
      ensures updateRecorded == (old(updateRecorded) || rc == Some(ActOk))
      ensures signals == old(signals) + Announcements(old(armLevel), id, reqState, rc)
    {
      hide MinLevel, Advances;
      var err := DriveActuator(id, reqState, driver);
      if err != 0 {
        return None;
      }
      AdvanceLevel(id, reqState);
      var _ := SignalUpdate();
      rc := Some(ActOk);
    }
  }

  /** Why a request is refused. */
  predicate Refuses(level: Level, id: byte, st: byte, rc: ActStatus) {
    match rc
    case ActOk => false
    case ActDne => id >= NUM_ACTUATORS
    case ActInv => id < NUM_ACTUATORS && id != ID_DUMP && st > 1
    case ActDenied => id < NUM_ACTUATORS && id != ID_DUMP && st <= 1 && level < MinLevel(id)
  }

  predicate Permits(level: Level, id: byte, st: byte) {
    id < NUM_ACTUATORS && (id == ID_DUMP || st <= 1) && MinLevel(id) <= level
  }

  lemma RefusalMeetsSpec(p: Pad, id: byte, st: byte, drives: bool, rc: ActStatus)
    requires Refuses(p.level, id, st, rc)
    ensures Handle(p, ActCmd(id, st, drives)) == (p, ActReply(id, Some(rc)))
  {
  }

  lemma PermittedMeetsSpec(p: Pad, id: byte, st: byte, drives: bool)
    requires Permits(p.level, id, st)
    ensures Handle(p, ActCmd(id, st, drives)) ==
            if !drives then (p, ActReply(id, None))
            else (PadFields(if Advances(p.level, id, st) then p.level + 1 else p.level, p.conn, p.acts[id := st != 0]),
                  ActReply(id, Some(ActOk)))
  {
  }

  function Announcements(level: Level, id: byte, reqState: byte, rc: Option<ActStatus>): nat {
    if rc != Some(ActOk) then 0 else if Advances(level, id, reqState) then 2 else 1
  }

  function ActReply(id: byte, rc: Option<ActStatus>): Reply {
    match rc
    case Some(s) => ActAck(id, s)
    case None => NoAck
  }

  ghost function States(cells: seq<Actuator>): (s: seq<bool>)
    reads cells
    ensures |s| == |cells| && forall i | 0 <= i < |s| :: s[i] == cells[i].state
  {
    seq(|cells|, i requires 0 <= i < |cells| reads cells => cells[i].state)
  }
}
