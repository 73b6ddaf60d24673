/** The wire vocabulary shared by the pad server and the control client
    (packets/packet.h, pad_server/src/actuator.h, pad_server/src/state.h). */
module Protocol {

  datatype Option<+T> = None | Some(value: T)

  type byte = x: int | 0 <= x < 256

  /** An arming level (`arm_lvl_e`), kept as a number because the code does arithmetic on it. */
  type Level = x: int | 0 <= x <= 4

  const ARMED_PAD: Level := 0
  const ARMED_VALVES: Level := 1
  const ARMED_IGNITION: Level := 2
  const ARMED_DISCONNECTED: Level := 3
  const ARMED_LAUNCH: Level := 4

  const ID_IGNITER: byte := 0
  const ID_XV1: byte := 1
  const ID_FIRE_VALVE: byte := 5
  const ID_XV12: byte := 12
  const ID_QUICK_DISCONNECT: byte := 13
  const ID_DUMP: byte := 14
  const NUM_ACTUATORS: byte := 15

  const TYPE_CNTRL: byte := 0
  const TYPE_TELEM: byte := 1
  const CNTRL_ACT_REQ: byte := 0
  const CNTRL_ACT_ACK: byte := 1
  const CNTRL_ARM_REQ: byte := 2
  const CNTRL_ARM_ACK: byte := 3
  const TELEM_TEMP: byte := 0
  const TELEM_PRESSURE: byte := 1
  const TELEM_MASS: byte := 2
  const TELEM_THRUST: byte := 3
  const TELEM_ARM: byte := 4
  const TELEM_ACT: byte := 5
  const TELEM_CONT: byte := 7
  const TELEM_CONN: byte := 8

  /** The two bytes before every packet body. */
  datatype Header = Header(kind: byte, subtype: byte)

  datatype ConnStatus = Connected | Reconnecting | Disconnected

  datatype ActStatus = ActOk | ActDenied | ActDne | ActInv

  datatype ArmStatus = ArmOk | ArmDenied | ArmInv

  /** What a control client can ask for. */
  datatype Request = Arm(level: byte) | Act(id: byte, state: byte)

  /** What the pad server answers. `NoAck` is the silence after a driver failure. */
  datatype Reply = ArmAck(arm: ArmStatus) | ActAck(id: byte, act: ActStatus) | NoAck

  /** One operation of the controller thread on the pad state. `drives` says that
      the device driver did not return -1. */
  datatype Command =
    | ArmCmd(level: byte)
    | ActCmd(id: byte, state: byte, drives: bool)
    | ConnCmd(status: ConnStatus)

  function ToCommand(r: Request, drives: bool): Command {
    match r
    case Arm(l) => ArmCmd(l)
    case Act(id, st) => ActCmd(id, st, drives)
  }
}
