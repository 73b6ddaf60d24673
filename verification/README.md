# hysim: pad server and control client

A Dafny model of the hybrid rocket ground system in this repository: the pad server that
arms the pad and drives its actuators, the telemetry thread that reports the pad's state,
the controller thread's receive loops, and the hardware control client whose switches
operate them. Each core C file appears in two forms. Its imperative code is a class or
method in the same shape, proved against a pure specification. The properties the design
relies on are lemmas about that specification, over every run.

| file | what it holds |
|---|---|
| `Protocol.dfy` | packet constants, requests, replies, controller commands |
| `PadModel.dfy` | the atomic meaning of one command, and histories of commands |
| `Interlock.dfy` | what any history guarantees: level accounting, the climb to the fire valve, replay, freezing |
| `PadState.dfy` | `padstate_t` and `actuator_t` as classes, proved against `PadModel` |
| `Threads.dfy` | controller and telemetry threads as a small-step system with explicit locks |
| `ThreadInvariants.dfy`, `ThreadTheorems.dfy` | its invariants, and atomicity, refinement and progress |
| `ControlBox.dfy` | the switch table, callback and nested scan loop of the hardware client |
| `Launch.dfy` | client and server joined by a lossless link: the cross-process results |
| `Framing.dfy` | requests on a chunked byte stream, and the server's decoding of it |
| `Controller.dfy` | the accept and receive loops |
| `Telemetry.dfy`, `SensorPacking.dfy`, `Calibration.dfy` | the pad-state message, one round of sensor packets, load-cell calibration |

How the parts meet: `PadModel.Handle` is the one meaning of a command. `PadState`'s methods
compute it, `ThreadTheorems.ThreadsRefineAtomic` shows the two-thread system computes it
under every interleaving, `Controller.Controller.Run` shows the loops apply it to the
decoded requests, and `Interlock` and `Launch` draw the safety conclusions from histories
of it.

Where the code and its comments differ, the code is followed. Switching the quick
disconnect or the igniter off asks for the level below, which `padstate_change_level`
always refuses from where those actuators are permitted, so the level does not move. The
scan loop makes one pass per switch, twenty, although its comment says two. A packet counts
as published when it is handed to `sendmsg`, whose failure the code ignores.

Inputs the code gets from outside are parameters: driver return values, GPIO readings,
network outcomes, sensor samples, the bytes of an unfilled request body, the choice between
signal, time-out and spurious wake-up, and the interleaving itself.

## Model

| member | source | states |
|---|---|---|
| PadModel.SwitchIsThreshold | pad_server/src/state.c:256-301 | the permission switch over levels is exactly one minimum level per actuator: valves from ARMED_VALVES, quick disconnect from ARMED_IGNITION, igniter from ARMED_DISCONNECTED, fire valve at ARMED_LAUNCH |
| PadModel.CodeMovesAreLegal | pad_server/src/state.c:156-174 | the three computed conditions allow exactly: one step up, down to ARMED_PAD, or from the firing sequence down to ARMED_VALVES |
| PadModel.ActReplies | pad_server/src/state.c:238-348 | for every level, id, state and driver outcome, when an actuation is answered ACT_OK, ACT_DENIED, ACT_DNE, ACT_INV, or not at all |
| PadModel.ActEffects | pad_server/src/state.c:303-348 | an accepted actuation sets its own actuator only, and moves the level only from ARMED_IGNITION by the quick disconnect and from ARMED_DISCONNECTED by the igniter; any other leaves the pad as it was |
| PadModel.ArmReplies | pad_server/src/state.c:142-192 | an arming request is invalid exactly above ARMED_LAUNCH, granted exactly for one step up, ARMED_PAD, or ARMED_VALVES from the firing sequence, and otherwise denied with the pad unchanged |
| PadModel.HistoryIsFold | pad_server/src/controller.c:342-432 | a history of operations has the final pad and the replies of folding the atomic operation over its commands |
| Interlock.LevelMoves | pad_server/src/state.c:142-192 | a rise is by one and has one of three causes; only an accepted arming request lowers the level, to ARMED_PAD or ARMED_VALVES |
| Interlock.LevelAccounting | pad_server/src/state.c:147-181 | over any run, rises plus the starting level equal the current level plus the total amount fallen |
| Interlock.FindLastRise | pad_server/src/state.c:158-176 | a level from ARMED_IGNITION up was reached by a rise of one and held ever since |
| Interlock.ClimbHistory | pad_server/src/state.c:271-344 | an accepted fire-valve command follows exactly the rises 1 to 2, 2 to 3, 3 to 4, each with its possible causes, in order, with no fall between |
| Interlock.StoredState | pad_server/src/actuator.c:47-83 | an operation changes an actuator only by acknowledging a request for it, which its level permits |
| Interlock.ActuatorReplay | pad_server/src/actuator.c:47-83 | each actuator's state is the truth value of its last acknowledged request, driver failures included |
| Interlock.Freezing | pad_server/src/state.c:252-312 | while the level stays at or below a cap, every actuator that needs more does not change |
| PadState.Actuator.Init | pad_server/src/actuator.c:34-40 | an initialised actuator has its id, its handlers and their private data, and is off |
| PadState.Actuator.On | pad_server/src/actuator.c:47-55 | the state turns on unless the driver returns -1, and then it is untouched |
| PadState.Actuator.Off | pad_server/src/actuator.c:62-70 | the state turns off unless the driver returns -1, and then it is untouched |
| PadState.Actuator.Set | pad_server/src/actuator.c:77-83 | the state becomes the requested one unless the driver returns -1 |
| PadState.PadState.constructor | pad_server/src/state.c:63-84 | initialisation reaches every actuator, each off and wired as the table says, at ARMED_PAD and reconnecting |
| PadState.TableIsComplete | pad_server/src/state.c:24-56 | the initialisation table names each of the fifteen actuators exactly once, and no two drive the same output |
| PadState.PadState.SignalUpdate | pad_server/src/state.c:123-134 | an update is recorded and the condition signalled once |
| PadState.PadState.ChangeLevel | pad_server/src/state.c:142-192 | new state and status are those of the atomic arming request, which is granted, denied or invalid exactly when the levels say so; one announcement is made exactly when it is granted |
| PadState.PadState.SetConnStatus | pad_server/src/state.c:198-217 | only the connection status changes, and it is announced once |
| PadState.PadState.GetActState | pad_server/src/state.c:225-229 | the stored state of an existing actuator, an error for any other id |
| PadState.PadState.LevelPermits | pad_server/src/state.c:256-301 | the switch permits each actuator exactly from its level up, the level named for each |
| PadState.PadState.DriveActuator | pad_server/src/state.c:303-312 | one actuator takes the requested state if its driver works; no other changes |
| PadState.PadState.AdvanceLevel | pad_server/src/state.c:314-344 | the level rises by one, and is announced, exactly for the advancing actuations, and otherwise stays unannounced |
| PadState.PadState.Actuate | pad_server/src/state.c:238-348 | new state and reply are those of the atomic actuation, each kind of reply given exactly when level, id, state and driver call for it; it is announced exactly when accepted, twice if it advances the level |
| ThreadInvariants.EntryMeetsSpec | pad_server/src/state.c:238-348 | the code's path from a command's entry point, run alone, is the atomic operation, re-reads and refused downward moves included |
| ThreadInvariants.CtlKeepsCommand | pad_server/src/state.c:142-192 | every controller step keeps the command on its way to the atomic result |
| ThreadInvariants.CtlKeepsLocks | pad_server/src/state.c:123-134 | controller steps keep each lock held exactly where the program counters say |
| ThreadInvariants.CtlKeepsSnapshot | pad_server/src/telemetry.c:634-670 | controller steps leave the packet fresh in every taken field unless an announcement is due |
| ThreadInvariants.CtlKeepsUpdate | pad_server/src/state.c:176-189 | an unannounced store stays due until the flag is set |
| ThreadInvariants.TelKeepsSnapshot | pad_server/src/telemetry.c:634-670 | each field taken into the packet is current when taken |
| ThreadInvariants.TelKeepsUpdate | pad_server/src/telemetry.c:690-707 | the flag is cleared only after a packet that is current unless an announcement is due |
| ThreadInvariants.RunInv | pad_server/src/telemetry.c:685-709 | every state of every interleaving satisfies all the invariants |
| ThreadTheorems.CtlKeepsExplanation | pad_server/src/state.c:303-346 | a controller step that outdates the packet leaves an earlier state of the same send that explains it |
| ThreadTheorems.Explanation | pad_server/src/telemetry.c:634-668 | at any moment of a send, some state since it began agrees with all fields taken and all fields still to take |
| ThreadTheorems.SendShowsOnePad | pad_server/src/telemetry.c:634-670 | every packet about to be published equals the real pad state at one instant of its own send |
| ThreadTheorems.SnapshotAtomicity | pad_server/src/telemetry.c:634-670 | what was last published is the packet of the latest send, and equals the real pad state at one instant of that send |
| ThreadTheorems.PacketsInOrder | pad_server/src/telemetry.c:685-709 | the published packets are the pad's states at ever later instants, one inside each send, so none goes back in time or forgets a finished command shown before |
| ThreadTheorems.PadIsBoundaryOrHalfway | pad_server/src/state.c:303-346 | the pad is always at a command boundary or halfway through an advancing actuation |
| ThreadTheorems.PublishedIsBoundaryOrHalfway | pad_server/src/telemetry.c:634-670 | at one instant of its own send, a published packet shows the fold of whole commands, or a special actuator on with the level it had before |
| ThreadTheorems.NoLostUpdate | pad_server/src/telemetry.c:685-709 | with no update recorded and none still to announce, the last packet equals the current pad |
| ThreadTheorems.NoLostWakeup | pad_server/src/telemetry.c:693-697 | telemetry sleeps on a recorded update only while the controller holds the mutex about to signal |
| ThreadTheorems.LogIsIssued | pad_server/src/controller.c:306-432 | the commands finished and in progress are exactly those taken up, in order |
| ThreadTheorems.ThreadsRefineAtomic | pad_server/src/state.c:238-348 | under every interleaving the replies, and the pad between commands, are the fold of the atomic operation over the commands taken up |
| ThreadTheorems.InterlockUnderThreads | pad_server/src/state.c:271-344 | the climb to an accepted fire-valve command holds of the log of every interleaved run |
| ThreadTheorems.NoDeadlock | pad_server/src/state.c:126-132 | in every reachable state a thread that cannot step waits for a lock whose holder can, also if readers yield to queued writers |
| ThreadTheorems.WaitsAreBounded | pad_server/src/telemetry.c:690-707 | a blocked controller is freed within 25 telemetry steps, a blocked telemetry thread within 4 controller steps |
| ThreadTheorems.RecordedUpdateIsPublished | pad_server/src/telemetry.c:690-707 | while the controller pauses outside its locks, a recorded and announced update is sent, as the current pad, within 26 telemetry steps |
| ThreadTheorems.HeartbeatIsSent | pad_server/src/telemetry.c:685-709 | from every reachable state between two sends, with the controller paused outside its locks and whether or not an update is recorded, a timed-out wait leads to a completed send of the current pad, within 25 telemetry steps from the wait and 29 in any case |
| ThreadTheorems.SendHasReason | pad_server/src/telemetry.c:693-707 | every packet was preceded, since the packet before it, by an update recorded by the controller or by a wait that timed out |
| ThreadTheorems.SignalsAreAnnouncements | pad_server/src/state.c:123-134 | over every interleaved run the condition has been signalled once for each granted arming request, connection change and accepted actuation, and once more for each level an actuation advanced |
| ControlBox.ControlBox.constructor | control_client/src/control_client_main.c:49-76 | the table holds its twenty switches, all off |
| ControlBox.TableListed | control_client/src/control_client_main.c:49-98 | the id and kind at every place of the table, and that all but the switches of ARMED_PAD, ARMED_DISCONNECTED and ARMED_LAUNCH have an input |
| ControlBox.RequestsListed | control_client/src/switch.c:88-110 | what every switch asks for when turned on and off, 255 below ARMED_PAD included |
| ControlBox.ControlBox.SwitchCallback | control_client/src/switch.c:68-120 | the switch changes first, one request for its new state goes out, and the return code is the error of a failed send or receive, or EPERM, ENODEV, EINVAL or 0 by the status received |
| ControlBox.ControlBox.Visit | control_client/src/control_client_main.c:348-431 | one switch visit does what the specification of a visit says |
| ControlBox.VisitActsIff | control_client/src/control_client_main.c:348-405 | a visit changes its switch, and sends its request, exactly when the input was read, disagrees with the switch, and is not the ignition switch turned off without the key |
| ControlBox.ControlBox.Scan | control_client/src/control_client_main.c:346-433 | the nested loops leave the switches, requests and reconnect decision of four hundred specified visits |
| ControlBox.AcksKeepConnection | control_client/src/control_client_main.c:427-431 | no acknowledgement, a refusal included, makes the client reconnect |
| ControlBox.LostIffConnectionFails | control_client/src/control_client_main.c:346-433 | a scan ends in a reconnection if and only if sending a request or receiving its answer failed with one of the three connection errors, and never when every request was answered |
| ControlBox.KeyGuard | control_client/src/control_client_main.c:391-405 | for any readings and responses, ARMED_VALVES is never requested with the arming key off |
| ControlBox.FirstPass | control_client/src/control_client_main.c:346-433 | with stable inputs the first pass settles every switch, with exactly one request for each that changed |
| ControlBox.ScanQuiesces | control_client/src/control_client_main.c:346-433 | later passes send nothing, and every switch agrees with its pin except an ignition switch held on for want of the key |
| Launch.VisitMatchesScan | control_client/src/control_client_main.c:348-431 | the composed client's visit changes the same switch, sends the same request and returns the same code as the scan loop's |
| Launch.RunInv | control_client/src/switch.c:83-110 | link, keys, history and state agreement hold in every state of every run of client and server |
| Launch.CrossProcessInvariant | control_client/src/control_client_main.c:387-405 | between exchanges the level is at least ARMED_VALVES exactly when the key is on, and at least ARMED_IGNITION only with the ignition switch on |
| Launch.AckAnswersRequest | control_client/src/switch.c:38-97 | an acknowledgement about to be read is the reply to the client's own latest request, of its kind and id |
| Launch.ExchangeReportsReply | control_client/src/switch.c:12-64 | each finished callback returned 0, EPERM or EAGAIN exactly when the server granted, refused or did not answer its request; nothing the box asks for is called invalid or unknown |
| Launch.ArmingReports | control_client/src/switch.c:99-110 | an arming switch is told 0 exactly when its level was a legal move from the pad's level, and EPERM otherwise |
| Launch.AcknowledgedStateAgreement | control_client/src/switch.c:38-97 | between exchanges each actuator is in the state of the last exchange for it that returned 0, whatever was denied or failed between |
| Launch.ActuationInterlock | control_client/src/control_client_main.c:346-405 | every accepted actuation but the dump valve's was handled while the key was on, and the quick disconnect's, igniter's and fire valve's while the ignition switch was on too |
| Launch.LaunchInterlock | control_client/src/control_client_main.c:346-405 | a fire-valve command is accepted only while both switches are on, after a quick-disconnect-on and then an igniter-on since the last rise to ARMED_IGNITION |
| Framing.ReadFullFacts | pad_server/src/controller.c:310-331 | the header loop yields the next bytes of the stream however it was cut, or nothing if it ended |
| Framing.WholeRequests | pad_server/src/controller.c:306-396 | requests whose bodies are not split are decoded as they are, and decoding goes on with exactly the bytes that follow them |
| Framing.RoundTrip | pad_server/src/controller.c:306-396 | any chunking that splits no two-byte body decodes to exactly the encoded requests, for every byte value, the level 255 that 0 minus 1 wraps to included, also if the client is gone before its next header is whole |
| Framing.CutRequestIsCompleted | pad_server/src/controller.c:333-396 | a client gone after a whole header leaves one more request to be acted on, its missing bytes those of the stack |
| Framing.SplitGarbles | pad_server/src/controller.c:354-357 | the first request with a split body is decoded with whatever the stack held as its second byte, so some residue changes it |
| Framing.FramingIsExact | pad_server/src/controller.c:354-396 | for whole requests and any beginning of another, decoding is right for every stack residue if and only if no two-byte body is split and less than a header of the last was sent |
| Framing.WireLayout | packets/packet.h:11-69 | the bytes of both kinds of request, and that the server reads exactly those bytes as that request |
| Framing.OtherHeaderSkipped | pad_server/src/controller.c:342-432 | any other two header bytes are skipped alone, and what follows is read as a header |
| Controller.Receiver.Recv | pad_server/src/controller.c:250-252 | at most the asked number of bytes of the next piece, nothing after the end |
| Controller.Receiver.ReadHeader | pad_server/src/controller.c:310-331 | the loop ends with a whole header or with the connection, as specified |
| Controller.Controller.SetConn | pad_server/src/controller.c:301-338 | connecting and reconnecting change the connection status and neither the level nor any actuator |
| Controller.Controller.Accept | pad_server/src/controller.c:142-194 | an attempt succeeds or returns the error number of the call that failed, and opens a client socket exactly when `accept` did |
| Controller.Controller.ClientDisconnect | pad_server/src/controller.c:220-232 | an open client socket is closed once |
| Controller.Controller.HandleAct | pad_server/src/controller.c:354-388 | the decoded actuation is carried out, recorded, and answered, refusals included; nothing is sent exactly when it was permitted and its driver returned -1 |
| Controller.Controller.HandleArm | pad_server/src/controller.c:390-417 | the decoded arming request is carried out, recorded and answered by exactly one acknowledgement |
| Controller.Controller.ReceiveOne | pad_server/src/controller.c:308-432 | one turn takes at most one request, the next one decoded, and shortens the stream |
| Controller.Controller.Serve | pad_server/src/controller.c:301-340 | a connection carries out exactly its decoded requests and ends closed and reconnecting |
| Controller.Controller.Run | pad_server/src/controller.c:288-434 | over any script the pad goes through exactly the decoded requests between connection changes, and every loop head sees one socket and CONN_CONNECTED inside, none and CONN_RECONNECTING outside; every socket opened is closed |
| Controller.LogIsFold | pad_server/src/controller.c:342-432 | the pad and the packets sent are those of the fold of the atomic operation over the recorded commands |
| Controller.AcksAreReplies | pad_server/src/controller.c:354-417 | the packets sent are all and only the recorded replies other than silences, in order, so as many as commands less silences |
| Controller.SilenceIsDriverFailure | pad_server/src/controller.c:361-385 | the silent operations are exactly the connection changes and the permitted actuations whose driver returned -1 |
| Controller.OpenedCounts | pad_server/src/controller.c:187-193 | the client sockets opened by a script are as many as its successful `accept` calls, those whose keep-alive options then failed included |
| Controller.EncodedSession | control_client/src/switch.c:72-110 | a connection carrying encoded requests with no split body, ending before another header is whole, amounts to those requests |
| Telemetry.SendPadState | pad_server/src/telemetry.c:604-671 | read through its iovecs, the message carries the headers, time and numbers of the level, the connection and every actuator once, and tells a client just these |
| Telemetry.TellsOnePad | pad_server/src/telemetry.c:604-671 | a message determines the pad it tells of |
| SensorPacking.FilledIsOrdered | pad_server/src/telemetry.c:363-520 | each successful reading is listed once, in channel-major order, then mass, then temperatures |
| SensorPacking.FilledIff | pad_server/src/telemetry.c:363-520 | a slot is filled exactly when its device is open or available and its read or fetch succeeded |
| SensorPacking.SlotSensor | pad_server/src/telemetry.c:289-326 | the kind of measurement and the sensor of every slot |
| SensorPacking.SensorsAreDistinct | pad_server/src/telemetry.c:340-531 | no two measurements of one packet tell of the same sensor |
| SensorPacking.SampleOfSlot | pad_server/src/telemetry.c:410-520 | each measurement carries the time and value of its own sample, times wrapping at 32 bits |
| SensorPacking.FilledBound | pad_server/src/telemetry.c:288-345 | at most thirteen measurements, so every index is within the arrays |
| SensorPacking.Packet.PackAdc | pad_server/src/telemetry.c:392-465 | one channel adds its reading if it has one and nothing otherwise |
| SensorPacking.Packet.Pack | pad_server/src/telemetry.c:340-531 | for every pattern of failures the arrays hold exactly the listed readings, headers matching bodies and iovecs leading to both; a packet is sent exactly when some reading succeeded |
| Calibration.CalibrationBound | pad_server/src/sensors.c:129-139 | the truncating sum is less than ten from the mean of its ten readings, and not above it if none is negative |
| Calibration.BoundIsTight | pad_server/src/sensors.c:129-139 | no bound smaller than ten holds |
| Calibration.ReadingsOfOne | pad_server/src/sensors.c:117-142 | every successful fetch is a reading, whatever its value, and no failed one is |
| Calibration.ZeroPointNext | pad_server/src/sensors.c:129-139 | a tenth of each reading is added to what was kept, and the sum truncated toward zero |
| Calibration.MassSensor.Calibrate | pad_server/src/sensors.c:117-142 | for any interleaving of failed fetches, exactly ten readings are flushed and the next ten accumulated, ending with the twentieth and less than ten from the mean |

## Left out

- Socket set-up, keep-alive options, multicast, USB and board initialisation, command-line parsing, signal handlers and thread cancellation: platform plumbing.
- Failures of lock, mutex, condition-signal and `close` calls: assumed to succeed, so the -1 results of the getters do not arise.
- PadState.PadState.SignalUpdate: does not model the mutex, nor an error of locking or signalling; `Threads` has the mutex and the wake-up, and the calls are assumed to succeed.
- Controller.Controller.Accept: does not model which calls an attempt makes before the one that decides it (the listening again, and the time-out set only then), because their outcomes are the script's.
- GPIO and PWM drivers: each is its return value; an actuator's handlers are named by the device they drive.
- Lost or timed-out exchanges and restarts of one side in `Launch`: the link delivers, each two-byte acknowledgement arrives in the one `recv` that asks for it (control_client/src/switch.c:42), and the client gives up only on an acknowledgement the server will never send because a driver failed.
- The desktop keyboard client, which can toggle arming switches the hardware box lacks.
- `PadState` methods run on one thread; locks, signalling and interleaving are modelled in `Threads` on values.
- Unbounded accept, receive and calibration loops: they run over a finite script of what the network or the sensor does.
- The ADC trigger calls, which only log their failures, and the voltage and thermistor conversions, whose result is an input of `SensorPacking`.
- IEEE floating-point rounding in the calibration: arithmetic is over reals.
- Mock and random telemetry, the telemetry client, help text and logging.
