# OPC-UA-mock: verification of the plant's control path

The repository simulates a small plant: a PLC scan loop over a conveyor and a
CNC, a Modbus server on the PLC's image tables, a gateway that polls those
tables and publishes them northbound, a client, and a rogue second master. This
project models the path a command or a value takes through it and proves what
the design relies on.

- `handshake.dfy`, `soundness.dfy`, `contention.dfy`, `invoke.dfy`,
  `session.dfy`: the sequence-numbered command handshake as an event system in
  which every Modbus transaction and every scan is one atomic step; theorems over
  all runs and all interleavings; `CommandHandshake.invoke` and
  `RogueMaster.command` as programs whose every execution is such a run, and the
  theorem of exactly-once execution for a gateway that issues one command after
  another, down to the status its OPC UA caller is told.
- `scan.dfy`, `frame.dfy`, `plc.dfy`, `points.dfy`, `loader.dfy`, `wire.dfy`:
  the scan as a pure step, the `Plc` object that merges dictionaries proved to
  be that step, the loader's overlap check its frame rests on, and the proof
  that transactions and scans on the real registers are events of the handshake.
- `codec.dfy`, `binary32.dfy`, `numbers.dfy`: words, bytes, scaling, rounding
  and IEEE 754 binary32 (section 3.4), with NaN, the infinities and -0.
- `conveyor.dfy`, `cnc.dfy`, `plant.dfy`, `sampling.dfy`, `cycleview.dfy`: the
  machines, and what holds over whole runs of the plant while any masters write
  any registers.
- `nanramp.dfy`, `floatplant.dfy`, `rescaled.dfy`: the same plant with NaN in the
  ramp registers, and with a scale that the loader accepts and the scan does not
  survive.
- `joint.dfy`: registers, machines and masters together; each of their runs is a
  run of the plant and a run of the handshake, and the two theories compose.
- `gateway.dfy`, `deadband.dfy`, `cadence.dfy`: the gateway's publish state and
  write check, the client's deadband filter, and the scan loop's deadlines.
- `deployment.dfy`, `shipped.dfy`, `moving.dfy`: the shipped contract and machine
  start where the theorems about runs start, and runs from there that meet the
  hypotheses of the recorded cycle and of the acknowledged STOP, the latter on a
  conveyor that has first come up to its fastest speed.
- `image.dfy`, `model.dfy`, `commands.dfy`, `wrappers.dfy`: the image tables,
  the contract, its numbers, and Option/Result.

## Assumptions

- Invokes of one gateway are serial: its lock is held per transaction, not per
  invoke.
- A gateway transaction takes effect and replies, or does neither; the transport
  may repeat the last FC16 write at any later time. Commands of the rogue do not
  repeat. `Contention.RogueKeepsCount` and `Contention.RogueIsSeenUnlessItWraps`
  allow only repeats that find their own command still in the block;
  `Contention.RefusedIffLastIsForeign` allows any.
- Where the handshake's soundness is claimed nobody writes the acknowledgement
  block (README.md:116-123 explains why nothing could be claimed otherwise). The
  at-most-once-per-write theorems allow it.
- Python's floats are exact reals, except at the registers, where binary32 is
  modelled bit by bit.
- A contract gives the PLC its named signals and layout fields, both parameters in
  the holding table, and state names that are the CNC's and all different. The
  theorems about runs are for the types of the shipped contract.

## What turned out false, and the exact condition

- A refused invoke's resync does not always let a retry through. With nobody else
  about, the retry is refused again exactly when a scan executed something in
  between (`Contention.RetryIsRefusedIff`), which happens whenever a command was
  pending at the refusal and a scan comes first, and after every first refusal of
  a lone gateway a command is pending (`Contention.FirstRefusalIffPending`).
  `Contention.ARetryCanBeRefused` is such a run. The attempt after that is never
  refused.
- A return of `invoke` after an earlier `CommandContended` need not be genuine:
  `Contention.AfterResyncAReturnCanBeStale` is a run of one gateway alone in
  which START returns OK and never runs. `Soundness.ReturnIsGenuineIff` gives
  the exact condition over all runs without another master.
- The first `CommandContended` of a lone gateway can also follow an invoke whose
  poll failed on the link: `Contention.AFailedPollCanContend` is a run without a
  timeout. `Contention.FirstRefusalIffPending` is the exact condition.
- A cycle's transitions are not each recorded once when polls fail: a failed poll
  between two good ones of one state records its transition again
  (`GatewayServer.ABadPollRestamps`). `CycleView.CycleIsRecorded` says what is
  always recorded and gives the exact condition for once.
- The overlap check refuses an empty block inside a signal's span although no
  register is claimed twice: `Loader.EmptyBlockCanBeRefused`;
  `Loader.OverlapCheckIsExact` is what it decides.
- A second master's commands do not always show at the gateway's next read: when
  the transport repeats the gateway's last write after them, that command is
  executed again and leaves the number the gateway expects
  (`Contention.ARepeatHidesTheRogue`, seven events).
  `Contention.RefusedIffLastIsForeign` is the exact condition, over any masters
  and any repeats.
- The clamp on RampTime lets NaN through (`Scan.ClampHoldsIff`), and a client can
  write one (`ShippedRuns.ANaNCanBeWritten`); `ShippedRuns.RampIsNaNIff` is the
  condition on the two registers. The scan that takes it completes, and no scan
  after it does (`FloatPlants.ANaNStopsThePlant`);
  `FloatPlants.ScansCompleteIff` says of every run which scans complete.
- An encode in the scan can raise. Scales are not checked
  (`Rescaled.ScalesAreNotChecked`); with the position's at 2^-128 the shipped
  contract is still accepted (`Rescaled.RescaledTags`) and a plant one metre along
  raises (`Rescaled.APositionCanRaise`). Of the three encodes only the position's
  can, exactly from halfway past the largest binary32
  (`PlantRuns.OnlyThePositionCanFail`). At the shipped scale no run gets there for
  an explicit number of scans (`PlantRuns.NoScanRaisesBefore`).
- A client write that the register cannot hold is not always answered with
  BadOutOfRange. NaN or an infinity, which a client can send to SpeedSetpoint, a
  Double over an unsigned 16-bit register, raises
  (`GatewayServer.ASetpointCanRaise`). `GatewayServer.WriteRaisesIff` is the exact
  condition over every mapping and every value: what escapes is a value that is
  not a number at an integer register, and one at or beyond halfway past the
  largest binary32 at a float register. The latter cannot happen at RampTime, a
  node of type Float at scale 1 (`GatewayServer.AFloatNeverRaises`); a node of
  type Double over binary32, which no shipped signal is, can be sent 2^128
  (`GatewayServer.ADoubleCanRaise`).
- The call behind a command can raise, although it is meant to return a status
  always: an ack_result of no AckResult makes invoke raise ValueError, which nothing
  catches. `Sessions.AForgedAnswerEscapes` is a run with a forged acknowledgement of
  7; `Sessions.StatusTellsTheEnd` is the exact condition, and
  `Sessions.NothingEscapes` says it takes a write to the ack block.

## Model

| member | source | states |
|---|---|---|
| Soundness.ReturnedInvokeRanExactlyOnce | src/gateway/commands.py:48-96 | From a fresh plant with no other writer, under any scans, link failures, timeouts and retransmissions, until the first CommandContended: every invoke that returns had its own command executed exactly once, between its write and its return, never again before the next write, and returns that execution's result |
| Soundness.ReturnIsGenuineIff | src/gateway/commands.py:53-94 | With no other writer, in all runs, after contention too: a returned invoke's own command ran exactly once if and only if no scan executed anything between its read and its write; otherwise it never ran and the result is that of the command waiting at the read |
| Soundness.ReturnReportsAnExecution | src/gateway/commands.py:67-94 | With any other masters that leave the ack block alone: a return means a scan since the read executed a command of that number, and the result is the latest execution's |
| Soundness.UndisturbedReturnIsGenuine | src/gateway/commands.py:67-94 | If the block was quiescent at the read and nobody else wrote in the window, that execution ran this invoke's own command, once, after its write |
| Soundness.GatewayInvHolds | src/gateway/commands.py:67-85 | In every state of every run without other masters a waiting command carries the successor of the acknowledged number |
| Soundness.CleanInvHolds | src/gateway/commands.py:55-85 | Until the first contention the issued number is the one in the command block, and a write is prepared only on a quiescent block |
| Contention.FirstRefusalIffPending | src/gateway/commands.py:55-65 | With no other writer the first CommandContended is raised exactly when the gateway's own last command is still unexecuted, and that command's invoke gave up waiting |
| Contention.FirstRefusalFollowsATimeout | src/gateway/commands.py:83-96 | If no transaction has failed before, that invoke is the immediately preceding one and ended in CommandTimeout |
| Contention.RetryIsRefusedIff | src/gateway/commands.py:57-65 | A refused invoke writes no register; with nobody else about the retry is refused again exactly when a scan executed something in between, so only if a command was pending, and then leaves nothing pending |
| Contention.ThirdAttemptIsNotRefused | src/gateway/commands.py:57-59 | After a second refusal the next undisturbed attempt is not refused |
| Contention.RetryGoesThrough | src/gateway/commands.py:57-59 | From any refusal, an undisturbed retry before whose write no scan executes anything is not refused, and its first good poll after a scan returns its own single execution |
| Contention.RetryIsGenuineIff | src/gateway/commands.py:57-94 | With no other master a retry that returns is genuine exactly when no scan executed anything between the refusal and its write |
| Contention.ARetryCanBeRefused | src/gateway/commands.py:57-65 | A concrete run of one gateway alone whose undisturbed retry is refused again |
| Contention.AFailedPollCanContend | src/gateway/commands.py:55-65 | A concrete run of one gateway alone, without a timeout, whose first refusal follows a failed poll |
| Contention.RogueKeepsCount | src/rogue/master.py:43-54 | However one rogue's reads, its writes, scans and repeats that find their own command still in the block interleave, ack_seq is the start plus the executed commands modulo 65536 |
| Contention.RogueIsSeenUnlessItWraps | src/gateway/commands.py:55-65 | After such an interleaving the next invoke is refused exactly when the number of executed commands is not a multiple of 65536 |
| Contention.RefusedIffLastIsForeign | src/gateway/commands.py:55-65 | Between two invokes, with any masters that leave the ack block alone and any repeats at any time: the next read is refused exactly when something was executed and the command executed last does not carry the number issued last |
| Contention.ARepeatHidesTheRogue | src/gateway/commands.py:55-65 | A concrete run in which a rogue START and then a repeated STOP are executed and the next read is not refused |
| Contention.AfterResyncAReturnCanBeStale | src/gateway/commands.py:57-69 | A concrete run of one gateway alone: after a resync START reuses the number of the waiting STOP and returns OK without ever running |
| Handshake.ArgumentSurvives | src/gateway/commands.py:78-79 | The two argument words recombine to the argument modulo 2^32, negative arguments included |
| Handshake.ScanSettles | src/plc/scan.py:109-136 | Every scan ends with cmd_seq equal to ack_seq and leaves the command block alone |
| Handshake.ExecutionsMapToWrites | src/plc/scan.py:109-136 | Whatever any masters write, the ack block included: each execution is caused by a write to a seq register since the previous scan, and no two share one |
| Handshake.AtMostOncePerWrite | src/plc/scan.py:109-136 | The same as a count over any stretch of any run |
| Masters.CommandHandshake.Invoke | src/gateway/commands.py:48-96 | For every schedule of other parties and failures the program's execution is a run of the event system: the Invoke event, then only the gateway's own steps and the schedule's events, up to the event that decides its outcome; and the outcome is what that event tells: result, refusal with both numbers, timeout or failed transaction, the last never where no transaction fails |
| Masters.CommandHandshake.ReadAndNumber | src/gateway/commands.py:53-69 | The read, the check and the numbering, as steps of that run |
| Masters.CommandHandshake.WriteCommand | src/gateway/commands.py:71-85 | The block write and the recording of the issued number once it returned |
| Masters.CommandHandshake.AwaitAck | src/gateway/commands.py:87-96 | The polling loop, likewise; a link error only where a poll fails, and a timeout only with this number and after every poll succeeded |
| Masters.RogueMaster.Command | src/rogue/master.py:43-54 | The rogue's read and write around anything else, numbered one past its read modulo 65536, as a run |
| Masters.LeadsIsARun | src/gateway/commands.py:48-96 | What the programs do is a run in the sense of the theorems above |
| Sessions.InvokeEach | src/gateway/server.py:326-350 | A gateway issuing any number of commands one at a time: one run, made of one stretch per invoke |
| Sessions.ReturnedCallRanExactlyOnce | src/gateway/commands.py:48-96 | Of that program, on a fresh plant without another master: every call that returns with none refused before had its own command executed exactly once within its stretch and returns what that execution answered |
| Sessions.EndsForItsReason | src/gateway/commands.py:48-96 | An invoke ends in a timeout exactly at the deadline, a link error exactly at a failed transaction, a refusal exactly at a read that shows another number than the last issued, with both; and otherwise with the acknowledged result |
| Sessions.ATimeoutSawNoAnswer | src/gateway/commands.py:83-96 | A timeout names the number this invoke wrote, and no good poll since showed it |
| Sessions.AnUnansweredInvokeTimesOut | src/gateway/commands.py:83-96 | If every transaction succeeds and no scan answers, an uncontended invoke ends in a timeout and nothing else |
| Sessions.NextSeqMoves | src/gateway/commands.py:35-36 | Numbers run from 1 to 65535 and over to 1, and the next is never the current one |
| Sessions.CallersAreToldTheTruth | src/gateway/server.py:326-350 | From the OPC UA call to the machine, on a fresh plant without another master: a call answered before any refusal had its command executed once, and its status is Good, BadOutOfRange or BadInvalidState exactly as that scan found the code and the machine |
| Sessions.StatusTellsTheEnd | src/gateway/server.py:326-350 | Every status as an if and only if: which event ended the invoke, and what ack_result held |
| Sessions.NothingEscapes | src/gateway/server.py:326-350 | While nobody writes the ack block no call raises or tells of a busy PLC |
| Sessions.AForgedAnswerEscapes | src/gateway/commands.py:92 | A concrete run in which a forged ack_result makes a call raise |
| WireLink.ScanIsAnEvent | src/plc/scan.py:104-136 | One scan of the registers is one Scan event of the handshake |
| WireLink.BlockWriteIsAnEvent | src/gateway/poller.py:98-99 | write_block puts exactly the four fields into the block, whatever the layout's order, and touches nothing of the ack block |
| WireLink.BlockWriteIsAccepted | src/plc/modbus_server.py:65-75 | The gateway's block write is never refused by the data store |
| WireLink.BlockReadIsTheView | src/gateway/poller.py:94-96 | read_block of the ack block is never refused, and its words under ack_seq and ack_result are the acknowledged number and result |
| WireLink.OtherWritesAreEvents | src/plc/modbus_server.py:65-75 | Any write that stays off the ack block is a foreign write to the command block; off both, it leaves the handshake alone |
| WireLink.AnyWriteIsAnEvent | src/plc/modbus_server.py:65-75 | Any write at all, one that reaches the ack block or spans both blocks included, is a single event of the handshake |
| Scan.ClampHoldsIff | src/plc/scan.py:94-96 | The ramp time put in force: a number within 0.05 and 60 as it is, one outside and the infinities as the nearer limit, and NaN, alone, as NaN |
| ShippedRuns.RampIsNaNIff | src/plc/scan.py:94-96 | The ramp time read is NaN exactly when the two registers hold an exponent of all ones and a fraction |
| ShippedRuns.ANaNCanBeWritten | src/plc/modbus_server.py:65-75 | From any safe plant an accepted FC16 write of two words makes the next scan's ramp time NaN, and the clamp keeps it |
| NaNRamp.StepAgrees | src/machine/conveyor.py:24-32 | The step in arithmetic with NaN is the pure step wherever everything is a number |
| NaNRamp.ANaNRampRaisesNext | src/machine/conveyor.py:24-32 | A NaN ramp time makes speed and position NaN in one step whatever they were, and such a speed has no encoding in an integer register |
| FloatPlants.NumberScanAgrees | src/plc/scan.py:85-166 | The scan in floats is the pure scan, and fails exactly when it does, wherever the registers and the conveyor hold numbers |
| FloatPlants.ScansCompleteIff | src/plc/scan.py:161-166 | Over every run of writes, scans and machine faults, whatever the ramp registers hold: a scan completes exactly when no scan before completed on a NaN ramp time and the position fits binary32; after one every scan raises |
| FloatPlants.ANaNStopsThePlant | src/plc/scan.py:92-102 | From any safe plant: an accepted write of the ramp time, a scan that completes, and one that raises |
| Points.AcceptedContractsAreWellPlaced | src/contract/loader.py:95-116 | For every accepted contract no two of the PLC's signals and blocks share a register |
| ScanFrame.ScanLeavesTheRest | src/plc/scan.py:147-159 | A scan adds and removes no register and changes only published spans and, when a command is pending, the two ack registers |
| ScanFrame.ScanPublishes | src/plc/scan.py:98-102 | After a scan each published span holds the encoding of the value at the start of the scan, in whatever order the updates are merged |
| PlantRuns.ReadersSeeTheMachine | src/gateway/poller.py:80-92 | What a reader decodes after a scan: the speed at the start of the scan to within half a scale unit, the position as the nearest binary32 of it in scale units, and the CNC's state exactly |
| ScanFrame.ScanAcknowledges | src/plc/scan.py:104-136 | ack_seq becomes cmd_seq, and ack_result the answer if a command was pending, else unchanged |
| ScanFrame.AnswerTellsTheEffect | src/plc/scan.py:109-132 | The answer is 0 exactly for codes 1 to 4 the machine can do, and then the machine does it in that scan; 1 exactly for any other code and 2 exactly when the machine cannot; and no other answer moves it |
| ScanFrame.CommandsOnTheWire | src/plc/scan.py:104-136 | Over the registers: with seq unlike ack_seq and c in cmd_code, a scan leaves in ack_result 1 exactly unless c is 1 to 4, 2 exactly when the machine refuses, else 0, and the motor and the CNC have done exactly what that says |
| ScanFrame.ParametersInForce | src/plc/scan.py:85-96 | After a completed scan the conveyor has the setpoint its registers decode to, and the ramp time they decode to brought within 0.05 s and 60 s |
| ScanFrame.ScanKeepsTheCommand | src/plc/scan.py:104-107 | The scan never writes the command block |
| ScanFrame.ScanKeepsSound | src/plc/scan.py:161-166 | After any scan every mapped register still exists and still fits 16 bits |
| PlcObject.Plc.constructor | src/plc/scan.py:32-73 | Start-up creates a register for every claim of the contract and no other, zero but for the ramp time in force |
| PlcObject.InitRegisters | src/plc/scan.py:59-67 | Exactly the addresses of the signals and the two blocks, all zero |
| PlcObject.Publish | src/plc/scan.py:140-145 | The encoded words enter the update table at the signal's span and nothing else does |
| PlcObject.Plc.ExecuteCommand | src/plc/scan.py:109-132 | The branches give the answers 0, 1 and 2 as the code and the machine decide, and exactly the outputs of an accepted command |
| PlcObject.Plc.Execute | src/plc/scan.py:85-138 | From the snapshot alone: the planned registers, the ramp time brought within its limits, the setpoint and the commanded outputs, or the first encode that fails |
| PlcObject.Plc.Merge | src/plc/scan.py:158-159 | Merging the update dictionaries table by table, in any order, gives each register its update or its old value |
| PlcObject.Plc.WriteOutputs | src/plc/scan.py:147-159 | The committed outputs: tables, conveyor parameters, CNC start and reset |
| PlcObject.Plc.ScanOnce | src/plc/scan.py:161-166 | The whole mutable scan equals the pure step; an encode that raises leaves everything unchanged |
| PlcObject.MergedIsOverlay | src/plc/scan.py:158-159 | The merged dictionaries are the planned registers laid over the old tables |
| Loader.OverlapCheckIsExact | src/contract/loader.py:95-116 | The check accepts exactly when no register is claimed twice and no empty block lies in the way; without empty blocks, exactly when all pairs are disjoint |
| Loader.CheckNoOverlaps | src/contract/loader.py:95-116 | Grouping, stable sorting and comparing neighbours accepts exactly when all pairs on a table fit, and otherwise names a pair that does not |
| Loader.NeighboursSuffice | src/contract/loader.py:110-111 | After sorting, neighbours that fit make all pairs fit |
| Loader.SortIsStable | src/contract/loader.py:109 | The sort orders by start, keeps listing order on ties and keeps exactly the entries |
| Loader.EmptyBlockCanBeRefused | src/contract/loader.py:110-116 | A contract without a shared register that the check refuses |
| Loader.ClashingBlocksAreNamed | src/contract/loader.py:96-116 | When only the two blocks clash, the error names them, the one that starts first in front |
| Loader.CheckDuplicateNames | src/contract/loader.py:77-83 | Accepts exactly distinct names, and otherwise reports exactly the repeated ones |
| Loader.Validate | src/contract/loader.py:57-61 | Accepts exactly the contracts passing all the checks, and otherwise reports the first that fails, with the name, type, pair or names to blame |
| Loader.AcceptedIff | src/contract/loader.py:57-61 | Accepted exactly when both orders are one of two, the names differ, every type is one of six, no register is claimed twice, no empty block lies in the way, and each signal has a type or states but not both |
| Loader.OrdersAreFree | src/contract/loader.py:64-74 | An accepted contract with other orders is accepted exactly when they are the legal ones |
| Codec.ValueToWords | src/contract/codec.py:21-36 | Cutting, reversing bytes and reversing chunks gives the device's arrangement of the packed pattern, or the exception |
| Codec.WordsToValue | src/contract/codec.py:39-58 | The undoing steps give the value of the collected pattern, or the exception |
| Codec.DecodeInvertsEncode | src/contract/codec.py:21-58 | For every integer type and layout, decoding inverts encoding on every representable value |
| Codec.EncodeInvertsDecode | src/contract/codec.py:21-58 | and encoding inverts decoding on every register content |
| Codec.FloatBijection | src/contract/codec.py:21-58 | binary32 patterns survive the round trip in every layout, and values that pack come back as what binary32 makes of them |
| Codec.WrongLayoutAgreesIff | src/contract/codec.py:31-35 | Reading with the word order, the byte order or both flipped agrees exactly for equal words, for equal bytes in each word, for a palindrome |
| Codec.LayoutsOnTheWire | src/contract/codec.py:31-36 | Which byte of a 32-bit pattern lies where, in each of the four layouts |
| Codec.TwoRegistersOnTheWire | src/contract/codec.py:11-36 | 32-bit integers are the number itself or its two's complement |
| Codec.OneRegisterOnTheWire | src/contract/codec.py:21-42 | 16-bit integers likewise in every layout, and truth values are 1 and 0 |
| Codec.ScalingIs | src/contract/codec.py:61-74 | Scaling is the exact product and quotient for scales of either sign, with Python's infinities and NaN |
| Codec.EncodeFailsAs | src/contract/codec.py:68-74 | Which exception encode raises, and for which values, types and scales exactly |
| Codec.DecodeFailsAs | src/contract/codec.py:39-65 | decode raises exactly for an unknown type or a wrong number of registers |
| Codec.EncodeAcceptsIff | src/contract/codec.py:68-74 | An integer register accepts v exactly when min - 1/2 <= v/scale < max + 1/2 |
| Codec.DecodeOfEncode | src/contract/codec.py:61-74 | An accepted value decodes to within half a scale unit |
| Codec.EncodeOfDecode | src/contract/codec.py:61-74 | Encoding what registers decode to writes the same registers |
| Codec.OneTripIsAFixpoint | src/contract/codec.py:61-74 | After one write and one poll, writing the polled value changes nothing |
| Numbers.RoundIsNearestEven | src/contract/codec.py:73 | The rounding is the nearest integer, the even one on a tie, and nothing else is |
| Numbers.TruncIsTowardsZero | src/gateway/server.py:394 | int() is the number without its fraction, towards zero, and nothing else is |
| Binary32.PatternSurvives | src/contract/codec.py:17 | Every 32-bit pattern that is not a NaN survives unpack and pack |
| Binary32.SpecialsSurvive | src/contract/codec.py:29 | The infinities and -0 have their IEEE 754 patterns, and NaN packs to a NaN |
| Binary32.PackIsNearest | src/contract/codec.py:29 | Packing a finite number loses at most half a unit in its last place |
| Binary32.OverflowIff | src/contract/codec.py:29 | Packing overflows exactly from halfway past the largest finite binary32 |
| ImageTable.PlcContext.GetValues | src/plc/modbus_server.py:52-63 | A read returns exactly the registers asked for if every one of them exists, IllegalAddress if one does not, and IllegalFunction for a code of no table |
| ImageTable.PlcContext.SetValues | src/plc/modbus_server.py:65-75 | A write takes effect whole or not at all |
| ImageTable.ReadIsAnswered | src/plc/modbus_server.py:11-63 | For every code, address and count: the registers themselves exactly when the code is one of a table's and all of them exist, and the exception that says which is missing otherwise; never a value that is in no register |
| ImageTable.WriteIsAnswered | src/plc/modbus_server.py:11-75 | The same for writes; an accepted one puts its values there and changes nothing else |
| ImageTable.ReadAfterWrite | src/plc/modbus_server.py:52-75 | A read of what was written returns it; reads elsewhere and of other tables are unaffected |
| ImageTable.WritesStayInTheirTables | src/plc/modbus_server.py:11-26 | No write reaches the input or discrete table, and none adds or removes a register |
| ConveyorMachine.Conveyor.Step | src/machine/conveyor.py:24-32 | The step on the object's fields is the pure step |
| ConveyorMachine.StepHeadsForItsGoal | src/machine/conveyor.py:24-32 | One step brings the speed max_speed dt / ramp_time nearer to the setpoint while it runs without a fault and nearer to rest otherwise, never past it, and moves the belt at the new speed |
| ConveyorMachine.RampClosedForm | src/machine/conveyor.py:24-32 | After k steps with the same inputs the distance to the target is max(0, distance - k max_delta), and the target is never passed |
| ConveyorMachine.FullRampTakesExactly | src/machine/conveyor.py:15-32 | From rest, full speed is reached at exactly ceil(ramp_time/dt) steps |
| ConveyorMachine.PositionWhileRamping | src/machine/conveyor.py:24-32 | While ramping from rest the position has advanced by max_delta dt (1 + ... + k) |
| ConveyorMachine.TriangleIs | src/machine/conveyor.py:32 | That sum is k (k + 1) / 2 |
| CncMachine.Cnc.Advance | src/machine/cnc.py:46-52 | Finding the state's place in the cycle and moving on gives its successor, Idle after the last |
| CncMachine.Cnc.Step | src/machine/cnc.py:39-44 | The step on the object's fields is the pure step |
| CncMachine.CycleFollowsSchedule | src/machine/cnc.py:25-52 | From start() in Idle the four states are visited once each, in order, for exactly ceil(duration/dt) steps each, at least one; then Idle for good |
| CncMachine.CycleTime | src/machine/cnc.py:39-44 | The cycle takes at least the sum of the durations and less than four steps more |
| CncMachine.FaultNeedsItsCause | src/machine/cnc.py:25-44 | Under any interleaving Fault is left only by reset() and entered only by fault() |
| CncMachine.BusyIgnoresCommands | src/machine/cnc.py:25-37 | Whatever start() and reset() calls come between the steps of a cycle under way, it is where the steps alone bring it |
| CncMachine.FaultThenReset | src/machine/cnc.py:30-37 | A fault stops it from anywhere, only reset() makes it ready again, and the next cycle begins at its beginning |
| PlantRuns.WholeRunSafety | src/plc/scan.py:59-102 | Over every run of writes, scans and machine faults with no NaN ramp time: speed in [0, 65535 scale], the same registers, all 16 bits wide, ramp time within limits once a scan completed, and a scan raises exactly when the position is too far for binary32 |
| PlantRuns.OnlyThePositionCanFail | src/plc/scan.py:98-102 | Of the three encodes only the position's can raise, exactly when position / scale is at or beyond halfway from the largest binary32 to the next power of two |
| Rescaled.ScalesAreNotChecked | src/contract/loader.py:57-61 | An accepted contract with any signal's scale replaced by any other is accepted |
| Rescaled.RescaledTags | config/tags.yaml:1-46 | so the shipped contract is with any position scale, and every signal is found at its old place |
| Rescaled.APositionCanRaise | src/plc/scan.py:98-102 | With a position scale of 2^-128 a safe plant one metre along, able to scan, raises |
| PlantRuns.PositionIsBounded | src/machine/conveyor.py:24-32 | Over every run the position never falls and grows by at most 65535 scale dt per completed scan |
| PlantRuns.NoScanRaisesBefore | src/plc/scan.py:98-102 | so no scan of any run raises before an explicit count of completed scans |
| PlantRuns.BoundedStop | src/plc/scan.py:116-118 | From the scan that executes STOP, while none executes START, whatever is written to the parameters: the speed never rises and is 0 after ceil(65535 scale 60 / (max_speed dt)) completed scans |
| PlantRuns.SetpointShowsAfterTwoScans | src/plc/scan.py:161-166 | In any run, with any writes, faults and failed scans between two successive completed scans: the setpoint in the table at the first drives the machine then, ActualSpeed shows the outcome only after the second, and until then the speed from before the first |
| Sampling.NothingIsMissedIff | src/gateway/server.py:377-407 | Every poller with gaps of at most P scans records every change of a staged value, once and in order, exactly when no inner stage is shorter than P |
| CycleView.CycleIsSeenIff | src/machine/cnc.py:39-52 | For one CNC cycle that condition is: Homing lasts more than P scans, the other three at least P |
| CycleView.RegisterFollowsStages | src/plc/scan.py:98-102 | The state register shows the cycle one scan late, hence Homing for one scan less, whatever else is written or commanded |
| CycleView.CycleIsRecorded | src/gateway/server.py:377-407 | In any run of the plant with one cycle, with any failing polls and client writes, and good polls at most P scans apart: the recorded transitions are, repeats apart, Homing, Loading, Running, Unloading, Idle, and exactly these exactly when no polls failed between two good polls of one state |
| CycleView.CodesAreDeclared | src/plc/scan.py:47-52 | The PLC's state codes are unambiguous, and the gateway decodes each to the state it was published for |
| GatewayServer.Gateway.Publish | src/gateway/server.py:352-375 | One reading changes the state kept of its own signal and of no other: its words are kept or forgotten, a bad one shows as bad, a good one as its value or state, and one that raises shows nothing new |
| GatewayServer.Gateway.PublishState | src/gateway/server.py:377-407 | A state reading: bad, undeclared, repeated or changed, and the int() that can raise |
| GatewayServer.Gateway.SetSignal | src/gateway/server.py:429-450 | A client's write is answered, shown and handed on, or refused leaving everything as it was |
| GatewayServer.RemembersTheLastPoll | src/gateway/server.py:359-407 | After any stream of polls and client writes the words and state code kept are those of the last poll alone |
| GatewayServer.ShowsTheLatest | src/gateway/server.py:352-450 | After any stream of polls and client writes a node shows what the last poll or accepted write says, value, state or bad, and nothing before the first poll |
| GatewayServer.StaleIff | src/gateway/server.py:371-392 | It shows bad exactly when that was a failed poll or a code of no declared state |
| GatewayServer.AFailedPollIsShown | src/gateway/poller.py:102-105 | After a failed poll it shows bad until the next poll, whatever clients write: the last good value never stays |
| GatewayServer.TransitionIffChange | src/gateway/server.py:404-407 | A transition is recorded exactly when a poll shows a declared state that the poll before it did not show |
| GatewayServer.WriteAcceptedIff | src/gateway/server.py:436-449 | A write to an integer register of any number, infinity or NaN: told to wait exactly unless the last poll was good; then accepted exactly when finite and within range, out of range exactly when finite and not, and an exception escapes exactly when it is not a number |
| GatewayServer.WriteRaisesIff | src/gateway/server.py:436-449 | For every mapping, value and history: an exception other than struct.error escapes exactly when the last poll was good and the value is not a number at an integer register, or at or beyond halfway past the largest binary32 at a float register (or the type is unknown or the scale zero); a float write is never BadOutOfRange and is accepted otherwise |
| GatewayServer.ASetpointCanRaise | src/gateway/server.py:443-446 | NaN or an infinity written to the shipped SpeedSetpoint raises |
| GatewayServer.TransitionsFollowGoodPolls | src/gateway/server.py:377-407 | Over any stream of good and bad polls and client writes the recorded transitions are, repeats apart, the moves between the states the good polls showed, and exactly these exactly when no state was interrupted by failing polls |
| GatewayServer.ABadPollRestamps | src/gateway/server.py:385-406 | One failed poll inside a state, and its transition is recorded twice |
| GatewayServer.ADoubleCanRaise | src/gateway/server.py:443-446 | 2^128 sent to a Double over a binary32 register at scale 1 raises |
| GatewayServer.AFloatNeverRaises | src/gateway/server.py:443-446 | Every binary32 value written to a float register at scale 1 is accepted after a good poll |
| GatewayServer.AcceptedWriteComesBack | src/gateway/server.py:443-449 | An accepted write that lands is polled back within half a scale unit, and writing the polled value again writes the same registers |
| Deadband.DeviceController.Report | src/client/controller.py:275-296 | An update is news exactly when it is not noise against the last reported one, and only news is remembered |
| Deadband.ReportedIff | src/client/controller.py:275-296 | After any stream: reported are the first update, every change of status, every update that is not analogue, every null and the first number after one, and every number a deadband away from the last reported; nothing else |
| Deadband.ReportedTracksReceived | src/client/controller.py:275-296 | After any stream with any resubscriptions the last reported update is the last received, or has its status and is within the deadband of it |
| Deadband.ReportsAreBounded | src/client/controller.py:275-296 | Under a constant status without nulls a signal is reported at most 1 + variation/deadband times, whatever other signals do |
| Deadband.FilterIsReports | src/client/controller.py:283-296 | Among all signals' updates, one signal's reports are those of the filter over its own numbers |
| Cadence.ScanLoop.Run | src/plc/scan.py:168-185 | The loop over next_deadline, with any clock and tick limit, is the recursion the theorems are about |
| Cadence.NoDrift | src/plc/scan.py:168-185 | If each scan fits in dt and no sleep is early or more than J late, scan k starts in [t0 + k dt, t0 + k dt + J] for all k |
| Cadence.CatchesUp | src/plc/scan.py:168-185 | However late the loop is, scan k + 1 is due at t0 + (k + 1) dt: it waits for that if it can and else follows scan k at once |
| Cadence.WatchdogStopsTheLoop | src/plc/scan.py:177-181 | The loop goes on exactly until the first scan longer than dt; that scan is the last and the only overrun |
| Cadence.OverrunOnce | src/plc/scan.py:171-181 | Over any number of runs, overruns is 1 exactly when the watchdog has tripped, and then nothing scans again |
| Deployment.TagsAreAccepted | config/tags.yaml:1-46 | The shipped contract passes all of the loader's checks |
| Deployment.TagsAreSufficient | src/plc/scan.py:41-56 | Every lookup the PLC makes in the shipped contract succeeds |
| Deployment.ColdStartIsSafe | src/plc/scan.py:59-73 | A PLC just constructed over a machine at rest is a safe start for every run theorem, with Idle on show |
| Deployment.ColdStartCanScan | src/plc/scan.py:69-73 | The seeded ramp time and the zero setpoint are numbers, so the first scan can run |
| Deployment.ColdBlocksAreQuiescent | src/plc/scan.py:64-67 | and nothing waits in its command block, so the handshake starts fresh |
| Deployment.Boot | src/plc/__main__.py:34-37 | The shipped program's PLC, all of it fresh: a machine at rest with its durations, Idle on show, able to scan, nothing waiting in its command block |
| Deployment.ShippedCycleIsSeenIff | src/plc/__main__.py:14-21 | Every state of the shipped cycle is seen by every poller with gaps of at most 29 scans, and not with 30; a poll is due every 10 |
| ShippedRuns.CommandThenScans | src/plc/scan.py:161-166 | From a cold start, for any command code and number of scans: the run in which it is written and only the first scan finds it |
| ShippedRuns.ShippedCycleIsRecorded | src/gateway/server.py:377-407 | A run of the shipped plant in which a written CNC_START is executed and the gateway records the codes 1, 2, 3, 4, 0 |
| JointRuns.StepRefines | src/gateway/poller.py:94-99 | Every atomic step of registers, machines and masters is a step of the handshake |
| JointRuns.IsAHandshakeRun | src/plc/scan.py:104-136 | and every run of them a run of it |
| JointRuns.AcknowledgedStopStops | src/gateway/commands.py:48-96 | One gateway alone from a fresh start, none refused so far: an invoke of STOP that returns returns OK, a scan between its write and its return executed it, and from then on, while none executes START, the speed never rises and is 0 after the bounded stop's count of scans |
| MovingStop.AFastStopNeedsEveryScan | src/gateway/commands.py:48-96 | The shipped plant from its cold start: a run of one gateway that writes setpoint 65535 and ramp time 60, starts the conveyor, lets it reach 65.535 m/s and stops it; the STOP returns, its scan finds the conveyor at that speed, and from there it stands still exactly from the 196605th completed scan on |
| MovingStop.TheFastStopIsAcknowledged | src/plc/scan.py:116-118 | That run is one of AcknowledgedStopStops, returns OK, and its count is the bound ceil(65.535 60 / (2 dt)) |

## Left out

- PLC restarts inside a handshake run: registers would return to zero while the gateway remembers its number.
- Concurrent invokes of one gateway and lost write replies: the code neither serialises nor records them.
- Masters.CommandHandshake.Invoke: time is the schedule of its polls; ACK_TIMEOUT and ACK_POLL_PERIOD are not numbers in the model.
- Masters.RogueMaster.Command: only the command path; the rogue's signal writes are the writes of the plant runs.
- PlcObject.Plc.ScanOnce: for a setpoint that decodes to a finite number and a ramp time that is not NaN, since the conveyor's fields are reals; FloatPlants has the runs in which it is NaN, as a pure step. The part-pulse latch and the part sensor are not modelled.
- PlantRuns.WholeRunSafety: for the declared contract's types, an unsigned 16-bit setpoint and actual speed on one scale and a binary32 position.
- PlantRuns.BoundedStop: counts completed scans; one whose position encode raises ends the real loop.
- PlantRuns.PositionIsBounded: in reals; in Python's doubles the position stops growing far earlier.
- CycleView.CycleIsRecorded: needs the state signal in the input table, where no master can write it.
- CncMachine.CycleFollowsSchedule: in Python's floats a duration that is an exact multiple of dt can take one step more or less than ceil(duration/dt).
- Cadence.ScanLoop.Run: the scan is only a duration here; what it does is PlcObject.Plc.ScanOnce.
- GatewayServer.Gateway.SetSignal: the write is a client's; how the address space tells it from the poll loop's republish is not modelled.
- WireLink.BlockWriteIsAnEvent: the command layout has exactly the four fields the gateway fills.
- Codec.EncodeAcceptsIff: for positive scales, as are DecodeOfEncode, EncodeOfDecode and OneTripIsAFixpoint; encode and decode themselves are modelled for every scale, zero included.
- Loader.Validate: which exception comes first is kept, the wording of its message is not; names in it are a set.
- NaN payloads: binary32 has one NaN, so a pattern with another payload is not promised to survive.
- The 210 ms latency budget of README.md: the code needs two scans for a setpoint to show, which is what is proved.
- Sessions, certificates, history, address space, sockets, connection limits, reconnection and YAML parsing: library behaviour or file access.
- Logging and the command-line entry points: they would only add easy members.
