# Verification of the PPB communication and firmware cores

This project models the parts of the PPB software whose behaviour is hardest to see by reading,
and proves what they are for. It is checked with `dafny verify dfyconfig.toml` (Dafny 4.11).

* **The command engine** (`Protocol`, `EngineState`, `EngineSpec`, `Engine` and the other `Engine*`
  modules). The engine keeps a state, a context with a timer and a queue for each address, a map of
  active groups, a list of deferred groups and a busy flag, and its functions call each other:
  completing an operation may start a deferred group, and starting a group may complete an operation.
  `EngineSpec` says what each call does to the whole state. `Engine` is the class whose methods update
  the fields in place; every method is proved to do exactly what `EngineSpec` says. A run is any
  sequence of submissions, datagrams, timeouts, polls, wake-ups, queue clearings and disconnects; the
  calls posted for later are part of the state. `EngineTrace` replays each call as guarded elementary
  actions, so an invariant needs one proof per action; `EngineTheorems` and `EngineProgress` say what
  holds of every run. `EngineOutcome`, `EngineReplies` and `EngineCalls` say in plain terms what a
  timeout, each datagram of bytes and each call does.
* **The firmware pipeline.** Intel HEX text (`IntelHex`, `HexImage`, `HexFiles`), the checksum
  (`ShiftRegister`, `Crc24`, `OctetBits`), volumes and packets with a reference receiver
  (`FirmwareWire`), the exclusive session of the controller as a state machine (`FirmwareSession`,
  `FirmwareTheorems`, `FirmwareProgress`) and the controller object that takes its steps
  (`FirmwareController`). The nested event loops of updateFirmware become explicit waiting stages into
  which every other call and reply can come.
* **The TS status.** One mask walked twice, by the parser (`StatusReply`) and by the controller
  (`StatusDecoder`).
* **Release choice** (`SemVer`, `VersionOrder`, `SectionEleven`, `ReleaseChoice`) and the **packet analyzer**
  (`BitDistance`, `PacketAnalyzer`).

Bytes are numbers from 0 to 255 and 16-bit addresses numbers below 65536; where bit patterns matter
(the checksum, bit errors) bit-vectors are used. Quantities that wrap in the source wrap in the model.

## What the proofs found

* One datagram can complete two operations. The OK or data handler of some commands completes the
  operation itself; if that starts the first deferred group on the same address, the engine then finds
  an uncompleted command there and completes it too, as successful and unanswered
  (communicationengine.cpp, lines 605-740). `EngineDatagram.Cascades` is the exact condition, and
  `EngineWitnesses.AnsweredByNobody` a run that reaches it.
* A group of VOLUME with nothing staged completes inside its own start loop, which can start another
  group in the middle of it. Ownership and truthful verdicts are therefore stated for runs in which no
  group was started without a request, which holds of every run without VOLUME groups (the controller
  makes none); `EngineWitnesses.OwnershipNeedsRequests` shows that the condition is needed.
* processNextCommandForAddress has no gate at address 0, and it is the only way past an open group:
  `EngineGate.BarrierExact` says exactly when the firmware stream stays behind group commands,
  `EngineTheorems.FirmwareBehindGroups` gives a discipline that suffices (groups submitted while
  address 0 is quiet), and `EngineWitnesses.BarrierNeedsQuietZero` is a run without it.
* disconnect leaves contexts and timers behind (`EngineTheorems.DisconnectLeaves`), so "Sending
  exactly when uncompleted" is stated for runs without one; what holds in every run is stated too.
* An identifier such as "-5" is read as a negative number and ordered before "2"; section 11 of
  Semantic Versioning 2.0.0 orders it after. Numbers that do not fit the machine types go wrong in the
  same way. `VersionOrder.PlainVersion` is the exact condition for agreement.
* A two-byte answer is taken as the answer of a live command whose address equals that mask, and ends
  it as an unexpected bridge answer (`EngineReplies.MaskArrives`).
* The rule by which a four-byte bridge answer completes a live command (communicationengine.cpp, lines
  705-729) is never reached: the command's own address is tried first and reads the same bytes as a
  device reply (`EngineReplies.BridgeStatusArrives`, `EngineReplies.BridgeStatusRule`).

## Model

| member | source | states |
|---|---|---|
| EngineTheorems.SendingIsTimed | PPBCommunicationLib/src/communicationengine.cpp:437-581 | in every reachable state, disconnects included: a Sending address holds an uncompleted command with a running timer, every uncompleted command has a running timer, the busy flag is exact, no queue of the map is empty, every active group waits for some address and only for Sending ones, and deferred groups imply that some address is Sending |
| EngineTheorems.LiveIffSending | PPBCommunicationLib/src/communicationengine.cpp:516-535 | without a disconnect an address is Sending exactly when its context is uncompleted, and no uncompleted context is ever taken over |
| EngineTheorems.DisconnectLeaves | PPBCommunicationLib/src/communicationengine.cpp:244-258 | a disconnect leaves every uncompleted command behind on an Idle address, so the equivalence survives it exactly when nothing was executing |
| EngineTheorems.GroupsOwnTheirAddresses | PPBCommunicationLib/src/communicationengine.cpp:452-495 | if no group was started without a request, an active group waits only for its own commands, so two active groups never wait for the same address |
| EngineTheorems.RunSolid | PPBCommunicationLib/src/communicationengine.cpp:536-541 | runs whose groups never ask for VOLUME start no group without a request |
| EngineTheorems.GroupLifecycle | PPBCommunicationLib/src/communicationengine.cpp:392-435 | every issued group id is deferred, active, decided or abandoned by a disconnect in exactly one way, has at most one verdict, and deferred groups wait and start in id order |
| EngineTheorems.GroupIdIsFresh | PPBCommunicationLib/src/communicationengine.cpp:407-435 | the id returned for an accepted group was never issued before, belongs to the request made, and the group is deferred, active or decided when the call returns |
| EngineTheorems.VerdictCoversMask | PPBCommunicationLib/src/communicationengine.cpp:874-894 | a verdict covers exactly the bits of the mask asked for and is the conjunction of the results |
| EngineTheorems.VerdictIsTruthful | PPBCommunicationLib/src/communicationengine.cpp:874-894 | if no group was started without a request, each result is the outcome of the one completion of that group's command on that address |
| EngineTheorems.CommandHasOneFate | PPBCommunicationLib/src/communicationengine.cpp:836-872 | every command ever created has one fate, and the fate is real: queued in its queue, active and live, finished and signalled, removed, dropped or taken over |
| EngineTheorems.PlacesAreExclusive | PPBCommunicationLib/src/communicationengine.cpp:102-155 | what is queued, live or signalled has that fate, so a command is in one place, once, and is signalled at most once |
| EngineTheorems.NothingIsLost | PPBCommunicationLib/src/communicationengine.cpp:516-526 | without a disconnect, and if no group was started without a request, every command is queued, active, finished or removed by clearCommandQueue: the silent refusal of executeCommandImmediately is unreachable |
| EngineTheorems.QueuesAreFifo | PPBCommunicationLib/src/communicationengine.cpp:583-603 | of two commands of one address that waited in its queue the earlier submission starts first |
| EngineTheorems.NothingLeaks | PPBCommunicationLib/src/communicationengine.h:117-142 | between steps no context holds parse results, although taking over a context keeps them |
| EngineTheorems.DatagramInRun | PPBCommunicationLib/src/communicationengine.cpp:605-740 | in every run a datagram completes the operation its reaction names, on the address of its first two bytes or on address 0, with the outcome that reaction names, and a second one exactly when the completion cascades |
| EngineTheorems.FirmwareBehindGroups | PPBCommunicationLib/src/communicationengine.cpp:277-285 | if every group is submitted while address 0 is quiet, no command starts on address 0 while a group is active or deferred |
| EngineProgress.SomethingLowersWork | PPBCommunicationLib/src/communicationengine.cpp:757-766 | in every reachable state with work left some timeout or poll is enabled and strictly lowers 2*(queued + deferred addresses) + uncompleted commands: no deadlock |
| EngineProgress.WorkNeverRises | PPBCommunicationLib/src/communicationengine.cpp:836-924 | no step but a submission raises that work |
| EngineProgress.RunsDrain | PPBCommunicationLib/src/communicationengine.cpp:836-924 | every run can be drained by timeouts and polls alone in at most as many steps as there is work, and a drained engine holds nothing |
| EngineProgress.HistoryGrows | PPBCommunicationLib/src/communicationengine.cpp:836-894 | starts, completions and verdicts are only ever appended |
| EngineDatagram.DatagramObeys | PPBCommunicationLib/src/communicationengine.cpp:605-740 | for every clean state and every byte string the engine does what the reaction says: nothing, a report of an FU command, or the completion of one operation with a named outcome |
| EngineDatagram.CompleteCount | PPBCommunicationLib/src/communicationengine.cpp:836-903 | completing an operation completes exactly one, unless it starts a deferred group that has no request |
| EngineDatagram.StaleAckIgnored | PPBCommunicationLib/src/communicationengine.cpp:605-740 | a four-byte acknowledgement that echoes another command leaves the whole engine unchanged, unless the live command is IS_YOU |
| EngineDatagram.MatchingAckTaken | PPBCommunicationLib/src/communicationengine.cpp:651-681 | one that echoes the live command is taken as its acknowledgement |
| EngineDatagram.NumberArrives | PPBCommunicationLib/src/commandandoperation.cpp:127-280 | every number the replies to VERS, CHECKSUM, DROP, the factory number and the error counts can carry arrives as that number |
| EngineOutcome.TimeoutFails | PPBCommunicationLib/src/communicationengine.cpp:757-894 | in every run a timeout fails: the command of the address is signalled as failed with the timeout as its message and without data, its fate says so, every group that waited for the address notes a failure there and fails as a whole if that was its last result, every other open group is as it was, no wake-up is posted, and the address is Idle unless a deferred group has taken it |
| EngineOutcome.CompleteConcludes | PPBCommunicationLib/src/communicationengine.cpp:836-903 | completing an operation gives its outcome to exactly the open groups that wait for the address, deciding those that wait for nothing else, and posts one wake-up after a success and none after a failure, whatever deferred groups it starts |
| EngineReplies.MaskArrives | PPBCommunicationLib/src/communicationengine.cpp:612-647 | for any two bytes: a live IS_YOU on the address they spell, or else on address 0, succeeds with the mask they spell high byte first; another command on that address fails; another on address 0 fails with that mask; with nothing live an FU failure is reported |
| EngineReplies.MaskReplyArrives | PPBCommunicationLib/src/commandandoperation.cpp:588-605 | the answer of a device to IS_YOU succeeds with the mask high byte first, whatever follows it |
| EngineReplies.ErrFails | PPBCommunicationLib/src/communicationengine.cpp:612-740 | the three bytes of "ERR" fail whatever they complete, and otherwise are reported as an FU failure |
| EngineReplies.BridgeStatusArrives | PPBCommunicationLib/src/communicationengine.cpp:612-740 | four bytes with an FU code in the third: reported as an FU outcome, good exactly when the last is 1, if nothing is live on their address; a live IS_YOU fails; any other live command takes a non-zero code for a device error |
| EngineReplies.BridgeStatusRule | PPBCommunicationLib/src/communicationengine.cpp:705-729 | the rule for a four-byte bridge answer to a live command: it succeeds exactly when the last byte is 1 or the command is IS_YOU |
| EngineReplies.DeviceErrorFails | PPBCommunicationLib/src/communicationengine.cpp:664-670 | a reply whose third byte is not 0 fails with that byte as the error of the device, whatever follows; only IS_YOU takes "ERR" and the four-byte answers for the bridge |
| EngineReplies.AcknowledgementSucceeds | PPBCommunicationLib/src/communicationengine.cpp:651-681 | three bytes with status 0 succeed for every command, four for every command but IS_YOU if the last is its code; one that ends in the code of another command changes nothing |
| EngineReplies.NumberCompletes | PPBCommunicationLib/src/commandandoperation.cpp:127-280 | every number the replies to VERS, CHECKSUM, DROP, the factory number and the error counts can carry completes the command with that number, whatever follows it, and a four-byte number cut short fails |
| EngineReplies.StatusCompletes | PPBCommunicationLib/src/commandandoperation.cpp:53-101 | a status report completes TS with the mask and the blocks that were sent, and one too short for its own mask fails |
| EngineReplies.PacketsComplete | PPBCommunicationLib/src/commandandoperation.cpp:406-432 | 1024 or 1025 bytes complete PRBS_S2M with 512 packets, any other length fails |
| EngineReplies.UnreadSucceeds | PPBCommunicationLib/src/communicationengine.cpp:682-691 | commands that do not read replies, and those sent with data, succeed on any data |
| EngineReplies.StrayIgnored | PPBCommunicationLib/src/communicationengine.cpp:605-740 | a datagram for which no command is live and which is not one of the three forms of the bridge changes nothing |
| EngineCalls.SubmissionLands | PPBCommunicationLib/src/communicationengine.cpp:260-319 | a submission is ignored exactly for TC without data; else its command starts on the address asked for or waits last in the queue of that address, exactly when the address executes or is 0 with a group open |
| EngineCalls.GroupExecutes | PPBCommunicationLib/src/communicationengine.cpp:452-495 | a group with a request that starts, at once or deferred, executes its own command, without data and under its own id, on every target of its mask |
| EngineCalls.PollServes | PPBCommunicationLib/src/communicationengine.cpp:583-603 | in a poll, when the turn of an address comes, the front of its queue starts exactly if the address is free then and, for address 0, no group is open; nothing else in the poll touches that queue |
| EngineCalls.WakeUpStarts | PPBCommunicationLib/src/communicationengine.cpp:905-924 | a wake-up starts the front of the queue exactly if the address is Ready, and changes nothing otherwise |
| EngineCalls.ThrownAway | PPBCommunicationLib/src/communicationengine.cpp:138-258 | clearing empties one queue and no other; a disconnect empties all queues, leaves no group and makes every address Idle, and touches no context |
| EngineWitnesses.AnsweredByNobody | PPBCommunicationLib/src/communicationengine.cpp:605-740 | a reachable state in which one acknowledgement completes two operations and reports a group successful that nobody answered |
| EngineWitnesses.BarrierNeedsQuietZero | PPBCommunicationLib/src/communicationengine.cpp:905-924 | a reachable state, with a group submitted while address 0 executes, in which a wake-up can overtake the group |
| EngineGate.OnlyWakeUpsOvertake | PPBCommunicationLib/src/communicationengine.cpp:277-311 | in every state and for every step, a command starts on address 0 past an open group exactly when the step is the wake-up of address 0 and a command waits there behind the group |
| EngineGate.BarrierExact | PPBCommunicationLib/src/communicationengine.cpp:583-603 | in every run the firmware stream stayed behind all groups exactly when no such wake-up came |
| EngineWitnesses.OwnershipNeedsRequests | PPBCommunicationLib/src/communicationengine.cpp:536-541 | a reachable state, with a VOLUME group and nothing staged, in which two active groups wait for one address |
| EngineRuns.RunInv | PPBCommunicationLib/src/communicationengine.cpp:244-924 | the whole invariant holds in every reachable state |
| EngineSteps.StepMoves | PPBCommunicationLib/src/communicationengine.cpp:244-924 | every step of the engine is a legal sequence of elementary guarded actions, which is what reduces an invariant of all runs to one proof per action |
| EngineReplay.CompleteReplay | PPBCommunicationLib/src/communicationengine.cpp:836-903 | completeOperation and all it starts replays as elementary actions |
| EngineReplay.StartLoopReplay | PPBCommunicationLib/src/communicationengine.cpp:468-480 | the start loop of a group and all it starts replays as elementary actions |
| EngineBarrier.BarrierKept | PPBCommunicationLib/src/communicationengine.cpp:308-311 | every elementary action keeps the barrier of address 0 |
| Protocol.TargetsSound | PPBCommunicationLib/src/communicationengine.cpp:452-462 | the targets of a mask are distinct non-zero addresses, none exactly for the zero mask |
| Engine.CommunicationEngine.Perform | PPBCommunicationLib/src/communicationengine.cpp:244-924 | whatever the event loop delivers, the object takes that step of a run, so the theorems about runs hold of every history of the object |
| Engine.CommunicationEngine.constructor | PPBCommunicationLib/src/communicationengine.cpp:159-183 | a new engine is the first state of every run |
| Engine.CommunicationEngine.EnqueueCommand | PPBCommunicationLib/src/communicationengine.cpp:102-106 | appends to the queue of the address and changes nothing else |
| Engine.CommunicationEngine.DequeueCommand | PPBCommunicationLib/src/communicationengine.cpp:108-125 | takes the front of the queue and removes an emptied queue from the map |
| Engine.CommunicationEngine.TransitionState | PPBCommunicationLib/src/communicationengine.cpp:797-834 | leaving for Idle forgets the context, becoming Ready posts a wake-up, staying put does nothing |
| Engine.CommunicationEngine.UpdateBusyState | PPBCommunicationLib/src/communicationengine.cpp:955-969 | the flag is true exactly when some context is uncompleted |
| Engine.CommunicationEngine.SetCommandParseResult | PPBCommunicationLib/src/communicationengine.cpp:348-370 | records outcome and message in the context |
| Engine.CommunicationEngine.SetCommandParseData | PPBCommunicationLib/src/communicationengine.cpp:372-390 | records the data in the context |
| Engine.CommunicationEngine.CanStartGroupCommand | PPBCommunicationLib/src/communicationengine.cpp:437-450 | true exactly for a non-zero mask whose addresses are all available |
| Engine.CommunicationEngine.ExecuteCommandImmediately | PPBCommunicationLib/src/communicationengine.cpp:516-581 | the whole new state: refused on a busy address, else the command begins, and completes at once when it has no request or is a VOLUME of its own |
| Engine.CommunicationEngine.BeginCommand | PPBCommunicationLib/src/communicationengine.cpp:525-535 | the command takes the context, keeping the parse results there, the address becomes Sending and the busy flag is renewed |
| Engine.CommunicationEngine.RunCommand | PPBCommunicationLib/src/communicationengine.cpp:536-581 | an empty request fails at once, a VOLUME completes with the outcome of its local transmission and drops the staged volume, any other command starts its timer |
| Engine.CommunicationEngine.CompleteOperation | PPBCommunicationLib/src/communicationengine.cpp:836-903 | does nothing on a completed context; else finishes, gives the result to the groups, tries the first deferred group and releases the queues |
| Engine.CommunicationEngine.FinishOperation | PPBCommunicationLib/src/communicationengine.cpp:836-872 | the timer stops, the signal carries the parse results, they are cleared, and the address becomes Ready or Idle |
| Engine.CommunicationEngine.SettleGroups | PPBCommunicationLib/src/communicationengine.cpp:874-894 | each group waiting for the address records the result, and those that wait no more emit their verdict in id order and leave |
| Engine.CommunicationEngine.ReleaseQueues | PPBCommunicationLib/src/communicationengine.cpp:898-902 | with no group left a poll is posted |
| Engine.CommunicationEngine.TryStartPendingGroupCommands | PPBCommunicationLib/src/communicationengine.cpp:497-514 | only the front group is tried; a start cannot fail after the check |
| Engine.CommunicationEngine.StartGroupCommand | PPBCommunicationLib/src/communicationengine.cpp:452-495 | refused exactly when an address is busy, else the group is active and its commands are started in ascending order of address |
| Engine.CommunicationEngine.ExecuteCommand | PPBCommunicationLib/src/communicationengine.cpp:260-319 | queued behind open groups at address 0 or behind a busy address, else started; an unknown command does nothing |
| Engine.CommunicationEngine.ExecuteGroupCommand | PPBCommunicationLib/src/communicationengine.cpp:392-435 | 0 for an empty mask or unknown command, else the next id, and the group is started or deferred |
| Engine.CommunicationEngine.ConnectToPPB | PPBCommunicationLib/src/communicationengine.cpp:215-242 | queues a status request |
| Engine.CommunicationEngine.ProcessNextCommandForAddress | PPBCommunicationLib/src/communicationengine.cpp:905-924 | a Ready address starts the front of its queue, with no gate at address 0 |
| Engine.CommunicationEngine.ProcessCommandQueue | PPBCommunicationLib/src/communicationengine.cpp:583-603 | each address of the map in turn starts the front of its queue if it may |
| Engine.CommunicationEngine.OnOperationTimeout | PPBCommunicationLib/src/communicationengine.cpp:757-766 | completes the command of the address with failure |
| Engine.CommunicationEngine.ClearCommandQueue | PPBCommunicationLib/src/communicationengine.cpp:138-146 | removes the queue of the address |
| Engine.CommunicationEngine.DisconnectAll | PPBCommunicationLib/src/communicationengine.cpp:244-258 | clears queues, groups and states, leaving contexts and timers |
| Engine.CommunicationEngine.OnDataReceived | PPBCommunicationLib/src/communicationengine.cpp:605-740 | the whole effect of a datagram |
| Engine.CommunicationEngine.OnOkReceived | PPBCommunicationLib/src/communicationengine.cpp:671-681 | an acknowledgement completes the operation, and where the command does it itself the engine completes what it then finds at the address |
| Engine.CommunicationEngine.OnCommandData | PPBCommunicationLib/src/communicationengine.cpp:682-691 | the parser's outcome and data are recorded and the operation completed with them |
| Engine.CommunicationEngine.OnBridgeResponse | PPBCommunicationLib/src/communicationengine.cpp:705-733 | a bridge reply completes the command of its address or is reported as an FU outcome |
| Crc24.Crc24 | PPBControllerLib/src/ppbcontrollerlib.cpp:1366-1382 | the loop with the unmasked 32-bit register and the polynomial without bit 24 computes the CRC of section 6.1 of RFC 4880 |
| Crc24.CodeMeetsRfc | PPBControllerLib/src/ppbcontrollerlib.cpp:1366-1382 | for every input the short polynomial and the unmasked register do not change the checksum |
| Crc24.ByteBijective | PPBControllerLib/src/ppbcontrollerlib.cpp:1371-1380 | taking in a byte is a bijection of the 24-bit registers |
| Crc24.ThreeByteErrorsDetected | PPBControllerLib/src/ppbcontrollerlib.cpp:1369-1382 | two inputs of one length that differ only inside three consecutive bytes have different checksums |
| IntelHex.ParseHexRecord | PPBControllerLib/include/firmwareupdater.cpp:11-66 | reads a record or refuses the line exactly as specified |
| IntelHex.ReadsExactlyPrints | PPBControllerLib/include/firmwareupdater.cpp:11-66 | a line is read as a record exactly when, up to case, it is the printed form of that record (General Record Format) |
| IntelHex.OneByteDetected | PPBControllerLib/include/firmwareupdater.cpp:49-57 | changing any single byte of an intact record makes it fail |
| IntelHex.OneCharacterDetected | PPBControllerLib/include/firmwareupdater.cpp:18-57 | changing one character of a valid line leaves it valid only by changing the case of a digit, and then the record is the same |
| HexImage.ParseHexToDataBlocks | PPBControllerLib/include/firmwareupdater.cpp:85-202 | the reader returns the chunks of an acceptable file and nothing for any other |
| HexImage.ParsedKeepsBytes | PPBControllerLib/include/firmwareupdater.cpp:124-139 | the chunks hold exactly the data bytes in file order, 1 to 16 each, and are empty exactly for a refused file |
| HexImage.PrintedProgramIsRead | PPBControllerLib/include/firmwareupdater.cpp:85-202 | any understood record list that ends in its only end-of-file record and has data comes back from its lines, however cased and spaced by blank lines |
| HexImage.AcceptedIsPrinted | PPBControllerLib/include/firmwareupdater.cpp:85-202 | and only those: the lines of an accepted file spell such a record list |
| HexFiles.ControlRecords | PPBControllerLib/include/firmwareupdater.cpp:122-187 | a printed file of one record, a data record and a third is read exactly when the first is data, or of type 2 or 4 with two bytes, or of type 3 or 5 with four, at address 0, and the third is the empty end-of-file record at address 0; the data are cut every sixteen bytes |
| HexFiles.CutBySixteen | PPBControllerLib/include/firmwareupdater.cpp:127-134 | the chunk number i holds the bytes from 16 i on, sixteen of them but for the last |
| HexFiles.VolumesBySixtyFour | PPBControllerLib/include/firmwareupdater.cpp:204-220 | the volume number i joins the chunks from 64 i on, sixty-four of them but for the last |
| FirmwareWire.BuildVolumePayloads | PPBControllerLib/include/firmwareupdater.cpp:204-220 | the loop joins sixty-four chunks at a time |
| FirmwareWire.VolumesKeepBytes | PPBControllerLib/include/firmwareupdater.cpp:204-220 | volumes hold the bytes of the chunks in order, 1 to 1024 each, one for every sixty-four chunks begun |
| FirmwareWire.VolumeCommand.SetCurrentVolumeData | PPBCommunicationLib/src/commandandoperation.cpp:442-449 | stages payload, marker, total and the joined checksum |
| FirmwareWire.VolumeCommand.ClearCurrentVolumeData | PPBCommunicationLib/src/commandandoperation.cpp:451-457 | nothing stays staged |
| FirmwareWire.VolumeCommand.BuildRequest | PPBCommunicationLib/src/commandandoperation.cpp:459-487 | nothing without a staged volume, else the packet of the staged fields |
| FirmwareWire.StreamDelivers | PPBCommunicationLib/src/commandandoperation.cpp:459-487 | a receiver that checks markers 1,2,...,2,3, the announced count and the checksum gets back exactly the bytes and the version |
| FirmwareWire.LossDetected | PPBCommunicationLib/src/commandandoperation.cpp:465-470 | a transfer that lost data packets is never taken for complete |
| FirmwareWire.CorruptionDetected | PPBCommunicationLib/src/commandandoperation.cpp:471-476 | a transfer whose data differ from the image inside three consecutive bytes is never delivered |
| FirmwareWire.PacketParts | PPBCommunicationLib/src/packetbuilder.cpp:142-171 | the receiver finds marker, header bytes and payload where the builder puts them |
| FirmwareTheorems.UpdateDelivers | PPBControllerLib/src/ppbcontrollerlib.cpp:1456-1752 | in every run, when a session waits for UPDATE or CLEAN its VOLUME packets have delivered exactly the data bytes of the file, in volumes of 1 to 1024 bytes, with the version code |
| FirmwareTheorems.UpdateNeedsDelivery | PPBControllerLib/src/ppbcontrollerlib.cpp:1664-1752 | while a session runs UPDATE is sent only on the success of the final VOLUME, and then the whole image has been delivered |
| FirmwareTheorems.SessionIsExclusive | PPBControllerLib/src/ppbcontrollerlib.cpp:210-216 | while a session runs every other call does nothing, no scenario runs, and the log since its start is its own stages in order, each after the success of the one before |
| FirmwareTheorems.FlagsAgree | PPBControllerLib/src/ppbcontrollerlib.cpp:1425-1486 | the update flag is up exactly while a session waits and never together with the scenario flag: every way out lowers it |
| FirmwareTheorems.GroupsReachSelected | PPBControllerLib/src/ppbcontrollerlib.cpp:1526-1530 | the groups of a session address exactly the devices that are selected and active |
| FirmwareTheorems.SessionsEnd | PPBControllerLib/src/ppbcontrollerlib.cpp:1476-1486 | the timer of every wait ends the session, and every other event ends it, leaves it or brings it nearer to its end |
| FirmwareSession.InvKept | PPBControllerLib/src/ppbcontrollerlib.cpp:1425-1754 | every event keeps the session invariant |
| FirmwareSession.CommonTargets | PPBControllerLib/src/ppbcontrollerlib.cpp:1526-1526 | the bitwise and of two masks has the common targets |
| FirmwareProgress.VolumesFollow | PPBControllerLib/src/ppbcontrollerlib.cpp:1425-1697 | from a quiet state in any run, with an accepted file, a version in range, a device that is selected and active, and every wait answered by its success: after k volumes have been sent the session waits with the next volume of the file as its newest packet, and after the last with the rounded hundredfold of the version |
| FirmwareProgress.SessionCompletes | PPBControllerLib/src/ppbcontrollerlib.cpp:1604-1754 | and on to the end: then UPDATE is sent, after its success CLEAN, and after that the session is over and its packets have delivered the whole image and the version |
| FirmwareProgress.FailuresClear | PPBControllerLib/src/ppbcontrollerlib.cpp:1541-1752 | the failure of what the session waits for, or its timer, ends it, clears the queues of address 0 and, after a group, of the devices addressed, and sends nothing more |
| FirmwareProgress.VersionRounds | PPBControllerLib/src/ppbcontrollerlib.cpp:1443-1454 | a version in range becomes the whole number nearest to its hundredfold |
| FirmwareController.PPBController.UpdateFirmware | PPBControllerLib/src/ppbcontrollerlib.cpp:1425-1518 | preflight and start of a session, or no change at all |
| FirmwareController.PPBController.OnCommandDataParsed | PPBControllerLib/src/ppbcontrollerlib.cpp:1500-1594 | the IS_YOU answer fixes the targets and issues the VERS group, or ends the session |
| FirmwareController.PPBController.OnGroupCommandCompleted | PPBControllerLib/src/ppbcontrollerlib.cpp:1541-1599 | a successful group leads to PROGRAMM or to the first volume, a failed one clears the queues and ends the session |
| FirmwareController.PPBController.ExecuteGroup | PPBControllerLib/src/ppbcontrollerlib.cpp:1541-1575 | a group that is not accepted ends the session |
| FirmwareController.PPBController.StageVolumeAndSend | PPBControllerLib/src/ppbcontrollerlib.cpp:1604-1617 | marker 1 with the count first, marker 2 after, the checksum with the last volume |
| FirmwareController.PPBController.StageVersionAndSend | PPBControllerLib/src/ppbcontrollerlib.cpp:1657-1664 | the version in four bytes, high first, with marker 3 |
| FirmwareController.PPBController.OnCommandCompleted | PPBControllerLib/src/ppbcontrollerlib.cpp:1626-1752 | only the awaited command moves the session on |
| FirmwareController.PPBController.AwaitedCommand | PPBControllerLib/src/ppbcontrollerlib.cpp:1705-1752 | UPDATE then CLEAN, each after the success before |
| FirmwareController.PPBController.OnWaitExpired | PPBControllerLib/src/ppbcontrollerlib.cpp:1516-1741 | the queues are cleared and the session ends |
| FirmwareController.PPBController.OnLoadScenario | PPBControllerLib/src/ppbcontrollerlib.cpp:1240-1321 | refused during a session |
| FirmwareController.PPBController.OnRunScenario | PPBControllerLib/src/ppbcontrollerlib.cpp:1323-1354 | refused during a session, without a script or while one runs |
| FirmwareController.PPBController.Handle | PPBControllerLib/src/ppbcontrollerlib.cpp:1425-1754 | every event is one step of the session machine |
| StatusReply.ParseResponseData | PPBCommunicationLib/src/commandandoperation.cpp:53-101 | the parser computes the specified status |
| StatusReply.ParseSucceeds | PPBCommunicationLib/src/commandandoperation.cpp:53-101 | a status parses exactly when the payload has the mask and two bytes for each set bit among the low 24 |
| StatusReply.ParseEncoded | PPBCommunicationLib/src/commandandoperation.cpp:53-101 | any mask and words come back from their encoding, whatever follows it |
| StatusDecoder.StatusStore.ProcessStatusData | PPBControllerLib/src/ppbcontrollerlib.cpp:958-1101 | exactly the board of the address changes, to the declared reading of the words present; settings are taken once |
| StatusDecoder.StatusStore.AddressToIndex | PPBControllerLib/src/ppbcontrollerlib.cpp:1219-1226 | the board of a one-bit address, or -1 |
| StatusDecoder.Walked | PPBControllerLib/src/ppbcontrollerlib.cpp:978-1086 | the walk with its pending high halves equals the field-by-field reading, for every mask and every list of blocks |
| StatusDecoder.Visit | PPBControllerLib/src/ppbcontrollerlib.cpp:990-1085 | one bit of the walk |
| StatusDecoder.WalksAgree | PPBControllerLib/src/ppbcontrollerlib.cpp:978-988 | for every payload that parses the second walk finds for each set bit the word behind those of the lower set bits |
| StatusDecoder.StatusArrives | PPBControllerLib/src/ppbcontrollerlib.cpp:958-1101 | encode, parse, decode: each word ends up in its own field |
| StatusDecoder.FieldsTakeTheirWords | PPBControllerLib/src/ppbcontrollerlib.cpp:990-1085 | each field comes from its own bits: a power or VSWR needs both halves, a VSWR keeps the low word, bit 0 holds the health of both channels, what is not reported stays |
| StatusDecoder.TwosComplement | PPBControllerLib/src/ppbcontrollerlib.cpp:1020-1052 | a temperature is the signed 16-bit number with the bits of its word |
| SemVer.ScanIsPattern | PPB_GUI_Sandbox/updatemanager.cpp:31-51 | a string is read exactly when the pattern matches it, in the one way it can |
| VersionOrder.CompareSemVer | PPB_GUI_Sandbox/updatemanager.cpp:94-121 | the loop computes the order up to sign, 0 when a string is not a version |
| VersionOrder.ComparePrereleaseIdentifier | PPB_GUI_Sandbox/updatemanager.cpp:53-69 | numbers by value, text by code unit, numbers before text |
| VersionOrder.PrecedenceIsTotalPreorder | PPB_GUI_Sandbox/updatemanager.cpp:94-121 | on version strings the comparison is opposite the other way round and transitive |
| SectionEleven.PrecedenceIsSectionEleven | PPB_GUI_Sandbox/updatemanager.cpp:94-121 | between plain versions the comparison is section 11 of Semantic Versioning 2.0.0, rule by rule: major, minor and patch by value, a release above its pre-releases, then the first identifier that differs (digits by value, digits below text, text by code unit), then the longer list |
| SectionEleven.FieldsAreSplit | PPB_GUI_Sandbox/updatemanager.cpp:45-47 | the pre-release identifiers hold no dot and joined by dots give the text back |
| VersionOrder.AgreesWhenPlain | PPB_GUI_Sandbox/updatemanager.cpp:94-121 | between plain versions the machine numbers make no difference to the order |
| VersionOrder.AgreesExactlyWhenPlain | PPB_GUI_Sandbox/updatemanager.cpp:31-69 | a version is ordered as with unbounded numbers and section 11 identifiers against every plain version exactly when it is plain itself |
| ReleaseChoice.NegativeIdentifierMisplaced | PPB_GUI_Sandbox/updatemanager.cpp:53-69 | "1.0.0--5" is put before "1.0.0-2", against section 11 |
| ReleaseChoice.HandleReleaseList | PPB_GUI_Sandbox/updatemanager.cpp:169-214 | the loop offers the first of the greatest eligible releases, or none when none is eligible |
| ReleaseChoice.OrderDoesNotMatter | PPB_GUI_Sandbox/updatemanager.cpp:169-214 | two orders of one list offer versions of equal precedence, newer than the current one |
| BitDistance.CountBitErrors | Analize_Module/packetanalyzer.cpp:122-132 | the shift loops count the positions in which two packets differ |
| BitDistance.DistanceIsMetric | Analize_Module/packetanalyzer.cpp:122-132 | that count is a metric bounded by 16 |
| PacketAnalyzer.AnalyzePackets | Analize_Module/packetanalyzer.cpp:34-111 | the loops compute the specified result |
| PacketAnalyzer.EveryPacketCounted | Analize_Module/packetanalyzer.cpp:42-88 | valid + spoiled + lost = sent, both totals are the lengths, and both index lists are exact |
| PacketAnalyzer.ErrorsMeanDistance | Analize_Module/packetanalyzer.cpp:101-106 | the error count is zero exactly when the common stretch agrees and at most 16 a packet; times the bits compared the error rate is the error count, and times the packets sent the loss rate is the number lost |
| PacketAnalyzer.AnalysesAddUp | Analize_Module/packetanalyzer.cpp:42-60 | bit errors add up over consecutive stretches |
| PacketAnalyzer.DetailsCoverAll | Analize_Module/packetanalyzer.cpp:62-99 | one detail for each position either side has, in order, with errors exactly where both packets are there and differ |
| PacketAnalyzer.Analyzer.AddSentPackets | Analize_Module/packetanalyzer.cpp:10-16 | appends with consecutive numbers |
| PacketAnalyzer.Analyzer.AddReceivedPackets | Analize_Module/packetanalyzer.cpp:18-24 | appends with consecutive numbers |
| PacketAnalyzer.Analyzer.Clear | Analize_Module/packetanalyzer.cpp:26-32 | both sides are empty |
| PacketAnalyzer.Analyzer.Analyze | Analize_Module/packetanalyzer.cpp:34-111 | the result of what both sides hold, changing nothing |
| PacketAnalyzer.Analyzer.AnalyzeFresh | Analize_Module/packetanalyzer.cpp:113-120 | the result of the two lists given |

## Left out

* Sockets, threads, signals and real time: a timer is a step that may happen while the timer runs, a
  queued call is an entry of the outstanding calls, and the outcome of a local transmission is a
  parameter of the step.
* Message texts are tags, and what a reply parser extracts is kept as numbers, those copied
  as memory read low byte first; the state and busy
  signals and the log are not recorded, the completion and group signals are.
* The wire form of engine requests other than VOLUME, the payload a group may carry (it changes only
  the datagram sent), test-packet generation, and the FU request builders.
* EngineTheorems.VerdictIsTruthful: stated for runs in which no group was started without a request, because such a group can lose the ownership of an address (EngineWitnesses.OwnershipNeedsRequests).
* EngineTheorems.FirmwareBehindGroups: a condition that suffices; the exact one is EngineGate.BarrierExact.
* The failure branches of startGroupCommand after a successful check: they cannot be reached, and the
  class asserts so.
* The 64-bit wrap of the group id counter.
* PRBS_S2M may erase its context while its data handler still holds a reference; the model looks the
  context up again, because memory lifetime is not the subject.
* FirmwareController.PPBController.UpdateFirmware: a version is a real number, so the rounding of a float product is not modelled; one that is not finite is None.
* FirmwareController.PPBController.OnLoadScenario: the wait for an old scenario to stop is one event with its outcome, so what happens inside that wait is not modelled.
* FirmwareController.PPBController.PerformOperation: the operations share one method that is blocked or adds the entry of the call.
* The session sees a VOLUME packet as built when the command is issued; the engine builds it when the
  command starts, from the same staged fields.
* Files are lists of trimmed lines: opening, decoding and trimming a file are not part of the model.
* StatusDecoder.Walked: VSWR values and temperatures in physical units are functions of the codes and are not kept; a power is kept as the bit pattern of its float.
* Network, JSON, download and installation in the update manager; a release is the fields the choice
  looks at, with its first acceptable installer. White space around a tag is ASCII white space.
* Progress signals and the time of an analysis; rates are exact fractions instead of doubles.
* AKIP and Gratten devices, the Lua engine, the widgets and the performance monitor.
