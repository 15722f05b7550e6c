# EV charging: the Central, its wire protocol, the charge-point engine and the driver client

This project models the core of an electric-vehicle charging network in Dafny:

- **The STX/DATA/ETX/LRC frame codec** (`FrameCodec`). A frame is STX, the payload bytes, ETX, the XOR of the payload bytes, then a newline. Decoding checks the structure and the checksum. A single ACK or NACK byte acknowledges a frame (`ReliableExchange`). The socket is a `Link` that records the bytes written to it; what a read returns is a parameter.
- **The asynchronous Central coordinator** (`CentralData`, `Channel`, `CoreSpec`, `CoreProperties`, `Coordinator`). It keeps charging points (CPs), supply sessions, and the outbound channels of CPs and drivers. It runs the CP-status and session-state machine: request, authorisation, start, progress, finalisation, health reports and remote commands.
  - `CoreSpec` states every operation as a function on the whole coordinator state.
  - The class `Coordinator.CentralCore` holds the four maps as fields. Each of its methods is proved to leave exactly the state that function describes.
  - `CoreProperties` proves the consistency invariants and the behaviour the code promises: which message goes to which channel, in what order.
- **The threaded text-command Central** (`TextCentral`). It handles the framed text lines `AUTH`, `FAULT`, `REQ` and `FINISH` over a table of CP records. It also covers the `finally` clean-up when a connection ends and the operator's `stop`/`resume`.
  - `Apply` and `Run` state one line and a whole connection as functions.
  - The class `TextCentral.Central` holds the table and the bus messages. Its `Serve` loop is proved equal to `Run`.
- **The charge-point engine** (`Engine`): its charging state, the command filter, and its answer to the health probe.
- **The driver client** (`DriverClient`): how request, finish and pay change the driver's state given Central's response. It also covers the telemetry and invoice filters, and the charge-point list read from a file.

The two Centrals are independent models and are not merged.

The model follows the code; in particular:

- The asynchronous `request_supply` has no reconnect branch (central/core.py:105-179).
- Nothing sets the CP status `STOPPED`: `remote_command` only forwards a message (central/core.py:307-319).
- `detach_cp` clears the CP's session id but does not end the session (central/core.py:70-79).
- The text Central refuses a request in the order DISCONNECTED, OUT_OF_ORDER, FAULT, BUSY (sd-p1-2025/src/EV_Central/EV_Central.py:357-366). It answers an unknown charge point with `CP_NOT_FOUND` (sd-p1-2025/src/EV_Central/EV_Central.py:321-322).

Timestamps are an integer `now` parameter. The random session id is a `freshId` parameter. The sampled power of the engine is a `kw` parameter. Money and energy are reals.

## Model

| member | source | states |
|---|---|---|
| PyText.RStrip | sd-p1-2025/src/EV_Central/EV_Central.py:271 | the result is a prefix of the input, only white space was cut, and it does not end in white space |
| PyText.LStrip | sd-p1-2025/src/EV_Central/EV_Central.py:271 | the result is a suffix of the input, only white space was cut, and it does not start with white space |
| PyText.Strip | sd-p1-2025/src/EV_Central/EV_Central.py:271 | Python's `strip()`: the result is a slice of the input with only white space around it, and it neither starts nor ends with white space |
| PyText.IndexOf | sd-p1-2025/src/UTILS/protocol.py:66 | `bytes.index`: no position exactly when the value does not occur; otherwise the position holds the value and none occurs before it |
| PyText.Split | sd-p1-2025/src/EV_Central/EV_Central.py:273 | Python's `split('#')`: at least one piece, no piece holds the separator, and joining the pieces with it gives back the input |
| PyText.SplitJoin | sd-p1-2025/src/EV_Central/EV_Central.py:273 | splitting a join of separator-free pieces gives back exactly those pieces |
| FrameCodec.ComputeLrc | sd-p1-2025/src/UTILS/protocol.py:40-42 | the accumulator loop computes the XOR of all the payload bytes |
| FrameCodec.LrcAppend | sd-p1-2025/src/UTILS/protocol.py:40-42 | the checksum of a concatenation is the XOR of the two parts' checksums |
| FrameCodec.LrcSplit | sd-p1-2025/src/UTILS/protocol.py:77-79 | the checksum around one byte is the checksum before it XOR the byte XOR the checksum after it |
| FrameCodec.LrcUpdate | sd-p1-2025/src/UTILS/protocol.py:77-79 | replacing one byte changes the checksum by the XOR of the old and new byte |
| FrameCodec.LrcDetectsOneChange | sd-p1-2025/src/UTILS/protocol.py:77-82 | any change to exactly one byte changes the checksum |
| FrameCodec.Lrc | sd-p1-2025/src/UTILS/protocol.py:40-42 | the check byte, the XOR of the bytes; stated by `ComputeLrc`, `LrcAppend` and `LrcDetectsOneChange` |
| FrameCodec.CharLength | sd-p1-2025/src/UTILS/protocol.py:85 | the length of the UTF-8 sequence at the front is between 1 and 4 bytes and fits in the input, or 0 when it is ill-formed |
| FrameCodec.ValidUtf8 | sd-p1-2025/src/UTILS/protocol.py:85 | what strict UTF-8 decoding accepts; `Decode` accepts a frame only when its payload satisfies it |
| FrameCodec.Encode | sd-p1-2025/src/UTILS/protocol.py:27-45 | a frame is STX, the payload, ETX, the XOR of the payload bytes and a newline, four bytes longer than the payload |
| FrameCodec.Decode | sd-p1-2025/src/UTILS/protocol.py:48-91 | a valid result came from input that starts with STX followed by the returned text; returned text is always well-formed UTF-8 |
| FrameCodec.IsAck | sd-p1-2025/src/UTILS/protocol.py:94-101 | ACK exactly when the first byte is 0x06, and never both ACK and NACK |
| FrameCodec.IsNack | sd-p1-2025/src/UTILS/protocol.py:99-101 | NACK exactly when the first byte is 0x15; stated with `IsAck` by `ReplyFirstByteOnly` |
| FrameCodec.FirstEtx | sd-p1-2025/src/UTILS/protocol.py:66 | in a frame the search for ETX finds the terminator right after the payload |
| FrameCodec.DecodeIgnoresTrailing | sd-p1-2025/src/UTILS/protocol.py:66-74 | decoding uses the first ETX and the byte after it and ignores everything later |
| FrameCodec.DecodeFrame | sd-p1-2025/src/UTILS/protocol.py:66-87 | a well-formed frame decodes to its payload, valid exactly when the byte after ETX equals the payload's checksum |
| FrameCodec.RoundTrip | sd-p1-2025/src/UTILS/protocol.py:27-87 | a payload without ETX decodes back to itself as valid, with or without the trailing newline |
| FrameCodec.CorruptionDetected | sd-p1-2025/src/UTILS/protocol.py:77-87 | changing one payload byte of a frame to another non-ETX value makes it invalid, and the changed text is still returned |
| FrameCodec.ReplyFirstByteOnly | sd-p1-2025/src/UTILS/protocol.py:94-101 | ACK/NACK classification looks at the first byte only, and ACK and NACK are never confused |
| FrameCodec.DecodeRejectsWithoutStx | sd-p1-2025/src/UTILS/protocol.py:61-62 | empty input, or input not starting with STX, decodes to empty text, invalid |
| FrameCodec.DecodeRejectsTruncated | sd-p1-2025/src/UTILS/protocol.py:66-73 | input with no ETX, or nothing after the first ETX, decodes to empty text, invalid |
| ReliableExchange.Link.constructor | sd-p1-2025/src/UTILS/protocol.py:104-121 | a fresh socket has nothing written |
| ReliableExchange.Link.SendAll | sd-p1-2025/src/UTILS/protocol.py:121 | `sendall` appends exactly the given bytes |
| ReliableExchange.Link.SendWithProtocol | sd-p1-2025/src/UTILS/protocol.py:104-139 | writes exactly the frame of the message; reports success iff no ACK is awaited or the byte read back is ACK |
| ReliableExchange.Link.ReceiveWithProtocol | sd-p1-2025/src/UTILS/protocol.py:144-181 | an empty read or a timeout gives empty text, invalid, and writes nothing; otherwise returns the decode result and writes one ACK if valid, one NACK if not, when asked to |
| ReliableExchange.Exchange | sd-p1-2025/src/UTILS/protocol.py:104-176 | a sender and a receiver talking through a frame: the receiver gets the message as valid and the sender sees success |
| CentralData.WireValuesDistinct | central/constants.py:8-34 | distinct CP statuses and distinct session states have distinct wire texts |
| CentralData.NewChargingPoint | central/datamodel.py:12-21 | a new CP is disconnected, healthy, has no session and was never seen |
| CentralData.ToStorage | central/datamodel.py:23-29 | the stored form carries the CP's id and location |
| CentralData.StorageForgetsRuntime | central/datamodel.py:23-29 | status, health, session and last contact are not persisted, and a stored CP loads back as a fresh one |
| CentralData.NewSession | central/datamodel.py:32-46 | a new session is pending, with nothing delivered or owed, not started, not finished and no reason |
| CentralData.ToPublic | central/datamodel.py:48-63 | every field is copied, the state as its wire text, and an unset start or finish time has no value |
| CentralData.ToPublicInjective | central/datamodel.py:48-63 | the public form determines the session it came from |
| Channel.MemoryChannel.constructor | central/channel.py:33-38 | a new channel has no messages |
| Channel.MemoryChannel.Send | central/channel.py:40-42 | the message is appended at the end and earlier messages stay as they were |
| Channel.MemoryChannel.PopAll | central/channel.py:44-47 | returns every message in send order and leaves the channel empty |
| Channel.SendThenDrain | central/channel.py:40-47 | what is sent between two drains comes back in order, and a second drain right after returns nothing |
| CoreSpec.SendTo | central/core.py:112-179 | sending to an identity appends the message to that identity's channel only, and nothing happens when it has none |
| CoreSpec.Broadcast | central/core.py:324-340 | a broadcast appends the message to every registered channel and registers none |
| CoreSpec.Init | central/core.py:19-35 | the coordinator at start: the stored CPs and no sessions or channels; stated by `InitConsistent` and proved equal to the constructor's loop |
| CoreSpec.LoadAll | central/core.py:34-35 | the stored CPs by id, later ones replacing earlier; stated by `LoadAllFresh` |
| CoreSpec.RegisterCp | central/core.py:46-59 | `register_cp`; stated by `RegisterCpOutcome`, `RegisterCpPreserves` and `RegisterAttachDetach` |
| CoreSpec.ConnectedStatus | central/core.py:63-64 | available when healthy, fault otherwise; stated through `AttachCpOutcome` and `FinalizeReleases` |
| CoreSpec.AttachDriver | central/core.py:81-84 | `attach_driver_channel`; stated by `AttachDriverSnapshot`, `DriverChannelsOutcome` and `DriverChannelsPreserve` |
| CoreSpec.DetachDriver | central/core.py:86-88 | `detach_driver`; stated by `DriverChannelsOutcome` and `DriverChannelsPreserve` |
| CoreSpec.DeniedStatus | central/core.py:117-150 | the DENIED `supply_status` with no session and the given text; its use is stated by `RequestSupplyOutcome` and `RequestSupplyMarksDisconnected` |
| CoreSpec.UnknownCpText | central/core.py:118-124 | the text for an unknown CP; stated by `RequestSupplyOutcome` |
| CoreSpec.UnavailableText | central/core.py:129-137 | the text for a CP that is not available, with its status; stated by `RequestSupplyOutcome` |
| CoreSpec.NotConnectedText | central/core.py:139-148 | the text for an available CP with no channel; stated by `RequestSupplyMarksDisconnected` |
| CoreSpec.View | central/core.py:324-357 | the five fields a `cp_state` broadcast and a snapshot give for a CP; stated through `AttachCpOutcome`, `HealthReportStored` and `AttachDriverSnapshot` |
| CoreSpec.BroadcastCp | central/core.py:324-340 | `_broadcast_cp_state`: the CP's view to every driver; stated through `AttachCpOutcome`, `HealthReportStored` and `RequestSupplyMarksDisconnected` |
| CoreSpec.DriverSnapshot | central/core.py:342-357 | `_send_driver_snapshot`: every CP's view to one driver; stated by `AttachDriverSnapshot` |
| CoreSpec.AttachCp | central/core.py:61-68 | `attach_cp_channel` on the whole state; its outcome is stated by `AttachCpOutcome` and its consistency by `AttachCpPreserves` |
| CoreSpec.DetachCp | central/core.py:70-79 | `detach_cp`; stated by `DetachKeepsSession`, `UnknownIdsNoOp` and `DetachCpPreserves` |
| CoreSpec.StatusAfterHealth | central/core.py:90-101 | the status a health report leaves; stated by `OkReportLiftsFault` and `FaultAbortsSession` |
| CoreSpec.OrDefault | central/core.py:103 | a missing or empty text falls back to the default; stated through `RejectionFreesCp` and `FaultAbortsSession` |
| CoreSpec.UpdateHealth | central/core.py:90-103 | `update_health`; stated by `HealthReportStored` (health and contact stored, FAULT forces fault, a report that aborts nothing changes only that CP and broadcasts it), `FaultAbortsSession`, `FaultAbortNotice`, `OkReportLiftsFault`, `UnknownIdsNoOp` and `UpdateHealthPreserves` |
| CoreSpec.RequestSupply | central/core.py:105-179 | `request_supply`; stated by `RequestSupplyOutcome`, `RequestSupplyCpFrame`, `RequestSupplyNeedsDriver`, `RequestSupplyMarksDisconnected` and `RequestSupplyPreserves` |
| CoreSpec.AuthorizationResponse | central/core.py:181-226 | `cp_authorization_response`; stated by `RejectionFreesCp`, `AcceptanceAuthorizes`, `UnknownIdsNoOp` and `AuthorizationResponsePreserves` |
| CoreSpec.SupplyStarted | central/core.py:228-247 | `supply_started`; stated by `StartKeepsFirstTime`, `UnknownIdsNoOp` and `SupplyStartedPreserves` |
| CoreSpec.AmountDue | central/core.py:261 | the amount owed: the reported amount, or energy times price; stated by `ProgressPricing` |
| CoreSpec.SupplyProgress | central/core.py:249-272 | `supply_progress`; stated by `ProgressPricing`, `UnknownIdsNoOp` and `SupplyProgressPreserves` |
| CoreSpec.FinalizeSession | central/core.py:274-305 | `finalize_session`; stated by `FinalizeReleases`, `FinalizeNotice`, `UnknownIdsNoOp` and `FinalizeRestores` |
| CoreSpec.RemoteCommandTo | central/core.py:307-319 | `remote_command`; stated by `RemoteCommandReach` and `RemoteCommandPreserves` |
| CoreSpec.RequestSupplyAsWritten | central/core.py:105-179 | `request_supply` with the lock re-entry of line 149; stated by `DenialWithoutChannelDeadlocks` and `AsWrittenAgreesElsewhere` |
| CoreSpec.AuthorizationResponseAsWritten | central/core.py:181-226 | `cp_authorization_response` with the lock re-entry of line 210; stated by `RejectionDeadlocks` and `AsWrittenAgreesElsewhere` |
| CoreProperties.LoadAllFresh | central/core.py:34-35 | every stored CP is loaded, only stored CPs are loaded, and each loaded CP is a fresh one under its own id |
| CoreProperties.InitConsistent | central/core.py:19-35 | a freshly started coordinator is consistent and its CPs are all disconnected with no session |
| CoreProperties.RegisterCpPreserves | central/core.py:46-59 | registering keeps the coordinator consistent |
| CoreProperties.RegisterCpOutcome | central/core.py:46-59 | an unknown CP is created at the given location; a known one changes only its location, and only to a non-empty new one; nothing else changes |
| CoreProperties.AttachCpPreserves | central/core.py:61-68 | attaching keeps the maps well keyed and sessions hosted; the session link survives unless the CP already had a session |
| CoreProperties.DetachCpPreserves | central/core.py:70-79 | detaching keeps the coordinator consistent |
| CoreProperties.DriverChannelsPreserve | central/core.py:81-88 | attaching and detaching a driver keep the coordinator consistent |
| CoreProperties.DriverChannelsOutcome | central/core.py:81-88 | detaching a driver removes its channel alone; attaching one adds its channel and touches no CP, session, CP channel or other driver |
| CoreProperties.RequestSupplyPreserves | central/core.py:105-179 | with a fresh session id, a handled request keeps the coordinator consistent |
| CoreProperties.AuthorizationResponsePreserves | central/core.py:181-226 | a rejection keeps the coordinator consistent, and so does an acceptance for a CP still linked to the session |
| CoreProperties.SupplyStartedPreserves | central/core.py:228-247 | starting keeps the coordinator consistent |
| CoreProperties.SupplyProgressPreserves | central/core.py:249-272 | a progress report keeps the coordinator consistent |
| CoreProperties.FinalizeRestores | central/core.py:274-305 | finalising restores consistency even when the session's CP had lost its link |
| CoreProperties.FinalizePreserves | central/core.py:274-305 | finalising keeps the coordinator consistent |
| CoreProperties.UpdateHealthPreserves | central/core.py:90-103 | a health report, with the abort a FAULT triggers, keeps the coordinator consistent |
| CoreProperties.RemoteCommandPreserves | central/core.py:307-319 | a remote command keeps the coordinator consistent |
| CoreProperties.RequestSupplyOutcome | central/core.py:117-179 | for a connected driver: granted exactly when the CP exists, is available and has a channel; a grant adds one pending session and makes the CP pending; otherwise no session is added and the driver is told DENIED; an unknown CP changes no CP and one that is not available only its contact time, and either sends exactly one message, the DENIED status with the matching text, to the requester and nothing to any other driver; what each branch does to the CP table is `RequestSupplyCpFrame` |
| CoreProperties.RequestSupplyCpFrame | central/core.py:117-179 | the CP table after a request: unchanged for an unknown CP; only the contact time for a CP that is not available; contact time and DISCONNECTED for an available CP with no channel; contact time, PENDING_AUTH and the new session id for a grant |
| CoreProperties.RequestSupplyNeedsDriver | central/core.py:113-115 | a driver with no channel is refused with the exception and nothing changes |
| CoreProperties.RequestSupplyMarksDisconnected | central/core.py:139-150 | an available CP with no channel is marked DISCONNECTED; sessions and CP channels are unchanged; the driver gets exactly two messages, first the DENIED status with the not-connected text, then the CP's new state, which every driver also receives |
| CoreProperties.RejectionFreesCp | central/core.py:197-212 | a rejection removes the session and makes the CP available with no session; the driver's notice is the DENEGADA status carrying the session in state DENIED with the given reason, or "Denegado por el punto" when none or an empty one is given |
| CoreProperties.AcceptanceAuthorizes | central/core.py:189-226 | an unknown session, a missing CP or a missing driver channel changes nothing; an acceptance authorises the session from now and makes the CP supplying |
| CoreProperties.StartKeepsFirstTime | central/core.py:228-247 | a start makes the session in progress and keeps a start time already recorded |
| CoreProperties.ProgressPricing | central/core.py:249-272 | the energy is stored, and the amount owed is the explicit amount when given, otherwise energy times price |
| CoreProperties.FinalizeReleases | central/core.py:274-305 | the session is removed and ends finished iff success; the CP loses its session and is available iff healthy, fault otherwise |
| CoreProperties.FaultAbortsSession | central/core.py:90-103 | a FAULT report on a CP hosting a session aborts it: the session is gone and the CP is in fault with no session; after the fault broadcast the driver gets the CANCELADA status with the session ABORTED, finished now, and the report's message as reason, or "Avería en el punto" when it is missing or empty |
| CoreProperties.FaultAbortNotice | central/core.py:90-103 | the abort a FAULT report triggers is the unsuccessful finalisation with the reported or default reason, and the driver's second new message is its CANCELADA notice |
| CoreProperties.FinalizeNotice | central/core.py:274-305 | finalising appends to the session's driver the FINALIZADA or CANCELADA status carrying the session finished now, in state FINISHED or ABORTED, with the given reason |
| CoreProperties.AttachCpOutcome | central/core.py:61-68 | attaching replaces the CP's channel, creates an unknown CP with an empty location and no session, makes the CP available when its health is OK and in fault otherwise, records the contact, leaves sessions and other CPs alone, and sends every driver the CP's new state |
| CoreProperties.UnknownIdsNoOp | central/core.py:70-305 | a health report or detach for an unknown CP, and a start, progress report, finalisation or authorisation response for an unknown session, leave the whole state unchanged |
| CoreProperties.OkReportLiftsFault | central/core.py:90-101 | an OK report moves a fault to available and leaves every other status as it was |
| CoreProperties.HealthReportStored | central/core.py:90-103 | every report on a known CP stores the health and the contact time, and a FAULT report leaves the CP in fault whether or not it hosts a session; an OK report, or a report on a CP with no session, changes only that CP's health, contact time and status (fault on FAULT, a fault lifted to available on OK), leaves sessions and CP channels alone, and sends every driver the CP's new state with the message |
| CoreProperties.DetachKeepsSession | central/core.py:70-79 | detaching clears the CP's session id and marks it disconnected, but the session itself stays |
| CoreProperties.AttachDriverSnapshot | central/core.py:81-84 | a new driver channel receives exactly one message, the snapshot of every CP |
| CoreProperties.RemoteCommandReach | central/core.py:307-319 | a command for a named CP reaches only that CP's channel, and one for no CP reaches every CP channel |
| CoreProperties.ConnectedState | central/core.py:46-84 | registering, attaching the CP and attaching a driver gives an available CP at that location and a driver holding one snapshot |
| CoreProperties.ConnectedConsistent | central/core.py:46-84 | that connected state is consistent |
| CoreProperties.RegisterAttachDetach | central/core.py:46-79 | register, attach and detach keep the location and end disconnected |
| CoreProperties.AcceptStep | central/core.py:214-226 | an acceptance sends the single driver AUTORIZADA and then the CP's state |
| CoreProperties.StartStep | central/core.py:228-247 | a start sends the single driver EN_CURSO and then the CP's state |
| CoreProperties.ProgressStep | central/core.py:249-272 | a progress report sends the single driver the priced update and then the CP's state |
| CoreProperties.FinishStep | central/core.py:274-305 | a successful finish sends the single driver FINALIZADA and then the CP's state, and frees the CP |
| CoreProperties.ConnectedReady | central/core.py:46-84 | the connected state is ready for a request |
| CoreProperties.HappyRequest | central/core.py:152-179 | a request in the ready state is granted: the CP is asked once with the session, driver and amount, and the driver is told PENDIENTE |
| CoreProperties.HappyAcceptStart | central/core.py:181-247 | acceptance and start send two status messages, each followed by the CP's state |
| CoreProperties.HappyProgressFinish | central/core.py:249-305 | progress and finish send the priced update and FINALIZADA, and leave the CP available with no session |
| CoreProperties.HappyPath | central/core.py:105-305 | the whole supply: the CP gets one authorisation request, the driver sees PENDIENTE first and FINALIZADA last, and the CP ends available |
| CoreProperties.DeniedWhenUnavailable | central/core.py:127-137 | a registered CP that never connected is refused as unavailable, and the driver's last message is DENEGADA |
| CoreProperties.RequestedState | central/core.py:152-179 | after a granted request the CP is pending with that session and the session is pending |
| CoreProperties.ReattachBreaksLink | central/core.py:61-68 | reattaching a pending CP makes it available while it still names its session |
| CoreProperties.ReconnectedState | central/core.py:61-79 | after a drop and reconnection the CP is available with no session while the session lives on |
| CoreProperties.LateAcceptBreaksLink | central/core.py:214-226 | a late acceptance after a reconnection makes the CP supplying with no session id |
| CoreProperties.TwoSessionsOnOneCp | central/core.py:70-79 | a session that survives a disconnection lets a second live session be opened on the same CP |
| CoreProperties.DenialWithoutChannelDeadlocks | central/core.py:139-150 | as written, a request for an available CP with no channel never releases the lock |
| CoreProperties.RejectionDeadlocks | central/core.py:197-212 | as written, a rejection never releases the lock |
| CoreProperties.AsWrittenAgreesElsewhere | central/core.py:105-226 | apart from those two branches, the operations as written end as the corrected functions say |
| Coordinator.CentralCore.constructor | central/core.py:19-35 | the state is the stored CPs loaded into an empty coordinator |
| Coordinator.CentralCore.ChargingPoints | central/core.py:39-40 | the collection holds exactly the known CPs: every stored CP is in it and nothing else is (as a set, without the list's order) |
| Coordinator.CentralCore.Sessions | central/core.py:42-43 | the collection holds exactly the live sessions: every live session is in it and nothing else is (as a set, without the list's order) |
| Coordinator.CentralCore.BroadcastCpState | central/core.py:324-340 | the new state is the CP's view appended to every driver channel |
| Coordinator.CentralCore.RegisterCp | central/core.py:46-59 | the new state is `register_cp`'s, and the returned CP is the stored one |
| Coordinator.CentralCore.AttachCpChannel | central/core.py:61-68 | the new state is `attach_cp_channel`'s: the channel is replaced, sessions and other CPs are untouched, the CP is available iff its health is OK (in fault otherwise) and its contact time is now; the returned CP is the stored one (the rest is `AttachCpOutcome`) |
| Coordinator.CentralCore.DetachCp | central/core.py:70-79 | the new state is `detach_cp`'s, and nothing changes for an unknown CP (`DetachKeepsSession`, `UnknownIdsNoOp`) |
| Coordinator.CentralCore.SendDriverSnapshot | central/core.py:342-357 | the new state is every CP's view sent to the one driver |
| Coordinator.CentralCore.AttachDriverChannel | central/core.py:81-84 | the new state is the channel registered and the snapshot sent |
| Coordinator.CentralCore.DetachDriver | central/core.py:86-88 | the new state has the driver's channel removed |
| Coordinator.CentralCore.UpdateHealth | central/core.py:90-103 | the new state is `update_health`'s: the health and contact time are stored and a FAULT report leaves the CP in fault, with or without a session (`HealthReportStored`), a hosted session is aborted on FAULT with its reason (`FaultAbortsSession`); nothing changes for an unknown CP |
| Coordinator.CentralCore.RequestSupply | central/core.py:105-179 | raises exactly for a driver with no channel, leaving the state unchanged; otherwise the new state is `request_supply`'s |
| Coordinator.CentralCore.ExamineCp | central/core.py:117-150 | for a connected driver, the new state is `request_supply`'s |
| Coordinator.CentralCore.OpenSession | central/core.py:152-179 | the new state holds the new pending session, the CP pending with it, and the driver and CP messages in order |
| Coordinator.CentralCore.CpAuthorizationResponse | central/core.py:181-226 | the new state is `cp_authorization_response`'s |
| Coordinator.CentralCore.SupplyStarted | central/core.py:228-247 | the new state is `supply_started`'s, and nothing changes for an unknown session (`StartKeepsFirstTime`, `UnknownIdsNoOp`) |
| Coordinator.CentralCore.SupplyProgress | central/core.py:249-272 | the new state is `supply_progress`'s at the coordinator's price, and nothing changes for an unknown session (`ProgressPricing`, `UnknownIdsNoOp`) |
| Coordinator.CentralCore.FinalizeSession | central/core.py:274-305 | the new state is `finalize_session`'s |
| Coordinator.CentralCore.AbortSession | central/core.py:321-322 | the new state is an unsuccessful finalisation with the reason |
| Coordinator.CentralCore.RemoteCommand | central/core.py:307-319 | the new state is `remote_command`'s |
| TextCentral.CPRecord.StartCharge | sd-p1-2025/src/EV_Central/EV_Central.py:93-98 | the record charges for the driver with both counters at zero, and nothing else changes |
| TextCentral.CPRecord.StopCharge | sd-p1-2025/src/EV_Central/EV_Central.py:100-105 | the record is idle with no driver and both counters at zero, and nothing else changes |
| TextCentral.StopUndoesStart | sd-p1-2025/src/EV_Central/EV_Central.py:93-105 | stopping after a start is stopping alone, and a start after that is the same start |
| TextCentral.NewRecord | sd-p1-2025/src/EV_Central/EV_Central.py:56-69 | a new record is disconnected, healthy, idle, in service, with no driver, zero counters, 11 kW and 0.35 EUR/kWh |
| TextCentral.WithCp | sd-p1-2025/src/EV_Central/EV_Central.py:183-195 | the table gains the id if it was missing, as a new record at "Calle", and every existing record is untouched |
| TextCentral.Classify | sd-p1-2025/src/EV_Central/EV_Central.py:275-453 | every field of the recognised command comes from the pieces after the keyword |
| TextCentral.Format | sd-p1-2025/src/EV_Central/EV_Central.py:9-14 | the line a peer sends for a command, keyword and fields joined with `#`; stated by `FormatStripped`, `FormatSplits` and `ParseFormat` |
| TextCentral.Parse | sd-p1-2025/src/EV_Central/EV_Central.py:271-318 | the handler's reading of a line: strip, split on `#`, classify; stated by `ParseFormat` and `ParsedFieldsClean` |
| TextCentral.StripKeeps | sd-p1-2025/src/EV_Central/EV_Central.py:271 | a line that neither starts nor ends with white space is left alone by `strip` |
| TextCentral.JoinLast | sd-p1-2025/src/EV_Central/EV_Central.py:273 | a join ends with the last character of its last piece |
| TextCentral.JoinEndsWithSep | sd-p1-2025/src/EV_Central/EV_Central.py:273 | a join whose last piece is empty ends with the separator |
| TextCentral.FormatStripped | sd-p1-2025/src/EV_Central/EV_Central.py:271 | a formatted command line has nothing for `strip` to remove |
| TextCentral.FormatSplits | sd-p1-2025/src/EV_Central/EV_Central.py:271-273 | a formatted line splits into its keyword followed by its fields |
| TextCentral.ParseFormat | sd-p1-2025/src/EV_Central/EV_Central.py:271-318 | the handler reads back exactly the command a monitor or driver formats |
| TextCentral.ParsedFieldsClean | sd-p1-2025/src/EV_Central/EV_Central.py:273-318 | every field read off a line is free of the separator |
| TextCentral.ReplyText | sd-p1-2025/src/EV_Central/EV_Central.py:321-389 | the reply as written on the wire; stated by `GrantedReplySplits`, `DeniedReplySplits` and, from the driver's side, `RequestRoundTrip` |
| TextCentral.GrantedReplySplits | sd-p1-2025/src/EV_Central/EV_Central.py:342-389 | a grant splits into AUTH_GRANTED, the CP, the driver and, on a reconnection, RECONNECT |
| TextCentral.DeniedReplySplits | sd-p1-2025/src/EV_Central/EV_Central.py:321-370 | a denial splits into AUTH_DENIED and its reason |
| TextCentral.DenialPrecedence | sd-p1-2025/src/EV_Central/EV_Central.py:357-366 | a request is refused exactly when the CP is not connected, stopped, faulty or charging, with the reason chosen in that order (each case an iff) |
| TextCentral.DenialReason | sd-p1-2025/src/EV_Central/EV_Central.py:357-366 | the refusal reason in the order DISCONNECTED, OUT_OF_ORDER, FAULT, BUSY; stated by `DenialPrecedence` and `DenialReasonClean` |
| TextCentral.Apply | sd-p1-2025/src/EV_Central/EV_Central.py:275-453 | one command against the table; stated by `MonitorLines`, `RequestOutcome`, `RequestReplyForm`, `FinishOutcome`, `UnrecognisedNacked` and `ApplyKeepsInvariant` |
| TextCentral.Step | sd-p1-2025/src/EV_Central/EV_Central.py:271-453 | one received line: parse, then apply; stated by `StepFormat`, `FeedValid` and `UnrecognisedNacked` |
| TextCentral.DenialReasonClean | sd-p1-2025/src/EV_Central/EV_Central.py:357-366 | no denial reason holds the separator `#` |
| TextCentral.CleanedUp | sd-p1-2025/src/EV_Central/EV_Central.py:457-465 | at connection end only the CP the connection introduced, if non-empty and known, becomes disconnected and idle; nothing else changes |
| TextCentral.StopCp | sd-p1-2025/src/EV_Central/EV_Central.py:507-517 | `stop` marks a known CP out of order and not charging; unknown ids and other records are untouched |
| TextCentral.ResumeCp | sd-p1-2025/src/EV_Central/EV_Central.py:528-538 | `resume` puts a known CP back in service and healthy; unknown ids and other records are untouched |
| TextCentral.ReceiveAsWritten | sd-p1-2025/src/UTILS/protocol.py:159-181 | as written, the receive step always yields a message, even when the peer closed or the read timed out |
| TextCentral.Receive | sd-p1-2025/src/EV_Central/EV_Central.py:259-264 | the receive step the loop expects: no message exactly when no frame arrived |
| TextCentral.RunAfterClose | sd-p1-2025/src/EV_Central/EV_Central.py:257-264 | once the loop has left, later reads change nothing |
| TextCentral.AsWrittenNeverLeaves | sd-p1-2025/src/EV_Central/EV_Central.py:257-264 | as written, the loop never leaves, whatever is read |
| TextCentral.Feed | sd-p1-2025/src/EV_Central/EV_Central.py:257-273 | one turn of the loop; stated by `AuthFeed`, `FeedValid`, `FeedClosed` and `FeedFrame` |
| TextCentral.Run | sd-p1-2025/src/EV_Central/EV_Central.py:257-465 | the loop over a sequence of reads; stated by `RunNext`, `RunAfterClose`, `RunKeepsInvariant`, and equal to what `Central.Serve` leaves |
| TextCentral.AuthFeed | sd-p1-2025/src/EV_Central/EV_Central.py:275-282 | an AUTH line on a fresh connection creates the CP connected and makes it the connection's CP |
| TextCentral.FeedValid | sd-p1-2025/src/EV_Central/EV_Central.py:266-273 | a valid frame on a running connection is handled as a line |
| TextCentral.ClosedMonitorStaysConnected | sd-p1-2025/src/EV_Central/EV_Central.py:257-265 | as written, a monitor that introduces itself and closes leaves the loop running and its CP still connected |
| TextCentral.StepFormat | sd-p1-2025/src/EV_Central/EV_Central.py:271-453 | handling a formatted line is handling the command it was formatted from |
| TextCentral.RunTwo | sd-p1-2025/src/EV_Central/EV_Central.py:257 | two reads are taken one after the other |
| TextCentral.ClosedConnectionDisconnects | sd-p1-2025/src/EV_Central/EV_Central.py:457-465 | with the corrected receive step, a loop that has left has run the clean-up on its CP |
| TextCentral.ClosedMonitorDisconnects | sd-p1-2025/src/EV_Central/EV_Central.py:457-465 | with the corrected receive step, a monitor that introduces itself and closes ends disconnected and idle |
| TextCentral.UnrecognisedNacked | sd-p1-2025/src/EV_Central/EV_Central.py:452-453 | an unrecognised line is answered NACK and changes nothing |
| TextCentral.MonitorLines | sd-p1-2025/src/EV_Central/EV_Central.py:275-302 | AUTH makes the CP connected, healthy and idle; FAULT makes it connected, faulty and idle; both create an unknown CP and adopt it for the connection |
| TextCentral.RequestOutcome | sd-p1-2025/src/EV_Central/EV_Central.py:316-400 | REQ: unknown CP gives CP_NOT_FOUND, the same driver charging gives a RECONNECT grant, a refusal gives its reason, all three leave the table alone; otherwise a grant starts the charge and publishes the start command |
| TextCentral.RequestReplyForm | sd-p1-2025/src/EV_Central/EV_Central.py:316-380 | every REQ gets an answer, never NACK: a grant names the requesting driver and the CP, a denial's reason holds no separator |
| TextCentral.FinishOutcome | sd-p1-2025/src/EV_Central/EV_Central.py:402-450 | FINISH stops the CP's charge with no reply, publishes the stop and the invoice with the values from before the reset, and does not depend on the driver id |
| TextCentral.ApplyKeepsInvariant | sd-p1-2025/src/EV_Central/EV_Central.py:275-453 | every line keeps each record under its own id and every charging record connected, healthy, in service and with a driver |
| TextCentral.HousekeepingKeepsInvariant | sd-p1-2025/src/EV_Central/EV_Central.py:457-538 | the clean-up, `stop` and `resume` keep that invariant |
| TextCentral.RunKeepsInvariant | sd-p1-2025/src/EV_Central/EV_Central.py:257-465 | a whole connection, whatever it reads, keeps that invariant |
| TextCentral.StopThenResume | sd-p1-2025/src/EV_Central/EV_Central.py:507-538 | after `stop` every new driver is refused, OUT_OF_ORDER when the CP is connected and DISCONNECTED when it is not, and nothing is published; `resume` then restores the CP in service, healthy and idle |
| TextCentral.Central.constructor | sd-p1-2025/src/EV_Central/EV_Central.py:115-118 | the server starts from the loaded table with nothing published |
| TextCentral.Central.EnsureCp | sd-p1-2025/src/EV_Central/EV_Central.py:183-195 | the table becomes `WithCp` of the old one and the returned record is the stored one |
| TextCentral.Central.CpExists | sd-p1-2025/src/EV_Central/EV_Central.py:197-200 | true exactly when the id is in the table |
| TextCentral.Central.Handle | sd-p1-2025/src/EV_Central/EV_Central.py:271-453 | the table, the connection's CP, the reply and the published messages are those of handling the line |
| TextCentral.Central.Dispatch | sd-p1-2025/src/EV_Central/EV_Central.py:275-453 | the same for an already parsed command |
| TextCentral.Central.Request | sd-p1-2025/src/EV_Central/EV_Central.py:316-400 | the same for the REQ branch |
| TextCentral.Central.Cleanup | sd-p1-2025/src/EV_Central/EV_Central.py:457-465 | the table becomes the cleaned-up one and nothing is published |
| TextCentral.Central.Serve | sd-p1-2025/src/EV_Central/EV_Central.py:250-465 | the loop ends in the state `Run` gives for the corrected receive step, with the replies in order |
| TextCentral.Central.Stop | sd-p1-2025/src/EV_Central/EV_Central.py:507-527 | reports whether the CP was known, leaves the table `StopCp` gives, and for a known CP publishes the operator's stop command for it (nothing otherwise) |
| TextCentral.Central.Resume | sd-p1-2025/src/EV_Central/EV_Central.py:528-541 | reports whether the CP was known and leaves the table `ResumeCp` gives |
| TextCentral.RunNext | sd-p1-2025/src/EV_Central/EV_Central.py:257-259 | the loop one read further is one more turn |
| TextCentral.FeedClosed | sd-p1-2025/src/EV_Central/EV_Central.py:261-264 | with the corrected receive step, a closed or timed-out read ends the loop with the clean-up |
| TextCentral.FeedFrame | sd-p1-2025/src/EV_Central/EV_Central.py:266-273 | a corrupted frame is skipped and a valid one is handled |
| Engine.Toggled | sd-p1-2025/src/EV_CP_E/EV_CP_E.py:51-54 | health is negated and nothing else changes |
| Engine.Started | sd-p1-2025/src/EV_CP_E/EV_CP_E.py:56-61 | charging for the driver with both counters at zero, health unchanged |
| Engine.Stopped | sd-p1-2025/src/EV_CP_E/EV_CP_E.py:63-68 | idle with no driver and both counters at zero, health unchanged |
| Engine.ToggleTwice | sd-p1-2025/src/EV_CP_E/EV_CP_E.py:51-54 | toggling twice restores the original state |
| Engine.StopForgetsStart | sd-p1-2025/src/EV_CP_E/EV_CP_E.py:56-68 | a charge leaves no trace once stopped |
| Engine.GetDefault | sd-p1-2025/src/EV_CP_E/EV_CP_E.py:126 | `payload.get(key, default)`: the default for a missing key, no value for an explicit null, the string otherwise |
| Engine.Get | sd-p1-2025/src/EV_CP_E/EV_CP_E.py:122 | `payload.get(key)`: no value for a missing or null field; used by the command filter |
| Engine.ForThisCp | sd-p1-2025/src/EV_CP_E/EV_CP_E.py:122 | the filter takes a command naming no CP, this CP or "all"; stated by `CommandEffect` and `CentralCommandsReachEngine` |
| Engine.AfterCommand | sd-p1-2025/src/EV_CP_E/EV_CP_E.py:120-135 | `_on_command` on the state; stated by `CommandEffect`, `CommandKeepsIdleClean` and `CentralCommandsReachEngine` |
| Engine.CommandEffect | sd-p1-2025/src/EV_CP_E/EV_CP_E.py:120-135 | commands for another CP and unknown operations change nothing; start (driver "unknown" when missing), stop and toggle do what they name |
| Engine.CommandKeepsIdleClean | sd-p1-2025/src/EV_CP_E/EV_CP_E.py:120-135 | every command keeps an idle engine free of driver and counters |
| Engine.CentralCommandsReachEngine | sd-p1-2025/src/EV_CP_E/EV_CP_E.py:120-135 | the start and stop commands Central publishes, and the operator's stop published by `stop`, act on the addressed engine (started, stopped) and are ignored by any other |
| Engine.CentralStop | sd-p1-2025/src/EV_Central/EV_Central.py:521-526 | the operator's stop as the engine reads it: this CP, `stop_charge`, no driver; stated by `CentralCommandsReachEngine` |
| Engine.CommandFor | sd-p1-2025/src/EV_Central/EV_Central.py:390-526 | the payload each bus message of the text Central carries (start and stop with the driver, the operator stop; no command for an invoice); stated by `CentralCommandsReachEngine` |
| Engine.HealthReply | sd-p1-2025/src/EV_CP_E/EV_CP_E.py:107-116 | no reply exactly when the request bytes do not decode (the error is only logged); otherwise OK iff the stripped text is PING and the engine is healthy, KO iff PING and faulty, NACK iff not PING |
| Engine.CPState.constructor | sd-p1-2025/src/EV_CP_E/EV_CP_E.py:39-48 | a new engine is healthy and idle with 0.35 EUR/kWh and 11 kW |
| Engine.CPState.ToggleOk | sd-p1-2025/src/EV_CP_E/EV_CP_E.py:51-54 | the state is toggled and the new health is returned |
| Engine.CPState.StartCharge | sd-p1-2025/src/EV_CP_E/EV_CP_E.py:56-61 | the state is the started one |
| Engine.CPState.StopCharge | sd-p1-2025/src/EV_CP_E/EV_CP_E.py:63-68 | the state is the stopped one |
| Engine.CPState.TickTelemetry | sd-p1-2025/src/EV_CP_E/EV_CP_E.py:70-84 | while idle: no report and no change; while charging: the new power, the amount grown by one second of it, reported with CP and driver |
| Engine.CPState.OnCommand | sd-p1-2025/src/EV_CP_E/EV_CP_E.py:120-135 | the state is the one the filtered command gives |
| DriverClient.RequestOutcome | sd-p1-2025/src/EV_Driver/EV_Driver.py:210-279 | granted exactly when the first field is AUTH_GRANTED; a grant takes the CP and starts charging; a refusal changes nothing |
| DriverClient.Request | sd-p1-2025/src/EV_Driver/EV_Driver.py:225-279 | `request_service` given the response; stated by `RequestOutcome`, `GrantRead`, `DenialRead`, `NackRead` and `RequestRoundTrip` |
| DriverClient.DenialShown | sd-p1-2025/src/EV_Driver/EV_Driver.py:259-260 | the reason a denial shows, the second field or UNKNOWN; stated by `DenialRead` |
| DriverClient.GrantRead | sd-p1-2025/src/EV_Driver/EV_Driver.py:228-257 | a grant Central writes puts the driver on the CP and charging, zeroing the counters unless the grant is a RECONNECT, and is read faithfully |
| DriverClient.DenialRead | sd-p1-2025/src/EV_Driver/EV_Driver.py:259-276 | a denial Central writes leaves the driver's state alone, shows Central's own reason, and is read faithfully |
| DriverClient.NackRead | sd-p1-2025/src/EV_Driver/EV_Driver.py:277-279 | a NACK leaves the driver's state alone and is read faithfully |
| DriverClient.RequestRoundTrip | sd-p1-2025/src/EV_Driver/EV_Driver.py:225-279 | for every table and every REQ line, Central answers and the driver reads that answer faithfully: granted exactly when Central granted, unchanged when refused |
| DriverClient.SendToCentral | sd-p1-2025/src/EV_Driver/EV_Driver.py:187-204 | NO_ACK when the frame was not acknowledged, CORRUPTED when no valid answer came, the answer otherwise |
| DriverClient.FinishGuard | sd-p1-2025/src/EV_Driver/EV_Driver.py:283-285 | finishing while not charging, or for another CP, reports zeros and changes nothing |
| DriverClient.Complete | sd-p1-2025/src/EV_Driver/EV_Driver.py:297-325 | the closing step once Central confirmed; stated by `FinishConfirmed` |
| DriverClient.FinishAsWritten | sd-p1-2025/src/EV_Driver/EV_Driver.py:281-325 | `finish_service` as written, completing only on "ACK"; stated by `FinishGuard` and `FinishNeverCompletes` |
| DriverClient.Finish | sd-p1-2025/src/EV_Driver/EV_Driver.py:281-325 | `finish_service` completing on an acknowledged frame; stated by `FinishGuard`, `FinishConfirmed` and `FinishThenPay` |
| DriverClient.FinishConfirmed | sd-p1-2025/src/EV_Driver/EV_Driver.py:297-325 | a confirmed finish stops charging and waits for payment, keeping CP and counters; the figures are the invoice's for this CP when one is at hand, the driver's own otherwise |
| DriverClient.FinishNeverCompletes | sd-p1-2025/src/EV_Driver/EV_Driver.py:297 | as written, against the text Central the finish never completes: charging stays on and paying does nothing |
| DriverClient.FinishThenPay | sd-p1-2025/src/EV_Driver/EV_Driver.py:297-340 | corrected: an acknowledged finish waits for payment, and paying returns the driver to its initial state |
| DriverClient.Pay | sd-p1-2025/src/EV_Driver/EV_Driver.py:327-340 | nothing unless a charge waits for payment; then the flag, the CP and the counters are cleared |
| DriverClient.PayIdempotent | sd-p1-2025/src/EV_Driver/EV_Driver.py:327-340 | paying twice is paying once |
| DriverClient.TelemetryFilter | sd-p1-2025/src/EV_Driver/EV_Driver.py:122-139 | telemetry for another CP or driver changes nothing, and accepted telemetry changes only the counters |
| DriverClient.Telemetry | sd-p1-2025/src/EV_Driver/EV_Driver.py:122-139 | `_on_telemetry` on the state; stated by `TelemetryFilter` |
| DriverClient.CentralInvoiceUsed | sd-p1-2025/src/EV_Driver/EV_Driver.py:152-168 | the invoice Central publishes reaches the driver it names, who then reports its figures; another driver ignores it |
| DriverClient.OnInvoice | sd-p1-2025/src/EV_Driver/EV_Driver.py:152-168 | `_on_invoice`: an invoice for this driver replaces the kept one; stated by `CentralInvoiceUsed` |
| DriverClient.OperationsKeepValid | sd-p1-2025/src/EV_Driver/EV_Driver.py:210-340 | every operation keeps a charge waiting for payment tied to a CP |
| DriverClient.KeptLines | sd-p1-2025/src/EV_Driver/EV_Driver.py:359-363 | the list has no more entries than the file has lines |
| DriverClient.Kept | sd-p1-2025/src/EV_Driver/EV_Driver.py:361-363 | a stripped line is kept when non-empty and not a comment; stated by `KeptLinesMembers` |
| DriverClient.KeptLinesAppend | sd-p1-2025/src/EV_Driver/EV_Driver.py:359-363 | the list for two parts of a file is the two lists one after the other |
| DriverClient.KeptLinesMembers | sd-p1-2025/src/EV_Driver/EV_Driver.py:359-363 | an id is listed exactly when some line, stripped, is that id, non-empty and not a comment |
| DriverClient.CpIdsFromLines | sd-p1-2025/src/EV_Driver/EV_Driver.py:359-363 | the loop collects exactly the kept lines, in file order |
| DriverClient.Driver.constructor | sd-p1-2025/src/EV_Driver/EV_Driver.py:46-54 | a new driver has the dataclass defaults and no invoice |
| DriverClient.Driver.RequestService | sd-p1-2025/src/EV_Driver/EV_Driver.py:210-279 | the new state and the result are those `Request` gives, and the invoice is kept |
| DriverClient.Driver.FinishService | sd-p1-2025/src/EV_Driver/EV_Driver.py:281-325 | the new state, the kept invoice and the figures are those the corrected `Finish` gives |
| DriverClient.Driver.PayService | sd-p1-2025/src/EV_Driver/EV_Driver.py:327-340 | the new state is the paid one |
| DriverClient.Driver.OnTelemetry | sd-p1-2025/src/EV_Driver/EV_Driver.py:122-150 | the new state is the one the filtered telemetry gives |
| DriverClient.Driver.OnInvoiceMessage | sd-p1-2025/src/EV_Driver/EV_Driver.py:152-168 | the kept invoice is replaced by one for this driver; the state is unchanged |

## Left out

- Sockets, the accept loops and asyncio networking: a read is a parameter (`ReadResult`, `Incoming`), and the bytes written are a log.
- Locks and concurrency: every operation is atomic and sequential. The one exception is the lock re-entry recorded under Findings.
- Socket timeouts and their restoration: a timeout is one of the read outcomes.
- Timestamps (`utcnow`, `time.time`): an integer `now` parameter; the text Central's `last_ts` is a field nothing updates here.
- The session id from `secrets.token_urlsafe`: a `freshId` parameter, required to be non-empty and unused where a lemma needs it.
- Floating point: energy, power and money are reals. `CoreSpec.AmountDue` multiplies exactly, with no rounding.
- Engine.CPState.TickTelemetry: does not model the random variation around `kw_max` or the rounding to 2 and 4 decimals, because both are floating-point effects; the sampled power is a parameter and the amount is exact.
- DriverClient.Telemetry: the kWh accumulation is real arithmetic without floating-point rounding.
- Coordinator.CentralCore.ChargingPoints: the source returns a list in the dictionary's insertion order (central/core.py:39-40); the model keeps the CPs in a map and returns a set, so that order is not captured.
- Coordinator.CentralCore.Sessions: likewise a set, where the source returns a list in insertion order (central/core.py:42-43).
- Coordinator.CentralCore.SendDriverSnapshot: the snapshot (also in `CoreProperties.AttachDriverSnapshot`) is a map from CP id to view, where the source sends a list in insertion order (central/core.py:342-357).
- Kafka: the text Central's published messages are a list (`bus`). The case with no producer, where nothing is published, and producer failures are not modelled.
- TextCentral.RunKeepsInvariant: the invariant (every charging record connected, healthy, in service and with a driver) holds for the socket handler, the clean-up, `stop` and `resume` only. The Kafka telemetry consumer `_on_telemetry` (sd-p1-2025/src/EV_Central/EV_Central.py:477-491), which marks a CP charging and connected on any telemetry for it, is not modelled, and with it the invariant would not hold (`TextCentral.ApplyKeepsInvariant` and `TextCentral.HousekeepingKeepsInvariant` likewise).
- DriverClient.Telemetry: a `kw` or `eur` field present with an explicit JSON null is read as 0, like a missing field. The source stores `None` and then raises in the kWh sum, which the handler logs and swallows (sd-p1-2025/src/EV_Driver/EV_Driver.py:133-139), leaving `last_kw`/`last_eur` as `None`.
- DriverClient.OnInvoice: a `total_kw` or `total_eur` present with an explicit JSON null is read as 0, whereas the source keeps `None` in the stored invoice.
- Persistence (`persist_db`, `load_db`, the SQLite and JSON databases, `_persist`): the loaded table or the stored CPs are constructor parameters.
- The GUI callbacks, logging and all `print` output.
- The exception branches of the text Central's handler, and `_send_to_central`'s `ERROR#<exception>` answer.
- The `time.sleep` that waits for the invoice in `finish_service`: the invoice at hand is a parameter.
- The operator commands `list` and `quit`, and the CLI's own whitespace splitting and lower-casing; `stop` and `resume` take the id directly.
- Aliasing of records: the text Central's `CPRecord`s are values in a map, so the handler's in-place field updates are map updates.
- A `cp_id` in an engine command that is not a string (a number, say): fields are missing, null or strings.
- Engine.HealthReply: the decoding of the probe's bytes is not modelled: a request is the text it decodes to, or `Undecodable`. A request longer than one `recv` of 1024 bytes, and a socket error while reading or replying, are not modelled.
- Byte payloads stand for UTF-8 text: the codec works on bytes, and strict UTF-8 decoding is a well-formedness predicate.

## Findings

| source | as written | input that shows it | evidently intended | confidence | as-written member | corrected member |
|---|---|---|---|---|---|---|
| central/core.py:149-210 | at lines 149 and 210, inside `async with self._lock`, the denial for a CP with no channel and the rejection branch await `_broadcast_cp_state`, which takes the same non-reentrant `asyncio.Lock` again | a request for an AVAILABLE CP with no registered CP channel; or `cp_authorization_response(accepted=False)` for a live session | broadcast after the lock is released, as the other operations do | high, not executed | CoreSpec.RequestSupplyAsWritten, CoreSpec.AuthorizationResponseAsWritten (CoreProperties.DenialWithoutChannelDeadlocks, CoreProperties.RejectionDeadlocks) | CoreSpec.RequestSupply, CoreSpec.AuthorizationResponse (CoreProperties.RequestSupplyMarksDisconnected, CoreProperties.RejectionFreesCp) |
| sd-p1-2025/src/EV_Central/EV_Central.py:261 | the loop leaves only when the message is `None`, but `receive_with_protocol` returns `("", False)` on an empty read or a timeout (sd-p1-2025/src/UTILS/protocol.py:163-164 and 178-179) | a monitor sends `AUTH#CP1` and closes the connection | leave the loop on a closed or timed-out connection and run the `finally` clean-up | high, not executed | TextCentral.ReceiveAsWritten (TextCentral.AsWrittenNeverLeaves, TextCentral.ClosedMonitorStaysConnected) | TextCentral.Receive (TextCentral.ClosedConnectionDisconnects, TextCentral.ClosedMonitorDisconnects) |
| sd-p1-2025/src/EV_Driver/EV_Driver.py:297 | `finish_service` completes only on a response reading `ACK`, but Central answers FINISH with the protocol ACK byte alone and no reply frame (sd-p1-2025/src/EV_Central/EV_Central.py:402-413), so the driver's response is `ERROR#CORRUPTED` | a charging driver sends `FINISH#CP1#D1` | complete once Central acknowledged the FINISH frame | medium, not executed | DriverClient.FinishAsWritten (DriverClient.FinishNeverCompletes) | DriverClient.Finish (DriverClient.FinishThenPay) |
