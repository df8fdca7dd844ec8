# Drone management: verified models of its control and decoding cores

The program watches for drones and can jam them through a network relay. These Dafny modules model
the parts of it whose correctness rests on state, interleaving or arithmetic, and prove what those
parts are for. `dafny verify dfyconfig.toml` checks the whole project.

## What is modelled

* **Interference service** (`Channels`, `Boards`, `Surveys`, `Reports`, `Frames`, `Commands`, `StrikeLaw`,
  `Interference`, `Runs`). One object keeps the channels' levels, a list of them for status requests, a strike-active flag, a
  pending-stop flag, one platform report and one external report per channel. Timed starts, stops,
  direct reads, delayed monitor messages, failures, offline marking, unattended mode and shutdown
  all change it, each under one lock. `Interference.Service` is that object; each method that holds
  the lock is one step. Its ghost histories (evidence about levels, commands sent, calls to the
  report store, looks at the connection status) grow where the environment is asked, and the
  contracts tie every method's reaction to them. Two marks are written beside the reaction instead:
  `SettleReport` notes the low level of an accepted message when it gives up software control, and
  `MarkOffline` notes that the level was overwritten; the contracts of `ObserveRelayState`, `Look`
  and `ListChannels` say exactly when each is written. `Service.Inv` holds in every state reached by
  any sequence of calls (`Runs.AnyRun`), and `Runs.InOrder` spells out what that means. `StrikeLaw`
  says, from before and after a call, what a stop and a start have to look at and may send.
* **Relay wire layer** (`RelayStream`, `RelayMonitor`). The resynchronising decoder of mixed ASCII and
  binary messages, with its frames and reports; and the odd/even version counter through which the
  status monitor notices commands, proved over interleaved steps.
* **Packet cores** (`Crc24`, `InterleaveTables`, `Text`, `Mask176`). The table-driven 24-bit checksum
  against polynomial long division (gCRC24A, section 5.1.1 of 3GPP TS 36.212), the masking and
  interleaving of 176 bytes, and the normaliser that recognises the direction. Words are sequences of
  bits, most significant first, so that they are polynomials over GF(2); shifts and masks of the
  32-bit words are written out.
* **Platform protocol** (`ControlExecutor`, `Connection`). At-most-once execution of control tasks
  within a bounded memory; and the generation counter that makes steps of an outdated connection
  attempt harmless, over interleaved steps.
* **Smaller cores** (`FpvScanner`, `DebugRecorder`, `VideoSession`). The FPV stream scanner, the ring of
  debug records, and the life cycle of the single video session over interleaved steps.

`Bytes` holds the small types the modules share.

## Assumptions about the environment

* The clock never goes backwards, and when a monitor message is processed the clock has reached the
  time the message carries. `ObserveRelayState` takes any message, however much newer than everything
  seen before. Times are counted from 1; 0 is the zero time.
* The report store hands out identifiers never used before and keeps the channel list it is given.
* Channel definitions have distinct identifiers, and the output factory always returns an output.
* Everything the relay, the connection status, the store and the network answer is arbitrary at each
  use; so are the arguments of every call.
* Settings fingerprints are equal only for equal settings.

## Where the code does less than one might expect

Each of these is stated exactly rather than assumed away.

* `FpvScanner`: the scanner is not independent of how TCP cuts the stream. Resynchronisation drops
  everything up to the next alarm or frame start, `OK` and `ERROR` replies included, but only while the
  stretch is in one buffer. `ChunkingIndependentIffClean` gives the exact condition,
  `ReplyAfterJunk` a concrete stream.
* `Mask176.NormalizeAgain`: the encrypted side of an accepted packet normalises to the same pair
  exactly if its own core does not happen to have checksum zero.
* `RelayStream.ReadFrameWellFormed`: a frame built for a command in 0x70..0x72 is not one the decoder
  takes, since those commands have short frames.
* `StrikeLaw`: the connection status is looked at twice before a stop. A failing stop is remembered
  exactly unless the device is online at the first look and offline at the second, or a stop was
  pending anyway (`FailedStopRememberedIff`; `StopIsLost` is such a call from any moment).
* `StrikeLaw`: a cleared pending flag says that every switch-off sent was acknowledged, not that every
  channel is low. After a successful pass every strike channel was switched off or seen low if and
  only if the level of each one that was not switched off could be read (`StopReachesAllIff`).
  `HalfReadableEscapes` has one channel on and another unreadable: the pass succeeds and never
  touches the second.
* `Channels.ReadListedExactly`: the list shows a channel just read exactly if and only if the read
  failed or the channel had no error text; otherwise the entry keeps the old text
  (`StaleErrorListed`).

## Model

| member | source | states |
|---|---|---|
| Runs.AnyRun | internal/interference/service.go:94-122 | after any number of calls in any order, with any arguments and answers: the invariant and all of `InOrder` hold, commands and calls to the report store are never taken back, and between any two calls the pending flag is cleared only by a stop pass, which polled every strike channel and got acknowledgements for switch-offs to exactly the channels the poll calls for |
| Runs.EveryState | internal/interference/service.go:717-808 | what the invariant means: every switch-on ever sent is timed, 10 to 180 s, on a strike channel, not while a stop is pending, not by hand while unattended mode is on; flag, list and levels are right; one platform report runs at most, the one held, and one external report per channel; no report ends twice; external reports open only without software control and outside the running report, and one still open belongs to a channel not seen low since, unless the store failed to end it or was removed |
| Runs.StrikeCall | internal/interference/service.go:694-833 | a strike, a stop, a retry or the end of unattended mode keeps the invariant and obeys the law of the pending flag |
| Runs.OtherCall | internal/interference/service.go:283-361 | every other call, monitor messages of any time included, keeps the invariant, takes nothing back and never clears the pending flag wrongly |
| Channels.LatestUnique | internal/interference/external.go:51-57 | the order by time, then reads before frames, then arrival has one latest entry |
| Channels.OwnedSinceSwitchOn | internal/interference/service.go:857-883 | software owns a channel iff it was switched on and has not been seen low since |
| Channels.LatestShown | internal/interference/service.go:1529-1561 | a sound channel shows the level of its latest evidence, or unknown once marked offline since |
| Channels.NewSound | internal/interference/service.go:209-219 | a new channel is sound |
| Channels.ReadSound | internal/interference/service.go:1529-1561 | a direct read makes a channel sound whatever its state was, at the time of the read |
| Channels.ReadListedExactly | internal/interference/service.go:1533-1559 | the entry cached by a read is the channel exactly iff the read failed or there was no error text |
| Channels.StaleErrorListed | internal/interference/service.go:1549-1559 | a failed command followed by a successful read leaves the error text in the list |
| Channels.FrameSound | internal/interference/external.go:49-83 | a late message keeps the channel sound, and it counts iff it is the latest evidence on arrival |
| Channels.OfflineSound | internal/interference/service.go:1132-1152 | offline marking keeps a channel sound: level unknown until newer evidence |
| Channels.ErrorSound | internal/interference/service.go:1498-1507 | recording an error leaves level and times alone |
| Channels.SwitchedSound | internal/interference/service.go:857-883 | after an acknowledged command the flags, the level and software ownership agree, whatever times it carries |
| Channels.ReleasedSound | internal/interference/external.go:96-98 | giving up software control on a low frame matches the history and leaves the level alone |
| Channels.ReadShows | internal/interference/service.go:1529-1561 | a read leaves the level it gives, low for 0 and high for 1, unknown after a failure; a low one ends software control; nothing else changes |
| Channels.CommandShows | internal/interference/service.go:857-926 | after an acknowledged command and its read: what was asked for, when, who controls, the level read, no old error text |
| Channels.FailureShows | internal/interference/service.go:1132-1152 | an offline marking leaves no level, a failed command leaves all but status and error text |
| Channels.DtoShows | internal/interference/service.go:1509-1522 | the published view shows the fields of the channel |
| Boards.LevelIsThatOfLatest | internal/interference/service.go:1529-1561 | in an orderly board each channel's level is that of the latest evidence delivered about it |
| Boards.EntryExactIff | internal/interference/service.go:1533-1559 | the same exact condition for the channel's entry in the list of the whole board |
| Boards.PutSettles | internal/interference/service.go:1574-1584 | replacing one channel and its list entry leaves all others settled and settles that one |
| Boards.PutListed | internal/interference/service.go:1574-1584 | caching a channel changes its own place in the list only |
| Boards.ReadSettles | internal/interference/service.go:1529-1561 | reading the one unsettled channel, refreshing the flag and the list puts the board in order |
| Boards.OfflineSettles | internal/interference/service.go:1132-1152 | marking a channel offline keeps the board in order |
| Boards.ErrorSettles | internal/interference/service.go:1498-1507 | recording an error keeps the board in order without refreshing the flag |
| Boards.SwitchUnsettles | internal/interference/service.go:857-884 | between an acknowledged command and the read after it only that channel is unsettled |
| Surveys.AnyOnIsOnIds | internal/interference/service.go:1586-1598 | the flag is set iff the list of active strike channels is not empty |
| Surveys.NoneOnAllLow | internal/interference/service.go:1154-1163 | when every level is known and no strike channel is on, every one of them is low |
| Surveys.SelectIds | internal/interference/service.go:975-981 | the selection holds exactly the wanted strike channels |
| Surveys.SelectedAll | internal/interference/service.go:975-985 | nothing wanted is left over iff everything wanted is a strike channel |
| Surveys.OnIdsInOrder | internal/interference/service.go:1086-1107 | active channels are listed in definition order |
| Surveys.SelectIdsInOrder | internal/interference/service.go:975-981 | so are selected ones |
| Surveys.SurveyStep | internal/interference/service.go:1086-1107 | polling one more channel leaves the others alone and extends the list of active channels and the known levels accordingly |
| Surveys.ReadPolls | internal/interference/service.go:1095-1106 | a read counts as a poll; the channel is on iff its view says so and known iff the read succeeded |
| Surveys.OfflinePolls | internal/interference/service.go:1089-1094 | an offline marking counts as a poll that leaves the level unknown |
| Boards.NewBoardOk | internal/interference/service.go:197-243 | a new service's channels, list and flag are in order |
| Reports.NewLedgerOk | internal/interference/service.go:220-226 | a new service's books are in order |
| Reports.PlatformOk | internal/interference/service.go:1207-1213 | creating a platform report while none is held keeps the books in order |
| Reports.PlatformEndOk | internal/interference/service.go:1255-1276 | ending the platform report, whatever the store answers, keeps the books in order |
| Reports.ExternalOk | internal/interference/external.go:115-147 | opening an external report outside the running report, with none open for the channel, keeps the books in order |
| Reports.ExternalEndOk | internal/interference/external.go:150-169 | ending one keeps the books in order, also when the store fails and it stays open |
| Reports.RefusalOk | internal/interference/service.go:1207-1210 | a failed creation changes nothing but the log |
| Reports.LogShowsOrder | internal/interference/service.go:1182-1277 | read from the log of store calls alone: at most one platform report running, one open external report per channel, no report ended twice, every external one opened rightly |
| Frames.TakenSettles | internal/interference/external.go:49-83 | an accepted or a stale message leaves the channel settled |
| Frames.TakenFollows | internal/interference/external.go:49-83 | a message counts for a channel iff it is later than its last read and command, not earlier than the last message, and carries an error or 0 or 1 at the channel's own output; then the level is unknown, low or high, and otherwise nothing changes |
| Frames.AllFollow | internal/interference/external.go:47-103 | for a whole message: that level for every strike channel, software control given up on low, its external report ended, opened or left alone; other channels untouched |
| Frames.CompleteMeans | internal/interference/external.go:46-83 | a message is full iff it has no error, there is a strike channel, and it counts for every one |
| Frames.SweepStep | internal/interference/external.go:49-83 | one channel of the first pass; the others keep their state |
| Frames.RoleSeen | internal/interference/external.go:91-101 | what the second pass reads from the new state is what the message meant for the old one |
| Frames.CloseStep | internal/interference/external.go:91-101 | one channel of the second pass |
| Frames.SettlingStep | internal/interference/external.go:91-101 | the external report of one channel is closed, opened or left alone according to its role, the others untouched |
| Frames.ReleaseOk | internal/interference/external.go:96-98 | giving up software control disturbs neither flag nor list |
| Frames.ObservedAll | internal/interference/external.go:84-108 | both passes and the final check together: every channel and every external report is dealt with |
| StrikeLaw.FailedStopRememberedIff | internal/interference/service.go:701-710 | a failing stop is remembered iff a stop was pending anyway or it was not the case that only the second look found the device offline |
| StrikeLaw.StopIsLost | internal/interference/service.go:701-710 | a stop that fails, sends nothing and is forgotten |
| StrikeLaw.SuccessfulStopPassed | internal/interference/service.go:732-752 | a successful stop made a pass whose every switch-off was acknowledged |
| StrikeLaw.TargetsCover | internal/interference/service.go:733-739 | switch-offs go only to channels seen on or, while nothing is on, to those of the running report; clean ones reach everything seen on, and if nothing was on every channel of the report was seen low or switched off |
| StrikeLaw.StopDoneCovers | internal/interference/service.go:732-752 | the same of the commands appended by a stop pass, without failure iff the flag is down; a flag left up has an unacknowledged command or an offline finding as reason; if the relay was never found offline every strike channel has been read |
| StrikeLaw.StopMakesPass | internal/interference/service.go:701-752 | a stop that finds the relay online at both looks makes such a pass and fails iff the flag is up |
| StrikeLaw.RetryMakesPass | internal/interference/service.go:816-833 | so does a retry while a stop is pending |
| StrikeLaw.LookReads | internal/interference/service.go:1076-1130 | a look that never finds the relay offline has read every strike channel, and saw the level read |
| StrikeLaw.StartCallMeans | internal/interference/service.go:701-808 | what a start sends: nothing when it is refused, and otherwise timed switch-ons of the selected channels in order, then switch-offs of selected ones; success means all of them acknowledged after a look that showed nothing on, and all levels low if a report ran |
| StrikeLaw.StopReachesAllIff | internal/interference/service.go:733-751 | after a successful pass every strike channel was switched off or seen low iff the level of every channel it did not call for could be read; which those are `StopDoneCovers` says |
| StrikeLaw.HalfReadableEscapes | internal/interference/service.go:733-751 | one channel on and another unreadable: the pass succeeds, the second is neither switched off nor known to be low |
| Interference.Service.constructor | internal/interference/service.go:197-243 | the invariant holds at the start, nothing is on, no report runs |
| Interference.Service.CacheChannel | internal/interference/service.go:1574-1584 | the list with this channel's entry replaced |
| Interference.Service.SyncStrikeActive | internal/interference/service.go:1586-1598 | the flag is set iff some non-reserved channel is enabled |
| Interference.Service.FinishExternalReport | internal/interference/external.go:150-169 | ends the open report of a channel once; kept open without a store or when it fails; the guard on the time never applies |
| Interference.Service.StartExternalReport | internal/interference/external.go:111-148 | opens one unless there is no store, one is open, or the running report owns the channel |
| Interference.Service.ReadChannel | internal/interference/service.go:1529-1561 | the whole new state after a direct read, failed or not |
| Interference.Service.RecordReading | internal/interference/service.go:1536-1557 | the channel's fields after a read; a low level ends its external report |
| Interference.Service.MarkOffline | internal/interference/service.go:1132-1152 | the whole new state after an offline marking |
| Interference.Service.MarkError | internal/interference/service.go:1498-1507 | the whole new state after a failed command |
| Interference.Service.RecordSwitchOff | internal/interference/service.go:876-886 | channel low and released, its external report ended, then read |
| Interference.Service.SwitchOff | internal/interference/service.go:864-890 | one switch-off sent; acknowledged: as above; otherwise the error recorded and nothing else changed |
| Interference.Service.RecordSwitchOn | internal/interference/service.go:918-926 | channel high under software control, then read |
| Interference.Service.SetStateLocked | internal/interference/service.go:835-891 | the whole new state: unknown channels are refused, reserved ones read and refused, neither with a command; otherwise at most the one command, then the switched channel read, or the error recorded |
| Interference.Service.SetTimedState | internal/interference/service.go:893-931 | the whole new state: at most one command, a relay-timed switch-on of a non-reserved channel; success iff acknowledged, then channel high and read; otherwise the error recorded |
| Interference.Service.Look | internal/interference/service.go:1086-1106 | one channel is marked iff the relay is found offline for it and no probe is allowed, and read otherwise |
| Interference.Service.Snapshot | internal/interference/service.go:1076-1130 | every strike channel polled exactly once, the others untouched; returns the active ones and whether all levels are known; as many are marked instead of read as the relay was found offline, but for the one probe allowed, which goes to the first |
| Interference.Service.TakeSnapshot | internal/interference/service.go:1072-1074 | the same look as it can be told from later: no more channels were marked than the relay was found offline, and the evidence of the others stays |
| Interference.Service.FinishActiveReport | internal/interference/service.go:1248-1277 | the running report ends and is let go, whatever the store answers |
| Interference.Service.FinishCompletedReportIfInactive | internal/interference/service.go:1154-1166 | finished iff everything was read and every channel of the report is low |
| Interference.Service.CreateRunningReport | internal/interference/service.go:1182-1214 | a fresh report with the selected channels, or nothing when the store refuses |
| Interference.Service.CreateFailedReport | internal/interference/service.go:1216-1246 | one call to the store |
| Interference.Service.StopChannels | internal/interference/service.go:1009-1023 | switch-offs of the channels in order, each after the relay was found online; finding it offline ends them with an error, and nothing else cuts them short; no error iff all were sent and acknowledged |
| Interference.Service.StopPass | internal/interference/service.go:733-739 | a look at every strike channel, then switch-offs, one by one while the relay is online, to the active channels, or to those of the running report when nothing is on and not everything could be read; without error everything seen on was switched off, and with nothing on every channel of the report was seen low or switched off |
| Interference.Service.StopAndLook | internal/interference/service.go:733-740 | the same with the second look |
| Interference.Service.ApplyStop | internal/interference/service.go:732-752 | a pass in the sense of the law of stops, which reaches everything seen on or else the channels of the running report; the pending flag afterwards says exactly whether it failed; the report ends when it failed or everything was read |
| Interference.Service.SelectRequested | internal/interference/service.go:975-981 | the requested strike channels in definition order |
| Interference.Service.ValidateChannels | internal/interference/service.go:959-986 | which requests are refused and why, and otherwise the selection |
| Interference.Service.StopSelected | internal/interference/service.go:783-788 | after a failing channel all selected ones are sent a switch-off, cut short only by a relay found offline, and the failure is reported |
| Interference.Service.StartChannel | internal/interference/service.go:777-795 | at most one switch-on; a failing channel has all selected ones switched off again as by a stop, an offline relay does not; either failure is reported |
| Interference.Service.StartChannels | internal/interference/service.go:776-796 | timed switch-ons of the selected channels in order, all acknowledged on success; after a failing channel switch-offs of all of them, cut short only by a relay found offline |
| Interference.Service.CheckIdle | internal/interference/service.go:767-774 | a start goes ahead only if a poll shows nothing on, and everything readable or no report running; afterwards no report runs |
| Interference.Service.StartIdle | internal/interference/service.go:776-807 | the switch-ons once a look has allowed them; then the store, if any, is asked for the new report: it is held, or its refusal is the last call |
| Interference.Service.StartSelected | internal/interference/service.go:767-807 | the look decides, in the sense of the law of starts; after a success the new report is held, fresh and with the selection, unless the last call is its refusal; no running one is overwritten |
| Interference.Service.RequestMeans | internal/interference/service.go:754-766 | a request is refused unless it names a channel, all names are those of strike channels, and it lasts 10 to 180 seconds; asked for are exactly the channels named |
| Interference.Service.ApplyStart | internal/interference/service.go:754-808 | refusals before anything is looked at, otherwise the law of starts; after a success the new report is held unless the last call is its refusal, after a failure the last call reports it |
| Interference.Service.ApplyScreenStrikeLocked | internal/interference/service.go:717-808 | a stop is a pass whose failure the flag says; no start while a stop is pending, none by hand in unattended mode, otherwise the law of starts |
| Interference.Service.MarkPendingStrikeStop | internal/interference/service.go:810-814 | the flag is set |
| Interference.Service.ApplyScreenStrike | internal/interference/service.go:694-715 | the looks before the lock decide: a stop is remembered if the first finds the device offline, lost if only the second does, and otherwise made; a start is refused if its look finds the device offline |
| Interference.Service.RetryPendingStrikeStop | internal/interference/service.go:816-833 | a stop pass iff a stop is pending and the device not found offline; otherwise nothing changes |
| Interference.Service.RefreshScreenStrikeState | internal/interference/service.go:349-361 | all strike channels polled; the report ends iff all levels are known and its channels low |
| Interference.Service.ListChannel | internal/interference/service.go:295-300 | one channel marked iff the relay is found offline for it, and read otherwise |
| Interference.Service.ListChannels | internal/interference/service.go:284-311 | nothing changes if the relay is found offline at first; otherwise every channel is polled once, as many marked as the relay was found offline; the answer is exactly the list as it then stands |
| Interference.Service.TakeMessage | internal/interference/external.go:49-83 | one channel takes a message iff it is later than its last read and command, not earlier than the last message, and carries an error or a value of 0 or 1 for its own output; the level is then unknown, low for 0, high for 1 |
| Interference.Service.TakeMessages | internal/interference/external.go:47-83 | the first pass over all channels; the message counts as full iff it carries no error and every strike channel accepts it |
| Interference.Service.SettleReport | internal/interference/external.go:93-101 | software control and external report of one accepted channel |
| Interference.Service.SettleReports | internal/interference/external.go:90-103 | the second pass over all channels |
| Interference.Service.ObserveRelayState | internal/interference/external.go:37-109 | for a message of any time, in its own terms: for every strike channel the level of its output's value, software control and external report; the running report ends iff every strike channel, and at least one, accepts the message and its channels are low then; messages about inputs change nothing |
| Interference.Service.ObserveLocked | internal/interference/external.go:44-108 | the same for the locked part |
| Interference.Service.SettleObserved | internal/interference/external.go:84-108 | once some channel accepted the message: flag, second pass, and the check that ends the running report |
| Frames.SweptComplete | internal/interference/external.go:46-86 | the set of accepted channels is not empty and none is missing iff the message tells the level of every strike channel |
| Interference.Service.CheckUnattended | internal/interference/service.go:403-435 | exactly which requests are refused and why, in order: device offline, stop pending, invalid request, device offline after the look, a channel on |
| Interference.Service.EnableUnattended | internal/interference/service.go:437-448 | enabled, not striking |
| Interference.Service.CheckDisable | internal/interference/service.go:464-468 | without a need to stop, unattended mode leaves nothing behind: no stop pending, no strike channel on, no report running; and a need has one of these reasons |
| Interference.Service.DisableUnattended | internal/interference/service.go:470-473 | disabled |
| Interference.Service.Disable | internal/interference/service.go:463-488 | the mode ends, and either nothing was on, pending or running, or the law of stops applies |
| Interference.Service.UpdateUnattendedStatus | internal/interference/service.go:638-656 | only an enabled mode takes a new phase |
| Interference.Service.SetState | internal/interference/service.go:314-338 | switching on by hand is always refused without a command; switching off sends exactly one, and after a successful one every strike channel is polled and the running report ends iff all levels are known and its channels low |
| Interference.Service.EndExternalReports | internal/interference/external.go:150-169 | every external report is ended, or the store fails to end it now |
| Interference.Service.Shutdown | internal/interference/service.go:934-957 | no platform report is left running, and an external one stays open only if the store failed to end it in this very call |
| RelayStream.ChunkingIndependent | internal/interference/relay_monitor.go:111-119 | draining the decoder after every chunk yields the messages and the leftover of the whole stream, for every stream and every chunking |
| RelayStream.DrainSplit | internal/interference/relay_monitor.go:196-239 | draining a stream in two parts is draining it whole |
| RelayStream.FrontStable | internal/interference/relay_monitor.go:196-239 | a decision of the decoder is final: later bytes cannot change it |
| RelayStream.YieldsPiecesOfInput | internal/interference/relay_monitor.go:196-239 | the messages are well formed, disjoint pieces of the input in its order, and the leftover is its end |
| RelayStream.RecoversMessages | internal/interference/relay_monitor.go:196-239 | well-formed messages between junk without a message start are recovered, all of them, in order |
| RelayStream.BinaryRules | internal/interference/relay_monitor.go:212-233 | a binary message byte by byte: 48 3A, 15 bytes or 10 for commands 70 to 72, 45 44 at the end, and in the long form the sum of the first twelve bytes |
| RelayStream.ReplyRules | internal/interference/relay_monitor.go:199-206 | a reply is "zq" up to the first "qz" after it |
| RelayStream.RelayReadFrame | internal/interference/relay_monitor.go:159-167 | the fifteen bytes of the query frame |
| RelayStream.ReadFrameWellFormed | internal/interference/relay_monitor.go:159-167 | a built frame is one the decoder takes iff its command is outside 0x70..0x72 |
| RelayStream.ParseRelayStatusFrame | internal/interference/relay_monitor.go:169-188 | a report iff 15 bytes, the own address, command 41 or 54 and eight values of 0 or 1; inputs for 41, and the values in order |
| RelayStream.Intact | internal/interference/relay_monitor.go:218-227 | trailer and checksum decide exactly which framed bytes are a message |
| RelayStream.ParsedIsReportable | internal/interference/relay_monitor.go:169-188 | whatever is parsed has eight values of 0 or 1 |
| RelayStream.StatusRoundTrip | internal/interference/relay_monitor.go:169-239 | decoder and parser accept a frame as a report iff it is that report, byte for byte |
| RelayStream.RelayStreamDecoder.Next | internal/interference/relay_monitor.go:196-239 | the first message of the buffer and the buffer after it, or none and the buffer trimmed |
| RelayStream.RelayStreamDecoder.Receive | internal/interference/relay_monitor.go:113-119 | one read of the connection delivers what draining the extended buffer delivers |
| RelayStream.ReadReply | internal/interference/relay.go:251-278 | the answer to a command is the first ASCII message of the stream, with only binary ones before it, however it is cut; it fails only without one, early on a leftover of more than 1024 bytes |
| RelayMonitor.Controller.Begin | internal/interference/relay.go:221-229 | the start of a command is one step of the protocol: a set command makes the version odd |
| RelayMonitor.Controller.End | internal/interference/relay.go:227-228 | its end on every path is one step: the version is even again |
| RelayMonitor.Monitor.LoadVersion | internal/interference/relay_monitor.go:80-82 | the version is loaded before the query is written |
| RelayMonitor.Monitor.WriteQuery | internal/interference/relay_monitor.go:86-91 | one step of the protocol, after which an answer is awaited |
| RelayMonitor.Monitor.TakeOutput | internal/interference/relay_monitor.go:125-133 | the check of an output frame, one step of the protocol |
| RelayMonitor.OddWhileInFlight | internal/interference/relay.go:221-229 | in every interleaving the version is odd exactly while a set command is in flight, and at most one command is under way |
| RelayMonitor.AnswerAcceptedIffQuiet | internal/interference/relay_monitor.go:80-133 | an output frame read while an answer is awaited is taken iff no set command was in flight from just before the query to the check, up to 2^64 increments |
| RelayMonitor.FirstFrameAcceptedIffQuiet | internal/interference/relay_monitor.go:80-133 | from what happened alone: the first output frame after a written query is taken iff no set command was in flight from the version load of that query to the check |
| RelayMonitor.UnaskedAcceptedIffQuietNow | internal/interference/relay_monitor.go:125-133 | with no query written since the last output frame, a report is accepted iff no set command is in flight at that moment |
| RelayMonitor.CommandRuns | internal/interference/relay.go:221-229 | whenever the lock is free an idle sender can go through a whole command; a set command adds two to the version, a get command nothing |
| RelayMonitor.QueryRuns | internal/interference/relay_monitor.go:78-133 | whenever nothing is awaited the monitor can query and read the answer, which is awaited in between |
| RelayMonitor.ReportAcceptedIffQuietNow | internal/interference/relay_monitor.go:125-133 | an unrequested report is accepted iff no set command is in flight at that moment |
| RelayMonitor.AwaitingHasQuery | internal/interference/relay_monitor.go:78-93 | while an answer is awaited its query is the last version load of this connection |
| RelayMonitor.QuietMeansUnchanged | internal/interference/relay.go:227-228 | the counter stands still and even over exactly the quiet stretches |
| Crc24.RemainderLinear | internal/diddecrypt/mask176.go:9-21 | polynomial remainders are linear |
| Crc24.RemainderOfPrefix | internal/diddecrypt/mask176.go:121-128 | dividing a prefix first changes nothing |
| Crc24.NonZeroStays | internal/diddecrypt/mask176.go:5 | multiplying by x never makes a remainder vanish |
| Crc24.BurstChangesCrc | internal/diddecrypt/mask176.go:121-128 | two messages of any length differing only inside 24 consecutive bits have different checksums |
| Crc24.CoreCrcZeroIff | internal/diddecrypt/mask176.go:71-86 | the checksum of body and check bytes is zero iff the check bytes are the checksum of the body |
| Crc24.CrcOfOne | internal/diddecrypt/mask176.go:5-21 | the checksum of the byte 01, which is the table's entry 1 and the remainder of x^24, is 0x864CFB |
| Crc24.TableWord | internal/diddecrypt/mask176.go:10-19 | a table entry is the bit-by-bit remainder of its byte, although higher bits build up until the final mask |
| Crc24.BuildTable | internal/diddecrypt/mask176.go:9-21 | so are all 256 |
| Crc24.ByteStep | internal/diddecrypt/mask176.go:123-126 | one byte of the table-driven loop is eight steps of the division |
| InterleaveTables.InterleaveIsPermutation | internal/diddecrypt/mask176.go:24-36 | the interleaving is a permutation of 0..175 with the stated inverse |
| InterleaveTables.InterleaveFingerprints | internal/diddecrypt/mask176.go:24-36 | a weighted sum of each row of the interleaving |
| InterleaveTables.MaskFingerprints | internal/diddecrypt/mask176.go:38-50 | and of each row of the mask |
| Mask176.ProgramTablesSound | internal/diddecrypt/mask176.go:23-59 | the program's tables have the shape the transform needs |
| Mask176.ReverseInterleave | internal/diddecrypt/mask176.go:52-58 | the loop computes the inverse permutation |
| Mask176.TransformInverse | internal/diddecrypt/mask176.go:88-119 | the two directions undo each other on bytes |
| Mask176.DirectionsInverse | internal/diddecrypt/mask176.go:88-119 | and on lowercase hexadecimal strings of any length |
| Mask176.Normalize176Hex | internal/diddecrypt/mask176.go:88-119 | byte i is unmasked and goes to its interleaved place, or comes from there and is masked; other lengths are left alone |
| Mask176.DecryptHex | internal/diddecrypt/mask176.go:93-105 | unmasking and scattering give the decrypted side |
| Mask176.EncryptHex | internal/diddecrypt/mask176.go:107-118 | gathering and masking give the encrypted side |
| Mask176.Crc24Hex | internal/diddecrypt/mask176.go:121-128 | the table-driven loop computes the polynomial remainder of the bits written, for every string of whole bytes |
| Mask176.HexDigits | internal/diddecrypt/mask176.go:61-69 | the digits are the usual ones, capitals read like small letters |
| Mask176.TransformBytes | internal/diddecrypt/mask176.go:93-118 | what each direction does to each byte |
| Mask176.NormalizePacketHex | internal/diddecrypt/mask176.go:71-86 | the loops and tests compute the specified normalisation |
| Mask176.AcceptedShape | internal/diddecrypt/mask176.go:72-75 | only 176 or 180 bytes of hexadecimal digits are ever accepted |
| Mask176.LowerKnown | internal/diddecrypt/mask176.go:72 | capitals become small letters, other characters stay |
| Mask176.KnownCoreIsDecrypted | internal/diddecrypt/mask176.go:76-79 | 172 bytes of zero followed by 01 86 4C FB are recognised as a decrypted packet |
| Mask176.AcceptedIsRelated | internal/diddecrypt/mask176.go:71-86 | an accepted packet is a related pair with checksum zero, untouched tail and the input on one side; a refused input is a side of no such pair |
| Mask176.NormalizeAgain | internal/diddecrypt/mask176.go:71-86 | feeding the decrypted side back gives the same pair; the encrypted side iff its own core has not checksum zero or both sides agree |
| Mask176.DamageIsNoticed | internal/diddecrypt/mask176.go:121-128 | a core with checksum zero changed inside three consecutive bytes never has checksum zero |
| ControlExecutor.NormalizeDuration | internal/counterstrike/service.go:607-618 | 60 for none and otherwise the nearest of the durations from 10 to 180 |
| ControlExecutor.Execute | internal/counterstrike/service.go:408-448 | exactly which tasks ask for a strike and for which one, and that the code is zero iff one was asked for and succeeded; its error is the message |
| ControlExecutor.RememberStep | internal/counterstrike/service.go:660-674 | map and queue stay the memory of the last 256 executions |
| ControlExecutor.SpacedExtends | internal/counterstrike/service.go:660-674 | executing a task outside the memory keeps repeats 256 distinct tasks apart |
| ControlExecutor.MemoryIsHistory | internal/counterstrike/service.go:382 | the map's keys are the queue's entries, and its answers those given |
| ControlExecutor.OutcomeMeans | internal/counterstrike/service.go:408-448 | result, answer and strike of one execution, read from the request |
| ControlExecutor.Lately | internal/counterstrike/service.go:382 | a task is remembered iff it is among the last 256 remembered executions |
| ControlExecutor.Executor.RememberResponse | internal/counterstrike/service.go:660-674 | keys and duplicate-free queue of at most 256 entries agree; the history grows by what was remembered |
| ControlExecutor.Executor.ExecuteControl | internal/counterstrike/service.go:388-391 | the strike asked for iff the request orders one; the answer published carries its identifiers and the time, code zero iff the strike was asked for and succeeded, and the strike's error otherwise |
| ControlExecutor.Executor.HandleControl | internal/counterstrike/service.go:361-406 | exactly when a message is ignored, refused, replayed or executed, which strike it asks for, and what is published last: the answer to the request with code zero iff a strike was asked for and succeeded, the refusal of a broken payload, or the answer given among the last 256 executions |
| ControlExecutor.RepeatsAreFarApart | internal/counterstrike/service.go:660-674 | repeats in a spaced log have 256 other, pairwise different tasks between them |
| ControlExecutor.StrikesOfOneTaskAreFarApart | internal/counterstrike/service.go:361-406 | two strikes the executor asked for on behalf of one task come from two executions with 256 executions of other, pairwise different tasks between them |
| ControlExecutor.AnyMessages | internal/counterstrike/service.go:361-406 | that law after any sequence of messages, with any answers and device settings |
| Connection.Service.ApplySettings | internal/counterstrike/service.go:104-137 | a change of settings advances the generation by one, resets subscriptions, retry delay and connection, and asks for a disconnect; the same settings change nothing |
| Connection.Service.Reconnect | internal/counterstrike/service.go:213-234 | refused iff disabled or incomplete; otherwise a new generation, nothing subscribed, no delay, connecting |
| Connection.Service.SetConnectionState | internal/counterstrike/service.go:814-827 | sets both flags under the current generation and nothing under another |
| Connection.Service.SetConnectionSuccess | internal/counterstrike/service.go:829-841 | under the current generation connected, without retry delay; nothing under another |
| Connection.Service.SetConnectFailure | internal/counterstrike/service.go:843-855 | under the current generation not connected, with the given delay; nothing under another |
| Connection.Service.SetSubscribed | internal/counterstrike/service.go:857-865 | sets the flag under the current generation and nothing under another |
| Connection.Service.ConnectRetryPending | internal/counterstrike/service.go:874-881 | an outdated tick is told to wait |
| Connection.StepSound | internal/counterstrike/service.go:253-326 | every step of the interleaving keeps the invariant |
| Connection.StatusMeansCurrent | internal/counterstrike/service.go:253-359 | in every interleaving, connected was set by a success of the current generation, a retry delay by its failure, and subscribed means both topics of the current settings were acknowledged under it on the last connection |
| Connection.HealthyTickConnects | internal/counterstrike/service.go:253-359 | an undisturbed tick in which nothing fails ends connected and subscribed to both topics, over a new connection if there was none |
| Connection.FailingTickRetries | internal/counterstrike/service.go:253-359 | one whose connection or subscription fails ends disconnected with the next attempt due ten seconds later |
| Connection.OtherTicks | internal/counterstrike/service.go:253-267 | before that time a tick does nothing; without wanted settings it disconnects |
| Connection.ClosedOncePerChange | internal/counterstrike/service.go:104-137 | in every run one disconnect is owed for each change and each reconnect |
| Connection.LinkSteps | internal/counterstrike/service.go:253-294 | only a tick opens a connection |
| Connection.FirstState | internal/counterstrike/service.go:83-97 | the first settings make generation one, with nothing connected |
| Connection.StaleTickIsHarmless | internal/counterstrike/service.go:253-359 | whatever an outdated tick still does leaves the status alone |
| FpvScanner.ScanSplit | internal/fpv/service.go:264-308 | a clean stream scanned in two parts is scanned whole |
| FpvScanner.CleanStreamChunks | internal/fpv/service.go:241-308 | and in any chunks, line ends split across reads included |
| FpvScanner.ChunkingIndependentIffClean | internal/fpv/service.go:264-308 | every chunking gives the same deliveries and leftover iff no reply start stands in a stretch dropped by resynchronisation |
| FpvScanner.ReplyAfterJunk | internal/fpv/service.go:300-305 | a concrete stream on which the cut matters |
| FpvScanner.RecoversItems | internal/fpv/service.go:264-308 | alarm lines, replies, frames of 8 bytes from FE and of 16 from 1F, with separators between them and junk before them, are delivered, all of them, in order |
| FpvScanner.IncompleteKept | internal/fpv/service.go:272-299 | a line without its end and a frame too short are kept whole |
| FpvScanner.TrimLeadingSeparators | internal/fpv/service.go:574-579 | drops separators only, without changing what is scanned |
| FpvScanner.ConsumeLineEnd | internal/fpv/service.go:581-586 | drops line ends only, without changing what is scanned |
| FpvScanner.NextFrameStart | internal/fpv/service.go:588-595 | the place where scanning resumes |
| FpvScanner.IngestBuffer | internal/fpv/service.go:264-308 | the loop delivers what the scan delivers and keeps what it keeps |
| FpvScanner.Connection.Receive | internal/fpv/service.go:247-254 | one read: what is left is kept, or its last bytes that fit the limit |
| FpvScanner.LimitInvisible | internal/fpv/service.go:241-254 | while the leftover fits, the limit changes nothing, and a clean stream is delivered whole |
| DebugRecorder.StableOrderUnique | internal/protocol/debug.go:90-92 | the listing is determined: one stable order by time, a permutation of the kept records |
| DebugRecorder.SortStable | internal/protocol/debug.go:90-92 | the sort, in place, produces it |
| DebugRecorder.ListsNewest | internal/protocol/debug.go:76-94 | such a listing is newest first, complete without a limit, and leaves out nothing newer with one |
| DebugRecorder.SlotIsModulo | internal/protocol/debug.go:87 | the ring index is the slot of the record added that many additions ago |
| DebugRecorder.DebugRecorder.Add | internal/protocol/debug.go:52-74 | the record keeps time, protocol, identifier and payload it came with, and gets the present time, the recorder's protocol and a numbered identifier where it had none; the ring holds the last additions since the last Clear |
| DebugRecorder.DebugRecorder.Collect | internal/protocol/debug.go:85-89 | the kept records, newest addition first |
| DebugRecorder.DebugRecorder.List | internal/protocol/debug.go:76-94 | the kept records by non-increasing time, ties newest-added first; a positive limit gives the first of them and leaves out none that is newer |
| DebugRecorder.DebugRecorder.Clear | internal/protocol/debug.go:96-107 | nothing is kept; the number of records removed; numbering goes on |
| VideoSession.Sessions.TryBegin | internal/httpapi/server.go:1766-1792 | a session begins iff none is active, with a new number |
| VideoSession.Sessions.TakeSnapshot | internal/httpapi/server.go:1618-1657 | the active session iff it is the handler's own, has the token asked for, or any is asked for |
| VideoSession.Sessions.Finish | internal/httpapi/server.go:1794-1810 | released iff it is the active one |
| VideoSession.Sessions.Release | internal/httpapi/server.go:1720-1730 | released and recorded iff it is the active one |
| VideoSession.Sessions.StopSession | internal/httpapi/server.go:1659-1730 | a stop concerns the handler's own session, the one with the token, or any; it is released and recorded with the device's failure if there was one, except that a handler's failed reset keeps a session without recording unless forced |
| VideoSession.StepKeepsInvariant | internal/httpapi/server.go:1659-1730 | every step of the interleaving keeps the invariant |
| VideoSession.ReleasedAndRecordedOnce | internal/httpapi/server.go:1659-1730 | each session is released at most once and recorded exactly when released, with what it was opened with; all but the active one have been |
| VideoSession.FoundSessionIsReleased | internal/httpapi/server.go:1678-1730 | a stop that found its session is the one that releases it |
| VideoSession.UndisturbedStop | internal/httpapi/server.go:1659-1730 | the steps of one stop together do what the stop operation does |
| VideoSession.StopRuns | internal/httpapi/server.go:1659-1730 | and are possible whenever no other stop is under way |
| VideoSession.BeginOpens | internal/httpapi/server.go:1766-1792 | opening succeeds iff no session is active, with the next number |
| VideoSession.TokenFindsItsSession | internal/httpapi/server.go:1701-1718 | in every run a stop by token has the session opened with that token |
| Text.TrimTrims | internal/diddecrypt/mask176.go:72 | trimming removes all outer white space and leaves trimmed text alone |
| Text.TrimLosesSpaceOnly | internal/diddecrypt/mask176.go:72 | what is trimmed away is white space at both ends |
| Text.SpaceInAscii | internal/diddecrypt/mask176.go:72 | blank, tabulator and line ends are white space, visible ASCII characters are not |

## Left out

- Transport and storage: TCP, MQTT, HTTP, SQLite, MediaMTX and RTMP appear only as arbitrary outcomes at the calls.
- The React frontend, licences, SM4, AES, HMAC and JSON encoding: user interface, or thin wrappers of library primitives.
- Published screen-strike states: remaining seconds, start times, labels, report summaries and the second cache of that state do not influence anything proved here.
- Output handles: whether an output object exists and is set up is replaced by an arbitrary failure of `Setup` or of the timed interface; `Cleanup` releases no more than the handle.
- Pointers to channels: the map holds values that the methods replace, so sharing of one channel object between callers is not modelled; the source shares none outside the lock.
- The goroutine of unattended mode: its timers, target detection and saved settings; its calls into the service are calls like any others. Concurrent calls that enable the mode are treated as separate steps, without a claim that only one loop runs.
- Monitor timing: deadlines, poll intervals, the limit on the monitor's leftover and the order in which it reconnects; a reconnect may happen at any step.
- `parseRelayStateResponse`, `parseRelayChannel`, `validateRelayNumber`: field-by-field checks of one reply, with no state.
- Band matching, canonical bands and labels: float and text normalisation; which channels the bands select is a parameter of a control message.
- Connection.Service.ApplySettings: the generation is an unbounded number, so its wrap-around after 2^64 changes is not modelled.
- Connection.StatusMeansCurrent: no claim that the live connection belongs to the current broker settings; a tick may connect after a change and notice only then.
- Mask176.NormalizePacketHex: letters outside ASCII are not lowercased; such a string is refused either way.
- DebugRecorder.SortStable: an insertion sort stands for the library's stable sort; the result is the same, being unique.
- ControlExecutor.Executor.HandleControl: inbound log entries, the last-control status and the list of applied parameters in an answer.
- VideoSession.Sessions.TryBegin: session tokens come from a random source and are given; writing the record itself, its file search and the event stream.
- Nil receivers of recorder and service methods.
