# Verified models of telephony core components

Dafny models of seven stateful cores of the telephony server, each proved against a specification
of its own and then over all inputs, all runs or all interleavings.

| module | what it models |
|---|---|
| `AgentPool`, `AgentRuns`, `AgentLaws`, `AgentHistory`, `AgentBridges` | the life cycle of a call-centre agent: the record shared by the agent's thread, callers, hooks, logoff requests and reloads, each locked section one step |
| `AgentReload` | applying a new agent configuration by mark and sweep |
| `AtReader`, `AtFraming` | the character-level reader of AT messages (result codes of section 5.7 of ITU-T V.250) and the framing it gives |
| `HfpHandshake`, `HfpProgress` | setting up a service-level connection (section 4.2.1 of the Bluetooth Hands-Free Profile) with a queue of expected replies |
| `HfpIndicators`, `IndicatorHistory`, `IndicatorNames` | the indicator table (sections 8.9 and 8.10 of 3GPP TS 27.007) from the text of the messages on |
| `MobileAdapters` | one connected device per Bluetooth adapter, flag access by flag access |
| `AdsiTree`, `AdsiListing`, `AdsiKeyLines`, `AdsiBytes`, `AdsiRecords`, `AdsiCompiler`, `AdsiPacking`, `AdsiDownload` | the ADSI script compiler: trees, the lines they come from, the byte strings that show them, the records these have to fit, the tables, packing into transmissions, and all of it from script to phone |
| `BridgeWait` | the registry of named holding bridges and its reference counts |
| `AnsweringMachine` | answering-machine detection as a fold over frames |
| `AlarmChecksum`, `AlarmReceiver`, `AlarmCalls` | the Ademco checksum and the receive, validate and acknowledge loop of the alarm receiver |
| `RealtimeCodec` | escaping, splitting and decoding of realtime values |

Objects whose fields the source updates are classes; each method is proved equal to a function on
values (or to the tree it shows), and the laws are lemmas about those functions and their runs.
Clocks, sockets, the DSP, allocation, hang-ups and configuration files are inputs.

## What turned out not to hold

Some properties one would expect are false of the code. The code is modelled as it is, with an
input that shows the failure and the exact condition under which the property does hold.

- A caller's bridge granted between the agent's clean-up and its return to the holding bridge, or to an
  agent whose channel is then swapped, can be overwritten by the next grant, and its reference is lost
  (`AgentBridges.LateGrantIsLost`, `AgentBridges.SwappedGrantIsLost`). A run loses a reference if and
  only if a request finds the agent ready with a bridge stored (`AgentBridges.LostExactlyWhenOverwritten`),
  which takes one of these two (`AgentBridges.OnTimeGrantsAreKept`).
- An agent that is being logged out can return to the holding bridge, in the branch that is asserted to
  be unreachable (`AgentLaws.SwapRevivesAgent`). That happens at exactly the joins that come straight
  after a swapped-in channel left the bridge while its agent was being logged out
  (`AgentLaws.LoggingOutEndsExactly`).
- A +CMGR response is read to its end only for certain bodies; after text, trailing blank lines must
  come in threes (`AtFraming.BodyReadExactly`, `AtFraming.TrailingBlankLines`). Likewise CRLF framing
  is exact only for payloads in which no CR is last or, read in pairs, before an LF
  (`AtFraming.CrlfFramesExactlyQuiet`).
- Two users who leave a holding bridge at once can leave it registered until someone uses its name again
  (`BridgeWait.OverlappingLeaversStrand`, `BridgeWait.StrandedExactlyByMisread`).
- Adapters are exclusive in every run if and only if no other adapter has the id of a device's own
  (`MobileAdapters.ExclusiveExactlyWhenApart`, `MobileAdapters.SharedIdMisleads`).
- An ADSI script that ends inside an IF can be accepted (`AdsiTree.UnfinishedScriptAccepted`,
  `AdsiTree.AcceptedIsComplete`).
- The writes of an ADSI script stay in their records if and only if no subroutine comes out longer than
  2048 bytes and no argument encoder's bytes pass a record's end (`AdsiRecords.WritesStayExactly`).
  A main subroutine of empty IFs is accepted however long, and passes its record from the 512th on
  (`AdsiRecords.ManyIfsOverrun`); a key with empty names is accepted with any SENDDTMF, and passes its
  record from the 76th tone on (`AdsiRecords.LongTonesOverrun`). Every script stays
  whose return codes with arguments have at most 30 bytes each and whose longest opcode, with 4 bytes for
  each IF and GOTO line, comes to at most 448; as no opcode has more than ONEVENT's 11 bytes, 109 such
  lines are safe (`AdsiRecords.ShortCodesStay`). Any other bounds on the three admit an accepted script
  that does not stay (`AdsiRecords.BoundsAreExact`). Within the second bound alone, a script stays if and
  only if each return code finds room in what its key's names and codes leave of 80 bytes
  (`AdsiRecords.KeysDecide`).
- After an abandoned Super Fast message a Contact ID message is queued whatever its sum
  (`AlarmReceiver.StaleFlagAdmitsBadSum`, `AlarmReceiver.EventSummedExactlyWhenNeverDisabled`).
- A single empty realtime value reads back as one space (`RealtimeCodec.RoundTrip`).
- The realtime decoder looks past the terminator of a string if and only if it ends in a caret, or in a
  caret and one digit (`RealtimeCodec.LooksPastExactly`, `RealtimeCodec.LoneCaret`). What the driver
  itself stores never does (`RealtimeCodec.StoredColumnsDecodeInBounds`).
- A list of indicators makes the hands-free driver write past its table if and only if it has 16 or more
  (`HfpIndicators.HfpPvt.ParseCindTest`, `IndicatorHistory.LongListsOverrun`); sixteen short ones fit a
  line it reads (`IndicatorHistory.SixteenOverrun`).

## Model

| member | source | states |
|---|---|---|
| `AgentPool.AgentPvt.constructor` | apps/app_agent_pool.c:821-840 | a new agent is logged out, unavailable, without overrides or caller bridge |
| `AgentPool.AgentPvt.LoginExec` | apps/app_agent_pool.c:2176-2188 | refused exactly when someone is logged in; otherwise notes the channel and withdraws any deferred logoff, and nothing else changes |
| `AgentPool.AgentPvt.LoginChannelConfig` | apps/app_agent_pool.c:2106-2116 | replaces all four overrides together |
| `AgentPool.AgentPvt.HoldPush` | apps/app_agent_pool.c:1313-1377 | entering the holding bridge: the new state for each of the eight states, with the wrap-up time in force |
| `AgentPool.AgentPvt.HoldSwap` | apps/app_agent_pool.c:1297-1300 | only the logged channel changes |
| `AgentPool.AgentPvt.HoldHeartbeat` | apps/app_agent_pool.c:1136-1208 | a deferred logoff wins over the probation, acknowledge and wrap-up timers; the channel is kicked exactly on a deferred logoff or a late acknowledgement |
| `AgentPool.AgentPvt.AckTimeout` | apps/app_agent_pool.c:1162-1174 | the acknowledge limit counts milliseconds in 32 unsigned bits and zero means none |
| `AgentPool.AgentPvt.ReadAccept` | apps/app_agent_pool.c:1783-1801 | calls need accepting when the setting in force says so and there are digits to accept with |
| `AgentPool.AgentPvt.ConnectCaller` | apps/app_agent_pool.c:1067-1078 | hands over the stored bridge and leaves none behind |
| `AgentPool.AgentPvt.HoldAck` | apps/app_agent_pool.c:1118-1134 | the accept digit connects in CALL_WAIT_ACK and is ignored in every other state |
| `AgentPool.AgentPvt.FinishAlert` | apps/app_agent_pool.c:1808-1833 | after the alert a present call waits for its acknowledgement or connects at once; any other state is left alone |
| `AgentPool.AgentPvt.RequestExec` | apps/app_agent_pool.c:1977-2001 | granted exactly in READY_FOR_CALL, refused as not logged in or busy without any change otherwise |
| `AgentPool.AgentPvt.CallerAbort` | apps/app_agent_pool.c:1731-1737 | takes the stored bridge and changes nothing else |
| `AgentPool.AgentPvt.RunCleanup` | apps/app_agent_pool.c:1598-1611 | new configuration and disconnect time, and the stored bridge is taken |
| `AgentPool.AgentPvt.AgentLogout` | apps/app_agent_pool.c:1508-1527 | back to logged out with overrides cleared; the stored bridge is taken |
| `AgentPool.AgentPvt.RequestLogoff` | apps/app_agent_pool.c:1012-1034 | a soft logoff is only noted, and only for an agent who is logged in |
| `AgentPool.AgentPvt.ApplyConfig` | apps/app_agent_pool.c:986-999 | the configuration is replaced only while nobody is logged in |
| `AgentRuns.StepKeepsInv` | apps/app_agent_pool.c:1067-1381 | every step of every thread keeps state, logged channel, caller bridge, device state and place of the channel consistent |
| `AgentRuns.RunKeepsInv` | apps/app_agent_pool.c:1067-1381 | the same at every point of every run |
| `AgentRuns.ReachableAgents` | apps/app_agent_pool.c:1508-1618 | in every reachable state: logged in unless LOGGED_OUT; no caller bridge in LOGGED_OUT, PROBATION_WAIT, ON_CALL, CALL_WRAPUP; the device state that belongs to the state |
| `AgentRuns.StepsAreSections` | apps/app_agent_pool.c:1067-1134 | a login, an accept digit, the end of an alert and a request do to the record of a run what the locked sections do |
| `AgentHistory.LoginStatesEntered` | apps/app_agent_pool.c:1313-1340 | from every state that keeps the invariant: LOGGED_OUT is entered by a logout alone, PROBATION_WAIT by the first join alone |
| `AgentHistory.ReadyEntered` | apps/app_agent_pool.c:1136-1208 | READY_FOR_CALL is entered by exactly: a join out of a call that did not come off or out of LOGGING_OUT, a join after a call without wrap-up time, and the heartbeats that end probation and wrap-up |
| `AgentHistory.CallEntered` | apps/app_agent_pool.c:1808-2001 | CALL_PRESENT is entered by a request to a ready agent alone, CALL_WAIT_ACK by the end of the alert when calls have to be accepted, ON_CALL by it when not or by the accept digit |
| `AgentHistory.CallLeft` | apps/app_agent_pool.c:1136-1208 | CALL_WRAPUP is entered by the join after a call when there is a wrap-up time, LOGGING_OUT by the heartbeats that find a deferred logoff or an overdue acknowledgement, and by nothing else |
| `AgentHistory.PlacesEntered` | apps/app_agent_pool.c:1598-1618 | the driver loop is left, and a caller's bridge entered, at exactly these events |
| `AgentHistory.HoldingEntered` | apps/app_agent_pool.c:1540-1618 | the way into the holding bridge is taken, and the holding bridge entered and left, at exactly these events |
| `AgentHistory.LoginPlacesEntered` | apps/app_agent_pool.c:2176-2188 | a login begins with the channel noted, ends with a logout, and clean-up comes after leaving |
| `AgentHistory.RecordFollowsHistory` | apps/app_agent_pool.c:986-1034 | over every run: who is logged in, the deferred logoff, the overrides, the configuration, the probation clock and the disconnect time are what the last event about each of them said |
| `AgentHistory.AcknowledgeLimit` | apps/app_agent_pool.c:1162-1174 | over every run a heartbeat takes CALL_WAIT_ACK to LOGGING_OUT if and only if a logoff is deferred, or the limit in force is not 0 and more than that many seconds, as 32-bit milliseconds, have passed since the end of the alert that began the wait; otherwise the wait goes on |
| `AgentHistory.ProbationLimit` | apps/app_agent_pool.c:1148-1160 | over every run a heartbeat takes PROBATION_WAIT to READY_FOR_CALL if and only if no logoff is deferred and at least five whole seconds lie between the last join and it |
| `AgentHistory.WrapupLimit` | apps/app_agent_pool.c:1176-1188 | over every run a heartbeat takes CALL_WRAPUP to READY_FOR_CALL if and only if no logoff is deferred and more than the wrap-up time in force has passed since the login or clean-up that set the clock last |
| `AgentHistory.CallersAreTold` | apps/app_agent_pool.c:1977-2001 | a caller is told in which states the agent is not logged in, and in which busy |
| `AgentLaws.RunKeepsSteady` | apps/app_agent_pool.c:1598-1618 | without swaps, an agent being logged out is never on its way back into the holding bridge |
| `AgentLaws.LoggingOutEndsExactly` | apps/app_agent_pool.c:1350-1358 | in every run a step in LOGGING_OUT stays there or logs out, if and only if it is not a join straight after a swapped-in channel left the holding bridge in that state |
| `AgentLaws.LoggingOutEndsInLogout` | apps/app_agent_pool.c:1284-1358 | hence in runs without swaps LOGGING_OUT ends only in a logout, and the unexpected-state branch of push is not reached |
| `AgentLaws.SwapRevivesAgent` | apps/app_agent_pool.c:1284-1311 | with a swap it is reached from every held agent being logged out, who then is ready for calls |
| `AgentLaws.SoftLogoffEndsLogin` | apps/app_agent_pool.c:1613-1618 | once a logoff is deferred for an agent who is held, on a call or between the two, no run without swaps brings that agent into the holding bridge again before the logout |
| `AgentLaws.ReadyOnlyWhenRested` | apps/app_agent_pool.c:1176-1188 | within a login without swaps, every way from ON_CALL back to READY_FOR_CALL passes a heartbeat that saw more than the wrap-up time since the last disconnect, or a rejoin with no wrap-up time, and no other state before it |
| `AgentLaws.CallStartsAcknowledged` | apps/app_agent_pool.c:1808-1827 | ON_CALL is entered from CALL_WAIT_ACK exactly when calls have to be acknowledged, from CALL_PRESENT otherwise |
| `AgentBridges.StepKeepsAccounts` | apps/app_agent_pool.c:1598-1611 | every step keeps: granted = taken + overwritten + stored, each grant once, and what is stored is the latest grant |
| `AgentBridges.RunKeepsAccounts` | apps/app_agent_pool.c:1971-2001 | the same at every point of every run |
| `AgentBridges.EachGrantHasOneFate` | apps/app_agent_pool.c:1517-1527 | over every run a granted bridge is taken once, overwritten once or still stored, and only one of these |
| `AgentBridges.ConnectsToLatestGrant` | apps/app_agent_pool.c:1073-1092 | the agent moves only into the bridge of the latest grant, which is taken by that |
| `AgentBridges.LostExactlyWhenOverwritten` | apps/app_agent_pool.c:1987-1992 | a run loses a reference if and only if some request finds READY_FOR_CALL with a bridge stored |
| `AgentBridges.OnTimeGrantsAreKept` | apps/app_agent_pool.c:1604-1618 | without swaps and without grants between clean-up and rejoin no reference is lost in any run |
| `AgentBridges.LateGrantIsLost` | apps/app_agent_pool.c:1343-1358 | from every ready agent about to rejoin, a grant, the rejoin and another grant lose the first bridge |
| `AgentBridges.SwappedGrantIsLost` | apps/app_agent_pool.c:1284-1358 | from every held agent with a call present, a swap, the rejoin and another grant lose the first bridge |
| `AgentReload.Agents.AgentsMark` | apps/app_agent_pool.c:911-924 | marks every agent and changes nothing else |
| `AgentReload.Agents.ApplyOne` | apps/app_agent_pool.c:984-1007 | an entry unmarks its agent, renewing the configuration of one who is not logged in, or creates it |
| `AgentReload.Agents.Unlink` | apps/app_agent_pool.c:926-948 | unlinks exactly the marked agents, dead and unmarked, and keeps the others as they are |
| `AgentReload.Agents.AgentsSweep` | apps/app_agent_pool.c:942-970 | as above, and hangs up exactly the unlinked agents who are logged in |
| `AgentReload.Agents.PostApplyConfig` | apps/app_agent_pool.c:972-1010 | the three passes together are one reload |
| `AgentReload.ApplyAllApplies` | apps/app_agent_pool.c:981-1007 | after the configuration pass the marks are exactly on the agents it does not name |
| `AgentReload.ReloadMatchesConfig` | apps/app_agent_pool.c:911-1010 | for every pool and every configuration: exactly the configured names remain; survivors keep identity, login and state and take the new configuration exactly when logged out; the removed are dead and otherwise unchanged; no mark is left |
| `AgentReload.ReloadIsIdempotent` | apps/app_agent_pool.c:972-1010 | applying the same configuration again removes nobody and changes no record |
| `AtReader.CrlfConsumes` | addons/chan_mobile.c:1564-1585 | reading up to CRLF consumes what it hands on and the CRLF, for every stream |
| `AtReader.UntilOkIsLossless` | addons/chan_mobile.c:1609-1699 | for every stream, when the reader finds the terminator the bytes consumed are those handed on followed by CRLF OK CRLF, whatever partial matches there were; otherwise the stream is used up |
| `AtReader.MatchOkIsLossless` | addons/chan_mobile.c:1626-1696 | the same from every partial match of the terminator |
| `AtReader.Reader.AppendBuf` | addons/chan_mobile.c:1508-1514 | the buffer holds the prefix that fits and the count never passes its size |
| `AtReader.Reader.ReadAndExpectChar` | addons/chan_mobile.c:1520-1538 | one character is consumed and compared, or the stream is at its end |
| `AtReader.Reader.ReadAndAppendChar` | addons/chan_mobile.c:1544-1558 | the expected character is consumed and kept, any other consumed only |
| `AtReader.Reader.ReadUntilCrlf` | addons/chan_mobile.c:1564-1585 | the loop computes the specification of CRLF framing on the unread stream |
| `AtReader.Reader.PutBack` | addons/chan_mobile.c:1626-1692 | a broken match is handed on: the matched part of the terminator and the character after it |
| `AtReader.Reader.MatchTerminator` | addons/chan_mobile.c:1626-1696 | matching the terminator resumes the search after a mismatch |
| `AtReader.Reader.ReadUntilOk` | addons/chan_mobile.c:1609-1699 | the loop computes the specification of the terminator search |
| `AtReader.Reader.ReadSmsPrompt` | addons/chan_mobile.c:1593-1604 | the prompt is read whole or refused |
| `AtReader.Reader.ReadCmgr` | addons/chan_mobile.c:1706-1719 | the header line is completed and the body read up to its OK |
| `AtReader.Reader.ReadResultCode` | addons/chan_mobile.c:1725-1757 | after CR LF, the prompt, a +CMGR response or a plain result, told apart by what was read |
| `AtReader.Reader.ReadCommand` | addons/chan_mobile.c:1763-1777 | a command runs up to its CR |
| `AtReader.Reader.ReadMessage` | addons/chan_mobile.c:1808-1825 | one message: what is left unread, the length or the error, and the prefix of the text that fits |
| `AtFraming.CrlfFramesExactlyQuiet` | addons/chan_mobile.c:1564-1585 | a payload is framed exactly if and only if, passing over each CR together with the character after it, that character is always there and never LF |
| `AtFraming.SearchIsRead` | addons/chan_mobile.c:1609-1699 | the terminator search on lines is a machine of three states, for every list of lines |
| `AtFraming.BodyReadExactly` | addons/chan_mobile.c:1609-1699 | a +CMGR body is read exactly if and only if that machine ends on it |
| `AtFraming.TrailingBlankLines` | addons/chan_mobile.c:1609-1699 | after text the terminator is found if and only if the number of blank lines before it is a multiple of three |
| `AtFraming.ReadOne` | addons/chan_mobile.c:1725-1825 | one encoded message is read back and exactly its own bytes are consumed |
| `AtFraming.StreamRoundTrip` | addons/chan_mobile.c:1808-1825 | every list of results, commands, prompts and SMS responses is read back in order, cut to the buffer |
| `AtFraming.RefusedExactly` | addons/chan_mobile.c:1593-1757 | a read is refused if and only if a CR at the start is not followed by LF or a `>` after them not by a space, and just that character is consumed with them |
| `HfpHandshake.StepKeepsInv` | addons/chan_mobile.c:3198-3552 | whatever message, call, loss or clean-up comes: the stages answered are a prefix of the script, the next stage alone is outstanding, and a stage is never skipped or repeated |
| `HfpHandshake.RunKeepsInv` | addons/chan_mobile.c:3887-3894 | the same over every run |
| `HfpHandshake.OneStageOutstanding` | addons/chan_mobile.c:2984-3063 | in every run, before `initialized`, exactly one initialisation entry is queued and it is the next stage, with CMER early for a blackberry |
| `HfpHandshake.InitializedMeansAnswered` | addons/chan_mobile.c:3275-3552 | `initialized` implies that every stage was answered as it asked, in order; only ECAM may have been refused |
| `HfpProgress.StageAnswered` | addons/chan_mobile.c:3198-3435 | in every reachable open connection the message that the outstanding stage expects, named for both kinds of phone, moves one stage on and leaves the connection open, and after the ninth stage it is initialized |
| `HfpProgress.InitializedAfterNine` | addons/chan_mobile.c:3198-3435 | a connection in which nothing goes wrong, with any other entries queued and settled in between, stays open and is initialized if and only if all nine stages have been answered |
| `HfpProgress.CanBeCompleted` | addons/chan_mobile.c:2984-3063 | from every reachable open connection, answering the head of the queue in turn ends in an initialized one |
| `HfpProgress.NineAnswers` | addons/chan_mobile.c:3275-3435 | connecting and the nine messages in the order of either kind of phone set the connection up |
| `HfpProgress.MessagesSetUp` | addons/chan_mobile.c:3366-3405 | text messages are then set up by the answers to VGS, which may be refused, CMGF and CNMI |
| `HfpProgress.EndsExactly` | addons/chan_mobile.c:3198-3804 | which messages end the connection, at which entry, and under which failures, as an if and only if |
| `HfpProgress.SmsChangesExactly` | addons/chan_mobile.c:3275-3552 | whether text messages work changes with the answers to CNMI and CMGF alone |
| `HfpProgress.CallerIdChangesExactly` | addons/chan_mobile.c:3561-3684 | caller id is waited for from the event that asks for it until it has come |
| `HfpProgress.CallComes` | addons/chan_mobile.c:3653-3701 | an announced call that rings and brings its caller id leaves nothing awaited |
| `HfpProgress.MessageComes` | addons/chan_mobile.c:3710-3773 | a stored message that is announced and read leaves nothing awaited |
| `HfpProgress.MessageGoes` | addons/chan_mobile.c:3782-3804 | a message that is prompted for and confirmed leaves nothing awaited |
| `HfpHandshake.Device.QueuePush` | addons/chan_mobile.c:2984-2995 | an entry goes to the end of the queue |
| `HfpHandshake.Device.QueueFreeAndPop` | addons/chan_mobile.c:3034-3042 | the head leaves the queue; an empty queue stays empty |
| `HfpHandshake.Device.HandleBrsf` | addons/chan_mobile.c:3198-3224 | BRSF is taken only when expected, and its OK is awaited next |
| `HfpHandshake.Device.HandleCind` | addons/chan_mobile.c:3233-3266 | CIND answers the test or the read, whichever is the head |
| `HfpHandshake.Device.HandleOk` | addons/chan_mobile.c:3275-3435 | OK moves the head's stage on, sets `initialized` after ECAM and enables SMS after CNMI |
| `HfpHandshake.Device.HandleError` | addons/chan_mobile.c:3444-3552 | an error is fatal for the early stages, passed over for ECAM and VGS, and disables SMS for CMGF and CNMI |
| `HfpHandshake.Device.HandleRing` | addons/chan_mobile.c:3693-3701 | a ring queues the wait for caller id when one is needed |
| `HfpHandshake.Device.HandleClip` | addons/chan_mobile.c:3653-3684 | caller id settles its entry and starts the call, or hangs it up |
| `HfpHandshake.Device.HandleCmti` | addons/chan_mobile.c:3710-3728 | a stored message is asked for |
| `HfpHandshake.Device.HandleCmgr` | addons/chan_mobile.c:3737-3773 | a message that was asked for settles its entry |
| `HfpHandshake.Device.HandleSmsPrompt` | addons/chan_mobile.c:3782-3804 | the prompt is answered with the text and its OK is awaited |
| `HfpHandshake.Device.Close` | addons/chan_mobile.c:4079-4096 | clean-up empties the queue and the device is no longer initialized |
| `HfpIndicators.HfpPvt.ParseCindTest` | addons/chan_mobile.c:2820-2915 | the character loop stores code and group of exactly the names the scan finds, in order, and with 16 or more of them a write passes the table |
| `HfpIndicators.HfpPvt.ParseCind` | addons/chan_mobile.c:2770-2813 | the character loop stores the number of each item at its group and leaves the rest alone |
| `HfpIndicators.HfpPvt.StoreIndicator` | addons/chan_mobile.c:2744-2761 | a group beyond the table or an item without a number is ignored; an item that ends before a number stores the unset variable |
| `HfpIndicators.HfpPvt.ParseCiev` | addons/chan_mobile.c:2197-2215 | what the line stands for, with what the scan does not find left unset: an index outside the table is refused; otherwise only that value changes and the name's code is returned |
| `HfpIndicators.HfpPvt.MblHasService` | addons/chan_mobile.c:1369-1382 | service is assumed for devices without the indicator |
| `IndicatorHistory.ListReadBack` | addons/chan_mobile.c:2820-2915 | the scan reads back the names of every well-formed list |
| `IndicatorHistory.LongListsOverrun` | addons/chan_mobile.c:2869-2905 | a well-formed list makes the driver write past its table if and only if it has 16 entries or more |
| `IndicatorHistory.SixteenOverrun` | addons/chan_mobile.c:2869-2905 | a line of 166 characters that does |
| `IndicatorHistory.StateReadBack` | addons/chan_mobile.c:2770-2813 | the scan reads back the items of every list of numbers |
| `IndicatorHistory.DecimalReadBack` | addons/chan_mobile.c:2744-2761 | every number is read back from its digits, whatever follows them |
| `IndicatorHistory.CievReadBack` | addons/chan_mobile.c:2197-2215 | every event is read back from its line |
| `IndicatorHistory.GroupFollowsHistory` | addons/chan_mobile.c:2197-2215 | from the texts of both lists through every sequence of events, each group has its name's code and its latest value |
| `IndicatorHistory.CodeFindsGroup` | addons/chan_mobile.c:2820-2915 | each code leads to the last group with a name of that code, or to none |
| `IndicatorHistory.ServiceFollowsHistory` | addons/chan_mobile.c:1369-1382 | there is service if and only if the latest service value is 1 or no service indicator was listed |
| `IndicatorNames.EventIsOfItsName` | addons/chan_mobile.c:2197-2215 | after every session an event line for an entry is read back with the entry's number, and its code is that of the entry's name, for each of the eight names, or unknown |
| `IndicatorNames.IndicatorsFoundByName` | addons/chan_mobile.c:2869-2905 | each indicator is found under the number of the last entry with its own name, call setup with either of its two |
| `IndicatorNames.ServiceByName` | addons/chan_mobile.c:1369-1382 | a phone has service if and only if no entry is named "service" or the latest value of the last one so named is 1; a headset always has |
| `IndicatorNames.CallSetupByName` | addons/chan_mobile.c:2820-2905 | the driver does without call setup if and only if neither "callsetup" nor "call_setup" is listed |
| `IndicatorNames.SignedReadBack` | addons/chan_mobile.c:2744-2761 | white space and a sign before a number are read as sscanf reads them |
| `IndicatorNames.BlankItem` | addons/chan_mobile.c:2744-2761 | an item of white space alone stores what the variable held before |
| `IndicatorNames.WordItem` | addons/chan_mobile.c:2744-2761 | an item that begins with neither a number nor white space stores nothing |
| `IndicatorNames.OddEvents` | addons/chan_mobile.c:2197-2215 | a line that is no event is refused, and one cut off before its numbers keeps what was there before |
| `MobileAdapters.StepKeepsInv` | addons/chan_mobile.c:4284-4312 | every single read and write of a flag by discovery and monitors keeps: at most one owner per adapter, and the flag set exactly for an owner but for the moment before it is set |
| `MobileAdapters.AdapterExclusive` | addons/chan_mobile.c:4290-4312 | when no other adapter has the id of a device's own, then in every interleaving an adapter none of whose devices is locked is in use if and only if exactly one of them is connected |
| `MobileAdapters.ExclusiveExactlyWhenApart` | addons/chan_mobile.c:4290-4312 | that holds in every run if and only if no other adapter has the id of a device's own |
| `MobileAdapters.SharedIdMisleads` | addons/chan_mobile.c:4297-4301 | when another adapter shares the id of the device's own, that one ends up in use without a device and the own one with a device not in use |
| `MobileAdapters.Registry.TryConnect` | addons/chan_mobile.c:4296-4308 | a run of the steps that connects exactly a reachable device that is not connected through a free adapter with the id of its own |
| `MobileAdapters.Registry.MonitorCleanup` | addons/chan_mobile.c:4079-4096 | a run of the steps after which the device and its adapter are free |
| `MobileAdapters.Registry.DiscoveryPass` | addons/chan_mobile.c:4290-4312 | a pass during which no monitor runs is a run of the steps, so that exclusiveness is kept; it disconnects nobody and leaves no reachable device unconnected with its adapter free |
| `AdsiTree.GrowKeepsSound` | apps/app_adsiprog.c:1027-1378 | every line keeps: only what is being read is unfinished, only its last IF can be open, and names and return codes are within their bounds |
| `AdsiTree.BodyIsInstructions` | apps/app_adsiprog.c:990-1025 | a subroutine's body is its instructions in order, each ended by 0xff, and the instruction count is their number |
| `AdsiTree.EndedImage` | apps/app_adsiprog.c:1331-1342 | what a finished subroutine of any script stands for: its header with length and instruction count modulo 256 and then its instructions, each IF counting those under it modulo 256 |
| `AdsiListing.SubroutineIsItsLines` | apps/app_adsiprog.c:990-1342 | for every script and every subroutine of it that has ended: its instructions are those of its own lines from SUB to ENDSUB, in order: each opcode that fitted, byte for byte, 1, event and count for each IFEVENT, and 8, the event of the IFEVENT around it and the number of its target for each GOTO |
| `AdsiListing.SubroutineBytes` | apps/app_adsiprog.c:1301-1342 | and the bytes after its header are these instructions, each ended by 0xff |
| `AdsiListing.SubroutineIsRead` | apps/app_adsiprog.c:1136-1364 | from wherever a subroutine can begin, its lines up to an ENDSUB outside any IF are read into one that has ended, with that listing |
| `AdsiKeyLines.KeyRecord` | apps/app_adsiprog.c:961-1287 | for every key that a script defines: the record split at its 0xff bytes gives back the names of its KEY line, cut to 18 and 7, and the return codes of its lines that fitted in 20 bytes, in line order |
| `AdsiKeyLines.KeyIsRead` | apps/app_adsiprog.c:1064-1287 | from wherever a key can begin, its lines up to ENDKEY are read into one that is defined |
| `AdsiKeyLines.DisplaysAreTheirLines` | apps/app_adsiprog.c:1199-1275 | the displays of a script are those of the DISPLAY lines outside keys and subroutines that have a new name while there are less than 62, all of them and in order |
| `AdsiTree.SameNameExactly` | apps/app_adsiprog.c:563-603 | two names are the same if and only if they differ at most in the case of letters |
| `AdsiRecords.EndedSubroutine` | apps/app_adsiprog.c:1331-1342 | as long as every write of the script stays in its record, that is what a finished subroutine's record holds, and it fits its 2048 bytes |
| `AdsiTree.AcceptedIsComplete` | apps/app_adsiprog.c:1416-1455 | an accepted script has every key and subroutine finished and every IF closed if and only if it does not end inside an IF |
| `AdsiTree.UnfinishedScriptAccepted` | apps/app_adsiprog.c:1416-1430 | a script whose last subroutine has a finished IF and an open one is accepted all the same |
| `AdsiTree.MainAlone` | apps/app_adsiprog.c:1397-1398 | the shortest start of such a script is the main subroutine alone |
| `AdsiRecords.GrowFits` | apps/app_adsiprog.c:1301-1364 | a line makes a subroutine longer than its record if and only if it is an IF header or a jump appended where less than four bytes are left |
| `AdsiRecords.WritesStayExactly` | apps/app_adsiprog.c:961-1025 | every write of a script stays in its record if and only if no encoder's bytes pass the end of one and no subroutine comes out longer than 2048 bytes |
| `AdsiRecords.SizesAreBounded` | apps/app_adsiprog.c:990-1025 | a subroutine is never longer than its limit of 255 or 1600 and four bytes for each IF and GOTO line |
| `AdsiRecords.FewBranchesStay` | apps/app_adsiprog.c:1301-1364 | with up to 112 IF and GOTO lines the writes stay if and only if the encoders' do |
| `AdsiRecords.KeysDecide` | apps/app_adsiprog.c:962-975 | when the longest opcode and four bytes for each IF and GOTO are at most 448 together, every write stays if and only if each encoded return code is no longer than what its key's names and codes leave of 80 bytes |
| `AdsiRecords.ShortCodesStay` | apps/app_adsiprog.c:962-1004 | encoded return codes of at most 30 bytes, and 4 bytes for each IF and GOTO and the longest opcode in 448 together, keep every write of a script in its record |
| `AdsiRecords.BoundsAreExact` | apps/app_adsiprog.c:962-1004 | for all bounds on return codes, opcodes and IF and GOTO lines: every accepted script within them stays in its records if and only if they are no looser than those |
| `AdsiRecords.LongTonesOverrun` | apps/app_adsiprog.c:962-975 | a script with a key and two SENDDTMF is accepted, and its writes stay if and only if each string of tones fits what is left of the 80 bytes after the names and the first string, where that is kept |
| `AdsiRecords.ManyIfsOverrun` | apps/app_adsiprog.c:1344-1364 | the main subroutine of n empty IFs is accepted and complete for every n, and its writes stay if and only if n is below 512 |
| `AdsiBytes.EmitShows` | apps/app_adsiprog.c:990-1025 | emitting an instruction appends its bytes and counts it, inside a branch as outside |
| `AdsiBytes.StartIfShows` | apps/app_adsiprog.c:1353-1364 | an IF reserves its header and is counted |
| `AdsiBytes.FinishIfShows` | apps/app_adsiprog.c:1295-1300 | ENDIF fills in one byte and the bytes are those of the closed branch; the event is found where it was stored |
| `AdsiBytes.FinishSubShows` | apps/app_adsiprog.c:1333-1342 | ENDSUB fills in length and count and the bytes are those of the finished subroutine |
| `AdsiBytes.FinishKeyShows` | apps/app_adsiprog.c:1283-1287 | ENDKEY fills in the length and the bytes are those of the finished key |
| `AdsiCompiler.Compiler.GetKeyByName` | apps/app_adsiprog.c:563-582 | the first key of that name, whatever its case, made known under 39 characters of it while there is room for 62 |
| `AdsiCompiler.Compiler.GetSubByName` | apps/app_adsiprog.c:584-603 | the first subroutine of that name, whatever its case, made known under 39 characters of it while there is room for 128 |
| `AdsiCompiler.Compiler.ProcessReturnCode` | apps/app_adsiprog.c:961-988 | a return code is committed if and only if the codes stay within 20 bytes; the names it looked up become known either way |
| `AdsiCompiler.Compiler.ProcessOpcode` | apps/app_adsiprog.c:990-1025 | an instruction is committed if and only if it fits with its separator; the names it looked up become known either way |
| `AdsiCompiler.Compiler.BeginKeyLine` | apps/app_adsiprog.c:1064-1135 | KEY: names cut to 18 and 7 bytes, no redefinition, and a malformed line still makes the name known |
| `AdsiCompiler.Compiler.BeginSubLine` | apps/app_adsiprog.c:1136-1170 | SUB: header, no redefinition, and a line without IS prepares the subroutine but does not enter it |
| `AdsiCompiler.Compiler.EndKeyLine` | apps/app_adsiprog.c:1281-1287 | the tables show the tree with the key finished |
| `AdsiCompiler.Compiler.EndSubLine` | apps/app_adsiprog.c:1331-1343 | the tables show the tree with the subroutine ended |
| `AdsiCompiler.Compiler.IfEventLine` | apps/app_adsiprog.c:1344-1364 | the tables show the tree with a branch opened |
| `AdsiCompiler.Compiler.EndIfLine` | apps/app_adsiprog.c:1294-1300 | the tables show the tree with the branch closed |
| `AdsiCompiler.Compiler.GotoLine` | apps/app_adsiprog.c:1301-1322 | the jump carries the event of the branch around it and the number of its target |
| `AdsiCompiler.Compiler.PassesRecord` | apps/app_adsiprog.c:961-1025 | tells exactly when a write of the line passes the end of its record |
| `AdsiCompiler.Compiler.DisplayTheLine` | apps/app_adsiprog.c:1199-1275 | DISPLAY: a new name gets a record with its columns cut to 20 bytes, with its head when the qualifiers are in order; a known name or a full table changes nothing |
| `AdsiCompiler.Compiler.AdsiProcess` | apps/app_adsiprog.c:1027-1378 | one line in any state: the tables show the grown tree, and it is noted whether a write passed its record |
| `AdsiCompiler.Compiler.Compile` | apps/app_adsiprog.c:1397-1455 | for every script it is told exactly whether a write passes its record; if none does, acceptance is decided by the tree, and every table entry then holds the bytes of its tree within its record, the last subroutine marked as the last |
| `AdsiCompiler.LastIsMarked` | apps/app_adsiprog.c:1432-1448 | of an accepted script's subroutines the last one alone has its extension byte set, and nothing else is changed |
| `AdsiPacking.Collect` | apps/app_adsiprog.c:1492-1503 | one turn: a record goes with those collected, which are sent first if it does not fit with them |
| `AdsiPacking.Gather` | apps/app_adsiprog.c:1490-1504 | the loop cuts only between records and collects as many as fit |
| `AdsiPacking.Pack` | apps/app_adsiprog.c:1490-1536 | transmissions are the records in order, cut between records, non-empty, at most 253 bytes, and no order-preserving split has fewer |
| `AdsiPacking.PendingIsClose` | apps/app_adsiprog.c:1492-1503 | a fuller buffer never needs fewer transmissions and at most one more |
| `AdsiPacking.GreedyIsOptimal` | apps/app_adsiprog.c:1490-1536 | no order-preserving split into groups of at most 253 bytes has fewer groups than the greedy one |
| `AdsiPacking.ParseFlat` | apps/app_adsiprog.c:1505-1508 | records that tell their own length are read back from their concatenation |
| `AdsiPacking.KeysAreRecords` | apps/app_adsiprog.c:1109-1135 | every key that an accepted script describes has 5 to 50 bytes, its id and its true length |
| `AdsiPacking.KeysParseBack` | apps/app_adsiprog.c:1281-1287 | the keys that an accepted script describes fit the transmissions and are read back from their concatenation |
| `AdsiPacking.DisplaysAreRecords` | apps/app_adsiprog.c:1199-1275 | every display of a script is at most 46 bytes and can be packed; one whose line was complete has its kind, true length, justification over its number, and wrapping |
| `AdsiDownload.Send` | apps/app_adsiprog.c:1490-1517 | the records are delivered: the transmissions concatenate to them, each is non-empty and at most 253 bytes, and no split has fewer |
| `AdsiDownload.Program` | apps/app_adsiprog.c:1468-1536 | for every script it is told exactly whether a write passes its record; if not, it goes through exactly when accepted, and then keys and displays are delivered in the fewest transmissions and the keys are read back from them |
| `BridgeWait.StepKeepsInv` | apps/app_bridgewait.c:327-400 | every step keeps the reference count equal to container membership plus holders, and names unique among linked wrappers |
| `BridgeWait.RunKeepsInv` | apps/app_bridgewait.c:327-400 | the same over every interleaving |
| `BridgeWait.ReachableStates` | apps/app_bridgewait.c:349-400 | in every reachable state: counts are right, no name is linked twice, users between get and check of one name share one linked wrapper, and a destroyed bridge has no holder and is unlinked |
| `BridgeWait.DestructionIsFinal` | apps/app_bridgewait.c:132-139 | a bridge is destroyed at most once, and neither destruction nor unlinking is undone in any run |
| `BridgeWait.StrandedExactlyByMisread` | apps/app_bridgewait.c:386-400 | a step strands a wrapper if and only if it is the last user's check and it reads a count raised by another who has not dropped yet |
| `BridgeWait.NothingStranded` | apps/app_bridgewait.c:386-400 | without such a reading no run strands a wrapper |
| `BridgeWait.EmptiesWithoutMisreads` | apps/app_bridgewait.c:386-400 | then, when all users have gone, every wrapper is unlinked and its bridge destroyed once |
| `BridgeWait.OverlappingLeaversStrand` | apps/app_bridgewait.c:392-399 | two users leaving at once can leave a linked wrapper behind |
| `BridgeWait.WrapperTable.FindByName` | apps/app_bridgewait.c:141-144 | the linked wrapper of that name, if any |
| `BridgeWait.WrapperTable.GetWrapper` | apps/app_bridgewait.c:349-377 | get takes a reference to the wrapper of that name or creates it, or fails as creation does |
| `BridgeWait.WrapperTable.ReadCount` | apps/app_bridgewait.c:392-393 | the check reads the count under the container lock |
| `BridgeWait.WrapperTable.UnlinkWrapper` | apps/app_bridgewait.c:393-396 | unlinking gives up the container's reference |
| `BridgeWait.WrapperTable.DropReference` | apps/app_bridgewait.c:399-399 | dropping the last reference destroys the bridge |
| `AnsweringMachine.FoldAgrees` | apps/app_amd.c:343-462 | for every frame sequence the running counters are those of the history: segments of voice, words among them, elapsed time |
| `AnsweringMachine.SilenceVerdict` | apps/app_amd.c:378-411 | a silent frame decides exactly by the history: a machine before the first full word, a human after one, and only at the threshold |
| `AnsweringMachine.VoiceFrameVerdict` | apps/app_amd.c:413-462 | a voice frame decides exactly when the history crosses the word length, word count or greeting limit: MACHINE with that cause, except that an over-long word is NOTSURE and TOOLONG when the wait for its frame took its whole limit |
| `AnsweringMachine.OtherVerdict` | apps/app_amd.c:312-343 | status and cause of a failed wait, a hang-up, a late frame and the end of the analysis time, and nothing else stops the call |
| `AnsweringMachine.SilenceIsReported` | apps/app_amd.c:366-377 | the silence is what the detector reported after the last voice frame and the comfort noise since |
| `AnsweringMachine.ElapsedIsHeard` | apps/app_amd.c:343-353 | the elapsed time is that of the voice frames and of the waits for everything else |
| `AnsweringMachine.WordsFitInTalk` | apps/app_amd.c:413-462 | words times the minimum word length never exceed the voice heard |
| `AnsweringMachine.CountersAreOrdered` | apps/app_amd.c:343-462 | consecutive voice is at most total voice, that at most total time; words fit in it; greeting and initial silence are complementary |
| `AnsweringMachine.MaxWordsNeedsTime` | apps/app_amd.c:431-438 | a MAXWORDS verdict needs one word more than the limit to fit below the analysis time |
| `AnsweringMachine.HumanNeedsAWord` | apps/app_amd.c:378-411 | HUMAN needs an earlier full word and INITIALSILENCE excludes one |
| `AnsweringMachine.VerdictIsFinal` | apps/app_amd.c:311-480 | frames after the verdict do not change it |
| `AnsweringMachine.Detector.HearSilence` | apps/app_amd.c:378-411 | what a silent frame does to the counters, and its verdict |
| `AnsweringMachine.Detector.HearVoice` | apps/app_amd.c:413-462 | what a voice frame does to the counters, and its verdict |
| `AnsweringMachine.Detector.Hear` | apps/app_amd.c:343-462 | one turn of the loop, with hang-ups, failed waits and the time limit |
| `AnsweringMachine.Detector.Analyze` | apps/app_amd.c:311-480 | the loop stops at the first verdict of the fold |
| `AlarmChecksum.FindDigit` | apps/app_alarmreceiver.c:130-135 | the table search finds the digit's weight, or nothing exactly for digits outside the table |
| `AlarmChecksum.WeightIsPlace` | apps/app_alarmreceiver.c:130-135 | a symbol's weight is its place in 1234567890*#ABC |
| `AlarmChecksum.VerifyChecksum` | apps/app_alarmreceiver.c:458-484 | accepted if and only if all digits are in the table and their weights sum to a multiple of 15 |
| `AlarmChecksum.SingleErrorDetected` | apps/app_alarmreceiver.c:458-484 | changing any one digit of an accepted message makes it rejected |
| `AlarmChecksum.UniqueCheckDigit` | apps/app_alarmreceiver.c:458-484 | every prefix has exactly one completing check digit |
| `AlarmChecksum.ExchangeUndetected` | apps/app_alarmreceiver.c:458-484 | exchanging two digits is never detected |
| `AlarmReceiver.ReceiveDigits` | apps/app_alarmreceiver.c:255-310 | the loop collects digits until the expected number, a timeout or a failure |
| `AlarmReceiver.ReceiveProperties` | apps/app_alarmreceiver.c:255-310 | the digits are a prefix of those pressed, never more than expected, and success means all of them |
| `AlarmReceiver.DetectFormat` | apps/app_alarmreceiver.c:565-600 | the format, its length and whether it goes without a sum follow from the two type digits |
| `AlarmReceiver.CheckValidIsFormat` | apps/app_alarmreceiver.c:525-554 | the type check accepts exactly the events whose own type gives the format in force |
| `AlarmReceiver.RunKeepsInv` | apps/app_alarmreceiver.c:613-783 | over every call: queued events are valid, of one format, kissed off in order, and the list grows only at its tail |
| `AlarmReceiver.OnwardSources` | apps/app_alarmreceiver.c:654-762 | from every state of a call, the events still queued are prefixes of what the panel sends in attempts of their own, in order |
| `AlarmReceiver.CallQueuesOnlyValidEvents` | apps/app_alarmreceiver.c:630-780 | with individual logging off, all queued events of a call have the same format, passed the type check, were summed unless the sum was disabled, and are what the panel sent, each in an attempt of its own and in order; kissoffs equal the list length or one less |
| `AlarmReceiver.NoChecksumIsSticky` | apps/app_alarmreceiver.c:635-687 | the sum is disabled if and only if some attempt of the call disabled it |
| `AlarmReceiver.EventSummedExactlyWhenNeverDisabled` | apps/app_alarmreceiver.c:670-734 | an event is queued unsummed if and only if an attempt up to its own disabled the sum |
| `AlarmReceiver.StaleFlagAdmitsBadSum` | apps/app_alarmreceiver.c:705-734 | a call in which a Contact ID event with a wrong sum is queued |
| `AlarmCalls.ReceiveIsHeard` | apps/app_alarmreceiver.c:255-310 | receiving gives the digits before the first timeout, missing frame or hang-up, cut to the number asked for, and the result that belongs to it |
| `AlarmCalls.MessageTakenExactly` | apps/app_alarmreceiver.c:630-780 | for every call and every next attempt: the digits heard are queued if and only if the acknowledgement went out or a digit had come, the wait did not fail, no limit is reached, all digits came, their type code is the call's, and their sum is right or an attempt up to this one stopped the summing; the kissoff count and the end of the call follow |
| `AlarmCalls.CallGoesOnWith` | apps/app_alarmreceiver.c:670-721 | format, number of digits, retries and flags that a call goes on with, by the digits of its last attempt |
| `AlarmCalls.IndividualMessageTaken` | apps/app_alarmreceiver.c:630-780 | with individual logging every message is taken as the first of a call, and failing to log it is like failing to acknowledge it |
| `AlarmCalls.FirstMessageTaken` | apps/app_alarmreceiver.c:565-600 | the first message is taken if and only if it has its type's 8, 9, 15 or 16 digits, or 16 all the same, with a right sum except for type 56, or is an Express message without its sum |
| `AlarmReceiver.Receiver.Detect` | apps/app_alarmreceiver.c:670-687 | detection after a receive, with the short Express forms |
| `AlarmReceiver.Receiver.TryAgain` | apps/app_alarmreceiver.c:705-721 | an incomplete receive resets the format until the first event |
| `AlarmReceiver.Receiver.Take` | apps/app_alarmreceiver.c:723-779 | a complete event is checked, queued and only then kissed off |
| `AlarmReceiver.Receiver.Judge` | apps/app_alarmreceiver.c:670-779 | what is done with a string of digits: detection, the call's limits, another try or an event |
| `AlarmReceiver.Receiver.Turn` | apps/app_alarmreceiver.c:630-780 | one turn of the loop |
| `AlarmReceiver.Receiver.ReceiveEvents` | apps/app_alarmreceiver.c:613-783 | the loop over the attempts of a call |
| `RealtimeCodec.EscapeString` | addons/res_config_mysql.c:54-70 | the appending loop escapes each `;` and `^` and nothing else |
| `RealtimeCodec.Collapse` | addons/res_config_mysql.c:298-299 | one escape becomes its character and the rest moves down, in place |
| `RealtimeCodec.DecodeChunk` | addons/res_config_mysql.c:293-303 | for every string it is told exactly whether the loop looks past its terminator; if not, the in-place loop leaves the decoded string, terminated, and touches nothing outside the chunk |
| `RealtimeCodec.Cut` | addons/res_config_mysql.c:399-399 | one step of strsep: the piece is terminated in place and the rest is intact |
| `RealtimeCodec.ReadColumn` | addons/res_config_mysql.c:399-408 | for every column it is told exactly whether a piece is looked past; if not, the strsep loop reads every piece, decoded, in order |
| `RealtimeCodec.EscapeIsClean` | addons/res_config_mysql.c:54-70 | an escaped value holds no separator and is safe to decode |
| `RealtimeCodec.DecodeEscape` | addons/res_config_mysql.c:293-303 | decoding undoes escaping for every string |
| `RealtimeCodec.SplitJoin` | addons/res_config_mysql.c:399-399 | splitting undoes joining for pieces without separators |
| `RealtimeCodec.LooksPastExactly` | addons/res_config_mysql.c:293-303 | the decoder looks past a string's terminator if and only if it ends in a caret, or in a caret and one digit |
| `RealtimeCodec.LoneCaret` | addons/res_config_mysql.c:297-299 | the shortest string it looks past |
| `RealtimeCodec.StoredColumnsDecodeInBounds` | addons/res_config_mysql.c:293-303 | the decoder never looks past a piece of a stored column |
| `RealtimeCodec.RoundTrip` | addons/res_config_mysql.c:394-408 | a list of values reads back as itself if and only if it is not one single empty value, which reads back as a space |
| `RealtimeCodec.StoreIsInjective` | addons/res_config_mysql.c:54-70 | different lists are stored differently |
| `RealtimeCodec.EscapesStandForCharacters` | addons/res_config_mysql.c:293-303 | a caret and two hexadecimal digits, in either case, decode to the character of that number |
| `RealtimeCodec.OthersStandForThemselves` | addons/res_config_mysql.c:293-303 | any other character decodes to itself |
| `RealtimeCodec.OnlyTwoAreEscaped` | addons/res_config_mysql.c:54-70 | the two escapes are ^3B and ^5E, and values without `;` and `^` are stored as they are |

## Left out

- Sockets, SDP and HCI, SCO audio, smoothers, the DSP, SQL, CLI, manager and dialplan registration: their results are inputs.
- The H.323 channel driver, the MP3 format and the smaller applications: thin layers over libraries that are not part of this model.
- ADSI tokenising, STATE, FLAG and header lines, the subroutine download loop: lines arrive parsed; the properties do not depend on them.
- A byte of an ADSI record that is reserved and not filled in yet is taken to be 0, and nothing is said of the tables after a write has passed its record.
- Threads of agent channels that were replaced by a swap: they change nothing that is modelled; the final part of connecting (moving bridges, recording) only decides where the channel is.
- Waiting-line text, sounds, login times and events of agents: reported only.
- An agent's driver loop is modelled as places its thread moves through, not as one method, because every lock release in it lets other threads in.
- Reloads of the agent pool are modelled as running between, not amid, the steps of an agent; the record's container is a map and object identity a number.
- Handsets' answers outside +CIND, +CIEV and the handshake: parsing of caller id, SMS and USSD text is reduced to whether it succeeded.
- HfpIndicators.HfpPvt.ParseCindTest: nothing is said of the table once a list of 16 or more indicators has been written past its end.
- HfpIndicators.ScanInt: numbers are unbounded, where sscanf's int overflows.
- AnsweringMachine.Detector.Analyze: the limit of a wait is not negative, which it would be if one of the configured times were.
- MobileAdapters.Registry.DiscoveryPass: speaks of a pass during which no monitor runs; `MobileAdapters.StepKeepsInv` has every interleaving.
- AdsiCompiler.Compiler.AdsiProcess: STATE, FLAG and header lines are one line that changes nothing, because no key, subroutine or display record depends on them.
- AdsiDownload.Program: sessions and transmissions succeed, and subroutines are compiled but their transmission is not modelled.
- RealtimeCodec.DecodeChunk: nothing is said of the string once its terminator has been looked past.
- Byte-shift alignment detection of audio, allocation failure outside the handshake and the registry, and any claim that something eventually happens.
