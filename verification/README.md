# Verified model of the p-net alarm protocol, cyclic consumer and their tables

This Dafny project models parts of the p-net Profinet device stack and of its sample application, and proves
what they are for. `dafny verify dfyconfig.toml` checks all of it. The alarm machines are those of
IEC 61158-6-10; the freshness check follows section 4.7.2.1.2 of the Profinet 2.4 specification.

## What is modelled

**Alarms** (`Alarm*.dfy`). One priority level of an AR is the transport pair APMS/APMR (stop-and-wait,
piggybacked acks, a retry budget, 15-bit counters that start at 0xffff) under the user pair ALPMI/ALPMR.

- `AlarmEndpoint` says what every operation does to the state of one end; `AlarmLevel.Level` performs the same
  in place and accounts for frame buffers. `AlarmQueues`, `AlarmLane` and `AlarmAr` add the ring queues, the
  periodic loops and the two priorities of an AR. A lane records what its level was given, so every result
  about runs of one end is a result about the object.
- `AlarmEndpointRuns`, `AlarmEndpointTheorems`, `AlarmFrames`, `AlarmStuck`, `AlarmTransmissions`, `AlarmRequests`
  and `AlarmClosing` hold for an arbitrary peer and any outcome of the local allocation, send and scheduler calls.
- `AlarmLink`, `AlarmLinkInv` and `AlarmLinkArrive` join two ends by FIFO channels that lose and duplicate
  frames, with alarms raised at both ends. The invariant is proved with unbounded counters; `AlarmWire` proves
  that the 15-bit run is, state by state, the image of the unbounded one. `AlarmTheorems`, `AlarmOneWay` and
  `AlarmRecovery` hold the main results. No bound on the number of reverse frames is assumed: the ack number
  frozen into a retransmitted frame lags by two at most, because each role has one alarm outstanding.
- `AlarmEnds` proves that each end of a link is, apart from the frames handed over, the run of the inputs it got,
  so that the results about links speak about lanes too: from the alarms one user posts to those the other is told.
- `AlarmRegistration` is the endpoint table of all ARs, `AlarmActivity` tells from the calls made which of them get
  frames, and `DiagSummary` is the diagnosis summary sent along.

**Frame dispatch** (`FrameIdMap`, `EthernetReceive`): the frame id array as a partial map, and VLAN skipping.

**Cyclic consumer** (`CycleCounter`, `Cpm*.dfy`): freshness, watchdog, buffer accounting and the data read, for
runs of one activation, and what its parameters mean for them; `CpmExchange` interleaves the steps of the receiving
thread and of the application.

**AR list** (`ArList`, `EventBits`): the sample application's list with deletion during iteration and compaction.

`Wrappers` holds optional values and linear search, `Buffers` the pool of frame buffers. Sizes (`PNET_MAX_ALARMS`,
`PNET_MAX_AR`, the number of frame id slots, retries, data hold factor) are parameters.

## What the proofs found

- With alarms from both ends, acking or raising an alarm while an own frame is unconfirmed ends the connection,
  exactly then (`AckAbortsIffUnconfirmed`, `SendAbortsIffUnconfirmed`, `CrossingAlarmsAbort`).
- User acks always act on the high priority, so a low-priority alarm can never be acked and the low level tells
  its user one alarm per activation at most (`LowIndicatesOnce`); the next one whose TACK is sent ends the
  connection at both priorities (`BusyAlarmEnds`, `SecondLowAlarmCloses`).
- If the TACK of a notification cannot be sent, the alarm counts as accepted but never reaches the user
  (`IndicatedIffTackSent`).
- An expected notification that is malformed is counted and acked, and exactly this leads to APMR in WCNF, the state
  the code says should never be met (`WedgedIff`, `WedgingIsAcked`). From then on the level accepts nothing and tells
  its user nothing, and APMR stays in WCNF until the level is closed (`WedgedForGood`).
- If the buffer of a request could not be allocated, nothing is saved and the timer has no effect: waiting for the
  confirmation does not end by itself, exactly in this case (`SavedIffAllocated`, `WaitEndsIffSaved`).
- User acks use up alarm sequence numbers: an alarm carries the number of requests before it, acks included
  (`AlarmNumbers`).
- A frame id added while it is registered already is hidden or takes over, depending on the free slots; adding
  to a full table does nothing and is not reported (`AddIsUpdate`, `ActivateKeeps`).
- The position at which cyclic data is read is not part of the buffer exchange: reading is right under every
  interleaving exactly if all accepted frames are untagged (`RightIffUntagged`).
- The branch of the consumer that reloads the watchdog without new data is never taken (`OneActivation`), and a
  first frame whose counter is 61440 or more is rejected (`NeverActsAsLast`).
- Setting an event while an iteration that deletes is under way adds a second entry for an AR, exactly if its entry
  lies behind the first hole (`NotedKeepsUniqueUsed`).

## Model

| member | source | states |
|---|---|---|
| SequenceNumbers.WireOfInjective | p-net-public-v1.0.2/src/common/pf_alarm.c:1011-1017 | Two frames whose true numbers differ by less than 0x8000 never look alike on the wire |
| AlarmEndpointRuns.StepKeepsInv | p-net-public-v1.0.2/src/common/pf_alarm.c:1783-1966 | Every frame, timer firing, user call and closing keeps: machine states fit together, counters are the numbers of the latest and next frame, one request outstanding, retries bounded, ALPMR in step with the indication cycle |
| AlarmEndpointRuns.Run | p-net-public-v1.0.2/src/common/pf_alarm.c:2073-2278 | After any inputs from an arbitrary peer the endpoint invariant still holds |
| AlarmEndpointTheorems.AcceptedWireNumbers | p-net-public-v1.0.2/src/common/pf_alarm.c:1813-1932 | The n-th accepted DATA frame carried 0xffff for n = 0 and (n - 1) mod 0x8000 after that; the duplicate number is its predecessor's and never equals the expected one |
| AlarmEndpointTheorems.DataFrameFate | p-net-public-v1.0.2/src/common/pf_alarm.c:1805-1952 | An arriving DATA frame is accepted and acked, or only acked again as a duplicate, or refused with a NACK, decided by its number (with successful local calls); TACK and NACK carry the numbers of the latest frame confirmed and the latest accepted; a malformed notification, and only that, leaves APMR in WCNF; unexpected content ends the connection |
| AlarmEndpointTheorems.IndicatedIffTackSent | p-net-public-v1.0.2/src/common/pf_alarm.c:1862-1905 | An accepted notification is told to the user exactly if its TACK was sent and ALPMR is idle after the frame's own ack number |
| AlarmEndpointTheorems.IndicationsSeparated | p-net-public-v1.0.2/src/common/pf_alarm.c:553-682 | Between two successive alarm indications lie exactly one accepted user ack and, after it, the confirmation of that ack's frame, for any frames received |
| AlarmEndpointTheorems.OneIndicationWithoutAcks | p-net-public-v1.0.2/src/common/pf_alarm.c:625-682 | Without user acks at most one alarm is indicated in an activation |
| AlarmFrames.MeaninglessIgnored | p-net-public-v1.0.2/src/common/pf_alarm.c:2105-2265 | Frames of another version or type, NACKs, frames of the wrong length and DATA frames without TACK flag change nothing |
| AlarmFrames.StopsIff | p-net-public-v1.0.2/src/common/pf_alarm.c:2093-2275 | A frame ends the receiving loop with an error exactly if it is a DATA frame that finds APMR in WCNF, or the expected one when its TACK cannot be sent, its content is unknown or malformed, or ALPMR is busy with an earlier alarm |
| AlarmFrames.BusyAlarmEnds | p-net-public-v1.0.2/src/common/pf_alarm.c:625-682 | A new alarm that ALPMR cannot take is accepted, and once its TACK is sent the connection ends with a protocol violation |
| AlarmEndpointTheorems.RetransmissionRun | p-net-public-v1.0.2/src/common/pf_alarm.c:849-954 | Within the budget each firing sends the same saved frame again; the firing after that ends the connection with one abort |
| AlarmEndpointTheorems.WaitingStep | p-net-public-v1.0.2/src/common/pf_alarm.c:849-936 | While a request waits, an input ends the wait or leaves the saved frame alone and the budget no larger; the timer takes from the budget, or does nothing if no frame is saved |
| AlarmEndpointTheorems.WaitingEnds | p-net-public-v1.0.2/src/common/pf_alarm.c:849-936 | Waiting cannot outlast the budget: after more firings than retries left, the frame was confirmed, the level is closed, or no frame had been saved and the level still waits |
| AlarmEndpointTheorems.ClosedForever | p-net-public-v1.0.2/src/common/pf_alarm.c:1640-1676 | A closed level stays closed and its record stays as it is |
| AlarmStuck.WedgingIsAcked | p-net-public-v1.0.2/src/common/pf_alarm.c:1862-1905 | An expected malformed notification is counted as accepted and acked, and leaves APMR in WCNF |
| AlarmStuck.WedgedIff | p-net-public-v1.0.2/src/common/pf_alarm.c:1783-1966 | From an open APMR one input leads to WCNF exactly if it is an expected malformed notification whose TACK is built and sent |
| AlarmStuck.WedgedForGood | p-net-public-v1.0.2/src/common/pf_alarm.c:1949-1955 | Over any further inputs a level in WCNF stays there or is closed, accepts nothing more and tells its user neither alarm nor confirmation |
| AlarmStuck.SavedIffAllocated | p-net-public-v1.0.2/src/common/pf_alarm.c:1491-1556 | A request in OPEN waits with a saved frame exactly if its buffer could be allocated |
| AlarmStuck.UnsavedWaits | p-net-public-v1.0.2/src/common/pf_alarm.c:849-868 | Without a saved frame any number of firings changes nothing |
| AlarmStuck.WaitEndsIffSaved | p-net-public-v1.0.2/src/common/pf_alarm.c:849-936 | More firings than the budget end the wait exactly if a frame was saved |
| AlarmStuck.AllocatedWaitEnds | p-net-public-v1.0.2/src/common/pf_alarm.c:849-936 | If all requests since activation got their buffers, a wait ends within the budget whatever else happens |
| AlarmEndpointTheorems.AckOutcome | p-net-public-v1.0.2/src/common/pf_alarm.c:3018-3056 | A user ack succeeds exactly if ALPMR waits for one, APMS is free, and its frame is built and sent and the timer started; with nothing to ack it changes nothing |
| AlarmRequests.SendOutcome | p-net-public-v1.0.2/src/common/pf_alarm.c:2294-2341 | ALPMI waits for the peer's user exactly if APMS was free and the alarm was built and sent and the timer started |
| AlarmRequests.RequestsAre | p-net-public-v1.0.2/src/common/pf_alarm.c:1491-1556 | An input adds to the requests exactly the user's ack as it was given, or the alarm with its number, if APMS is free |
| AlarmRequests.AlarmNumbers | p-net-public-v1.0.2/src/common/pf_alarm.c:2305-2325 | The i-th request of an activation, if it is an alarm, carries i modulo 0x0800 |
| AlarmRequests.FullBudget | p-net-public-v1.0.2/src/common/pf_alarm.c:1521-1556 | In any activation a request that makes APMS wait has the whole budget: as many firings as retries send its one frame again, and the next one, not an earlier one, ends the connection |
| AlarmRequests.NoMoreConfirmationsThanAlarms | p-net-public-v1.0.2/src/common/pf_alarm.c:514-537 | Whatever acks arrive, the user is told of no more of them than alarms were handed over, and of fewer while ALPMI waits |
| AlarmClosing.PeerErrorEnds | p-net-public-v1.0.2/src/common/pf_alarm.c:2187-2240 | A peer's ERR frame of the right length ends the connection with one abort, which carries the peer's class and code, or says that APMR was in the wrong state |
| AlarmClosing.OneCloseAlarm | p-net-public-v1.0.2/src/common/pf_alarm.c:1592-1616 | In an activation the low level sends exactly one close alarm, at its end, and the high level none; after an abort it carries the code of the abort's reason and the latest numbers |
| AlarmClosing.CloseAlarmArrives | p-net-public-v1.0.2/src/common/pf_alarm.c:2187-2212 | On a link a close alarm that arrives at an open end closes it, and the end reports the reason for which the other one has closed |
| AlarmClosing.CloseAlarmArrivesAtY | p-net-public-v1.0.2/src/common/pf_alarm.c:2187-2212 | The same at end Y |
| AlarmTransmissions.TransmissionRecord | p-net-public-v1.0.2/src/common/pf_alarm.c:1491-1556 | The DATA frames ever handed to Ethernet are, request by request in order, at most 1 + retries copies of one frame with the request's number and content |
| AlarmLinkArrive.LinkRunInv | p-net-public-v1.0.2/src/common/pf_alarm.c:1104-1187 | Every run of two ends over channels that lose and duplicate keeps the link invariant, with alarms from both ends |
| AlarmLinkArrive.NotifyReady | p-net-public-v1.0.2/src/common/pf_alarm.c:667-678 | When a new alarm arrives, ALPMR is idle at the latest after the frame's own ack number, even if every pure TACK was lost |
| AlarmLinkArrive.AckAwaited | p-net-public-v1.0.2/src/common/pf_alarm.c:514-537 | When a user ack arrives, ALPMI is waiting for it |
| AlarmWire.StepWire | p-net-public-v1.0.2/src/common/pf_alarm.c:1104-1187 | One input with 15-bit numbers does what it does with unbounded ones, as long as arriving numbers lie in the window around the counters |
| AlarmWire.WireCountersRefineUnbounded | p-net-public-v1.0.2/src/common/pf_alarm.c:1813-1866 | A link run with wire numbers is, state by state, the image of the run with unbounded numbers, across every wrap |
| AlarmTheorems.ExactlyOnceInOrder | p-net-public-v1.0.2/src/common/pf_alarm.c:1783-1932 | Accepted frames, indicated alarms and confirmations are prefixes of what the other end sent, in order and exactly once; the sender is ahead by one at most |
| AlarmTheorems.NeverRefused | p-net-public-v1.0.2/src/common/pf_alarm.c:1933-1948 | On a link no NACK is ever sent, no abort is a protocol violation, and an open APMR is in OPEN |
| AlarmTheorems.OneAlarmOutstanding | p-net-public-v1.0.2/src/common/pf_alarm.c:514-537 | At each end, alarms handed to the transport minus acks told to the user is 0 or 1, and while the end is open 1 exactly if ALPMI waits |
| AlarmOneWay.OneWayNeverAborts | p-net-public-v1.0.2/src/common/pf_alarm.c:1498-1520 | If only one end raises alarms, every abort is due to the retry budget or to the other end's closing |
| AlarmOneWay.AckAbortsIffUnconfirmed | p-net-public-v1.0.2/src/common/pf_alarm.c:3004-3057 | A user ack ends the connection exactly if an own frame is unconfirmed |
| AlarmOneWay.SendAbortsIffUnconfirmed | p-net-public-v1.0.2/src/common/pf_alarm.c:2294-2341 | So does handing over an alarm |
| AlarmOneWay.CrossingAlarmsAbort | p-net-public-v1.0.2/src/common/pf_alarm.c:1498-1556 | Concrete run without loss: two crossing alarms end the connection at the end whose user acks first |
| AlarmRecovery.RetryConfirms | p-net-public-v1.0.2/src/common/pf_alarm.c:870-900 | From any reachable state in which X waits with budget left and both ends are open, one firing at X, followed by delivery of all that is then on its way to Y and then of all on its way to X, gets the outstanding frame accepted and confirmed with both ends open |
| AlarmRecovery.RetryConfirmsAtY | p-net-public-v1.0.2/src/common/pf_alarm.c:870-900 | The same for a frame outstanding at Y |
| AlarmEnds.EndXIsRun | p-net-public-v1.0.2/src/common/pf_alarm.c:2073-2341 | The first end of a link is, apart from the frames handed over, the run of the inputs it got |
| AlarmEnds.EndsAreRuns | p-net-public-v1.0.2/src/common/pf_alarm.c:2073-2341 | Both ends of a link are, apart from the frames handed over, the runs of their own inputs since activation |
| AlarmEnds.PostedReachUser | p-net-public-v1.0.2/src/common/pf_alarm.c:2640-2750 | If two lanes got the inputs of the two ends of a link and the first is open, the alarms posted there are, in order, those told to the user of the second, at most one more, and those waiting |
| AlarmLevel.Level.Activate | p-net-public-v1.0.2/src/common/pf_alarm.c:366-408 | Opens user machines and transport independently; success means both were closed, and gives the activated state |
| AlarmLevel.Level.Transmit | p-net-public-v1.0.2/src/common/pf_alarm.c:1232-1467 | Builds, sends and saves or frees a frame; buffers of others are untouched |
| AlarmLevel.Level.Close | p-net-public-v1.0.2/src/common/pf_alarm.c:423-463 | Resets the user machines, sends the close alarm on the low level, frees the saved frame once |
| AlarmLevel.Level.ErrorInd | p-net-public-v1.0.2/src/common/pf_alarm.c:330-351 | Ends the connection and notes the error code |
| AlarmLevel.Level.AlpmiCnf | p-net-public-v1.0.2/src/common/pf_alarm.c:476-499 | Transport confirmation at ALPMI |
| AlarmLevel.Level.AlpmrCnf | p-net-public-v1.0.2/src/common/pf_alarm.c:553-602 | Transport confirmation at ALPMR |
| AlarmLevel.Level.ApmsDataInd | p-net-public-v1.0.2/src/common/pf_alarm.c:1104-1187 | A matching ack number confirms the outstanding frame, frees its buffer and opens APMS; anything else changes nothing |
| AlarmLevel.Level.Request | p-net-public-v1.0.2/src/common/pf_alarm.c:1491-1556 | A request in OPEN is built, sent and waited for; otherwise both users get a negative confirmation |
| AlarmLevel.Level.Timeout | p-net-public-v1.0.2/src/common/pf_alarm.c:849-954 | Resends the saved frame, gives up, or frees what is left over |
| AlarmLevel.Level.AlpmiDataInd | p-net-public-v1.0.2/src/common/pf_alarm.c:514-537 | An alarm ack reaches ALPMI |
| AlarmLevel.Level.AlpmrDataInd | p-net-public-v1.0.2/src/common/pf_alarm.c:625-682 | An alarm notification reaches ALPMR |
| AlarmLevel.Level.SendControl | p-net-public-v1.0.2/src/common/pf_alarm.c:1694-1763 | TACK and NACK carry the latest numbers |
| AlarmLevel.Level.ApmrDataInd | p-net-public-v1.0.2/src/common/pf_alarm.c:1783-1966 | APMR's handling of a DATA frame in every state |
| AlarmLevel.Level.OnFrame | p-net-public-v1.0.2/src/common/pf_alarm.c:2105-2265 | Version, type and length checks of a fetched frame, and what follows |
| AlarmLevel.Level.UserAck | p-net-public-v1.0.2/src/common/pf_alarm.c:3018-3056 | The user's ack in every ALPMR state |
| AlarmLevel.Level.SendAlarm | p-net-public-v1.0.2/src/common/pf_alarm.c:2294-2341 | An alarm gets its sequence number and goes to APMS |
| Buffers.BufferPool.Free | p-net-public-v1.0.2/src/common/pf_alarm.c:1663-1668 | Only a live buffer can be freed, so none is freed twice |
| AlarmQueues.Accountant.GetWriteIndex | p-net-public-v1.0.2/src/common/pf_alarm.c:2440-2459 | Gives the slot behind the queued stretch, or fails if all slots are taken |
| AlarmQueues.Accountant.GetReadIndex | p-net-public-v1.0.2/src/common/pf_alarm.c:2472-2491 | Gives the oldest slot, or fails if there is none |
| AlarmQueues.SlotEmptied | p-net-public-v1.0.2/src/common/pf_alarm.c:2596-2605 | Emptying a slot gives up exactly its buffer, as all queued buffers differ |
| AlarmQueues.ReceiveQueue.Post | p-net-public-v1.0.2/src/common/pf_alarm.c:2538-2573 | Appends to the queue unless it is unavailable or full; the slot used was empty, so no held buffer is lost |
| AlarmQueues.ReceiveQueue.Fetch | p-net-public-v1.0.2/src/common/pf_alarm.c:2582-2608 | Takes the oldest message and gives up exactly its buffer |
| AlarmQueues.ReceiveQueue.Reset | p-net-public-v1.0.2/src/common/pf_alarm.c:2503-2529 | Frees every waiting buffer, each once, and empties the queue |
| AlarmQueues.SendQueue.Post | p-net-public-v1.0.2/src/common/pf_alarm.c:2640-2673 | Appends an alarm unless the queue is unavailable or full |
| AlarmQueues.SendQueue.Fetch | p-net-public-v1.0.2/src/common/pf_alarm.c:2683-2704 | Takes the oldest alarm |
| AlarmQueues.SendQueue.Reset | p-net-public-v1.0.2/src/common/pf_alarm.c:2614-2630 | Empties an available queue |
| AlarmLane.StepRaised | p-net-public-v1.0.2/src/common/pf_alarm.c:2294-2341 | Unless the connection ends, exactly the alarm sent is added to what was handed to the transport |
| AlarmEndpointTheorems.RunFromStartSnoc | p-net-public-v1.0.2/src/common/pf_alarm.c:2084-2090 | One more input is one more step of the run a lane has recorded |
| AlarmLane.Lane.Drain | p-net-public-v1.0.2/src/common/pf_alarm.c:2093-2275 | The receiving loop handles the queued frames once each, in order, and frees each buffer; it reports an error exactly if the last frame handled is one that stops it, no earlier one is, and otherwise it empties the queue unless the connection ends |
| AlarmLane.Lane.HandOver | p-net-public-v1.0.2/src/common/pf_alarm.c:2732-2747 | If ALPMI is free and an alarm waits, the oldest is handed over |
| AlarmLane.Lane.Close | p-net-public-v1.0.2/src/common/pf_alarm.c:2796-2827 | Closing frees all the lane owns, empties its queues and brings all machines to their initial states, also on a closed lane whose ALPMR was left behind |
| AlarmAr.Ar.Activate | p-net-public-v1.0.2/src/common/pf_alarm.c:2770-2794 | Opens both priorities with empty queues; on an open AR it fails and only drops the alarms waiting to be sent |
| AlarmAr.Ar.Close | p-net-public-v1.0.2/src/common/pf_alarm.c:2796-2827 | Afterwards exactly the buffers of others are live and all machines are in their initial states, whether the AR was open or closed |
| AlarmAr.Ar.EndTogether | p-net-public-v1.0.2/src/common/pf_alarm.c:330-351 | An abort at one priority closes the other with the code of the abort |
| AlarmAr.Ar.PostFrame | p-net-public-v1.0.2/src/common/pf_alarm.c:772-820 | A frame is queued and its buffer taken over, or it stays with the caller |
| AlarmAr.Ar.ReceivePeriodic | p-net-public-v1.0.2/src/common/pf_alarm.c:2073-2278 | Low frames first, then high ones, each handled once, no buffer lost; an error is reported exactly if the last frame handled stops the loop; without such a frame both queues are emptied unless the connection ends |
| AlarmAr.Ar.SendPeriodic | p-net-public-v1.0.2/src/common/pf_alarm.c:2721-2750 | At most one alarm per call; a low one only if alarms are enabled and the high queue is empty or high ALPMI busy |
| AlarmAr.Ar.AckAlarm | p-net-public-v1.0.2/src/common/pf_alarm.c:3004-3057 | The ack always goes to the high priority, and succeeds exactly if its ALPMR waits for one, its APMS is free and the local calls succeed |
| AlarmAr.Ar.SendAlarm | p-net-public-v1.0.2/src/common/pf_alarm.c:3106-3202 | Queued exactly if alarms are enabled for the device and the AR, the payload is neither too long for stack or controller nor missing, the connection is open and there is room |
| AlarmAr.Ar.Timeout | p-net-public-v1.0.2/src/common/pf_alarm.c:849-954 | The timer of one priority; an abort closes both |
| AlarmAr.Ar.PostedAreSentOrWait | p-net-public-v1.0.2/src/common/pf_alarm.c:2640-2750 | Per priority, alarms posted are those handed to the transport followed by those waiting, in order |
| AlarmAr.Ar.LowIndicatesOnce | p-net-public-v1.0.2/src/common/pf_alarm.c:3013-3014 | The low priority tells its user one alarm per activation at most |
| AlarmAr.Ar.SecondLowAlarmCloses | p-net-public-v1.0.2/src/common/pf_alarm.c:640-682 | Once the low priority has told its user an alarm, a further new one whose TACK is sent has closed both priorities with a protocol violation |
| AlarmRegistration.Endpoints.Allocate | p-net-public-v1.0.2/src/common/pf_alarm.c:684-698 | Takes the first endpoint that belongs to nobody |
| AlarmRegistration.Endpoints.Free | p-net-public-v1.0.2/src/common/pf_alarm.c:700-713 | Gives the AR's endpoint back |
| AlarmRegistration.Endpoints.Activate | p-net-public-v1.0.2/src/common/pf_alarm.c:1059-1085 | Registers both frame ids if no endpoint is active, and marks the AR's |
| AlarmRegistration.Endpoints.Close | p-net-public-v1.0.2/src/common/pf_alarm.c:1617-1635 | Unmarks the AR's endpoint and unregisters both ids if none is active |
| AlarmRegistration.Endpoints.Route | p-net-public-v1.0.2/src/common/pf_alarm.c:768-780 | The AR whose queue gets a frame for an endpoint number |
| AlarmRegistration.ActivateKeeps | p-net-public-v1.0.2/src/common/pf_alarm.c:1059-1085 | Activation keeps the registration right exactly if somebody is active, or the AR holds an endpoint and two slots are free (or neither endpoint nor slot exists) |
| AlarmRegistration.CloseKeeps | p-net-public-v1.0.2/src/common/pf_alarm.c:1617-1635 | Closing always keeps it right |
| AlarmRegistration.FreeKeeps | p-net-public-v1.0.2/src/common/pf_alarm.c:700-713 | Freeing keeps it right exactly if the endpoint is not the only active one |
| AlarmRegistration.RegisteredRun | p-net-public-v1.0.2/src/common/pf_alarm.c:1059-1085 | Over all disciplined interleavings each alarm frame id is registered exactly once while some endpoint is active and otherwise not at all |
| AlarmRegistration.EndpointKept | p-net-public-v1.0.2/src/common/pf_alarm.c:764-780 | Until an AR frees its endpoint, frames for the number go to it while it is active and to nobody otherwise |
| AlarmRegistration.AllocatedIsRouted | p-net-public-v1.0.2/src/common/pf_alarm.c:684-698 | An AR that was given an endpoint gets the frames for its number exactly while it is active |
| AlarmActivity.CloseDeactivates | p-net-public-v1.0.2/src/common/pf_alarm.c:1617-1635 | Closing makes the AR's endpoint inactive, which the AR keeps, and no other; its number leads nowhere |
| AlarmActivity.ActivateActivates | p-net-public-v1.0.2/src/common/pf_alarm.c:1059-1085 | Activation makes exactly the AR's endpoint active, and its number leads to the AR |
| AlarmActivity.FreeReleases | p-net-public-v1.0.2/src/common/pf_alarm.c:700-713 | Freeing gives the endpoint back for others, and its number leads nowhere |
| AlarmActivity.ActiveIffOpened | p-net-public-v1.0.2/src/common/pf_alarm.c:764-780 | Over all disciplined interleavings an AR is active, and gets the frames for its number, exactly if it was activated and not closed since, and the alarm ids are registered exactly as long as there is such an AR |
| FrameIdMap.Table.Lookup | p-net-public-v1.0.2/src/common/pf_eth.c:227-246 | Finds the first slot in use for the id |
| FrameIdMap.Table.Add | p-net-public-v1.0.2/src/common/pf_eth.c:266-297 | Takes the first free slot; a full table is left alone |
| FrameIdMap.Table.Remove | p-net-public-v1.0.2/src/common/pf_eth.c:299-320 | Releases the first slot in use for the id |
| FrameIdMap.AddIsUpdate | p-net-public-v1.0.2/src/common/pf_eth.c:266-297 | Adding is a map update exactly if a free slot lies before the id's registration or the handler is found already; else the map stays |
| FrameIdMap.RemoveIsRemoval | p-net-public-v1.0.2/src/common/pf_eth.c:299-320 | Removing is a map removal exactly if the id is registered once at most |
| FrameIdMap.AddThenRemove | p-net-public-v1.0.2/src/common/pf_eth.c:266-320 | Removing a new registration restores the map |
| EthernetReceive.Receive | p-net-public-v1.0.2/src/common/pf_eth.c:197-264 | All VLAN tags are skipped and the frame goes to the handler the map gives for its frame id |
| EthernetReceive.TaggingIsTransparent | p-net-public-v1.0.2/src/common/pf_eth.c:209-220 | Any number of VLAN tags leaves the destination alone and moves the frame position by their length |
| EthernetReceive.Untagged | p-net-public-v1.0.2/src/common/pf_eth.c:209-246 | An untagged frame with type 0x8892 in bytes 12 and 13 goes to the handler of the frame id in bytes 14 and 15, with position 14; LLDP frames go to LLDP; nobody gets others |
| CycleCounter.FreshIffNewer | p-net-public-v1.0.2/src/common/pf_cpm.c:181-193 | Within 4095 behind and 61440 ahead the 16-bit check accepts exactly the newer counters |
| CycleCounter.WindowIsMaximal | p-net-public-v1.0.2/src/common/pf_cpm.c:181-193 | The window cannot be widened at either end |
| CycleCounter.NeverActsAsLast | p-net-public-v1.0.2/src/common/pf_cpm.c:181-193 | The initial -1 acts as 65535: a first frame is accepted exactly if its counter is below 61440 |
| CpmConsumer.OneActivation | p-net-public-v1.0.2/src/common/pf_cpm_driver_sw.c:257-400 | After any frames, expiries and reads: received equals freed plus the buffers held, which differ; indications are a prefix of start, stop; the watchdog shows the expiries since the last accepted frame; the newest frame is where the flag says; the branch without new data is never taken |
| CpmConsumer.WatchdogExact | p-net-public-v1.0.2/src/common/pf_cpm_driver_sw.c:57-84 | Without accepted frames the consumer stops at expiry number data_hold_factor + 1 and not before, with one stop indication |
| CpmConsumer.AcceptedIffNewer | p-net-public-v1.0.2/src/common/pf_cpm_driver_sw.c:311-361 | A valid frame of the right structure is accepted exactly if it is newer than all accepted before |
| CpmConsumer.AcceptedCountersIncrease | p-net-public-v1.0.2/src/common/pf_cpm.c:181-193 | The true counters of accepted frames strictly increase over any run, through every wrap |
| CpmConsumer.CountersIncreaseFromStart | p-net-public-v1.0.2/src/common/pf_cpm_driver_sw.c:319-361 | So they do in any activation of a connection set up on zeroed memory |
| CpmConsumer.ReadsItsSlice | p-net-public-v1.0.2/src/common/pf_cpm_driver_sw.c:444-491 | With reception as one step, a data object that fits the cyclic data reads exactly its own part of the newest accepted frame, and position plus data length plus 4 is the frame length |
| CpmConsumer.TagsDoNotMatter | p-net-public-v1.0.2/src/common/pf_cpm_driver_sw.c:307-325 | VLAN tags change neither a frame's data nor whether it is accepted |
| CpmActivation.AcceptedExactly | p-net-public-v1.0.2/src/common/pf_cpm.c:228-266 | In any activation, until it is stopped, a frame is accepted exactly if it comes from the agreed source with transfer status 0 and valid data of the agreed C_SDU length, and is newer than all accepted before |
| CpmActivation.StopsAfterHold | p-net-public-v1.0.2/src/common/pf_cpm.c:228-266 | After an accepted frame and without a further one the consumer survives as many expiries as the activation's hold factor says, and the next one stops it |
| CpmActivation.ReportsOfActivation | p-net-public-v1.0.2/src/common/pf_cpm_driver_sw.c:319-400 | New data is told once for each accepted frame, each change of the data status along the accepted frames once, each failure of the control interval once; all frames are counted, none as an error while the consumer runs |
| CpmActivation.NotStartedDrops | p-net-public-v1.0.2/src/common/pf_cpm.c:268-308 | If the control interval could not be started, all frames are dropped and counted as errors |
| CpmActivation.SecondActivationIgnored | p-net-public-v1.0.2/src/common/pf_cpm.c:212-226 | An attempt to activate an active consumer makes no difference to its run |
| CpmExchange.ExchangeIsSafe | p-net-public-v1.0.2/src/common/pf_cpm_driver_sw.c:184-237 | Under every interleaving each buffer is in one place, the buffer held between get and copy stays allocated, each read gives the newest frame accepted before its get step, and the flag is true exactly if one was accepted since the previous get step |
| CpmExchange.UniformFramesReadRight | p-net-public-v1.0.2/src/common/pf_cpm_driver_sw.c:347-349 | While all frames carry as many tags as the position assumes, every read takes its data from the right place |
| CpmExchange.RightIffUntagged | p-net-public-v1.0.2/src/common/pf_cpm_driver_sw.c:347-349 | Reading is right under every interleaving exactly if all accepted frames are untagged |
| CpmInstance.Cpm.Activate | p-net-public-v1.0.2/src/common/pf_cpm.c:212-308 | Sets up an activation; refused unless the instance waits for its start; if the control interval cannot be started, the instance goes on waiting |
| CpmInstance.Cpm.DataInd | p-net-public-v1.0.2/src/common/pf_cpm_driver_sw.c:257-400 | A frame is always taken over: kept, or freed; the former buffer is freed in exchange |
| CpmInstance.Cpm.PutBuf | p-net-public-v1.0.2/src/common/pf_cpm_driver_sw.c:184-194 | Exchanges the newest buffer and sets the flag |
| CpmInstance.Cpm.GetBuf | p-net-public-v1.0.2/src/common/pf_cpm_driver_sw.c:205-237 | Brings the newest buffer to the application's side and clears the flag |
| CpmInstance.Cpm.Expired | p-net-public-v1.0.2/src/common/pf_cpm_driver_sw.c:46-116 | One expiry of the control interval: the watchdog counts or stops the consumer, and a failing restart of the timer is reported |
| CpmInstance.Cpm.GetDataAndIops | p-net-public-v1.0.2/src/common/pf_cpm.c:398-499 | Returns the sub-slot's data and provider status from the newest accepted frame, or fails if not running, without room or without data |
| CpmInstance.Cpm.Close | p-net-public-v1.0.2/src/common/pf_cpm_driver_sw.c:149-174 | Frees both buffers, each once |
| CpmDescriptors.Find | p-net-public-v1.0.2/src/common/pf_cpm.c:324-396 | Finds the first data object for the sub-slot in the owner's consumer connections, or none if there is none |
| ArList.AddArep | p-net-1.0.2-samples/pn_dev/app_utils.c:35-52 | Uses the first unused entry, or fails if there is none, on any array |
| ArList.Iterator.Next | p-net-1.0.2-samples/pn_dev/app_utils.c:88-130 | Finds the next entry; at the end of a modified list closes the holes without changing contents or order |
| ArList.Iterator.Compact | p-net-1.0.2-samples/pn_dev/app_utils.c:106-126 | Moves the entries in use together, in their order |
| ArList.Iterator.Done | p-net-1.0.2-samples/pn_dev/app_utils.c:132-143 | Tells whether the iteration has run past the entries |
| ArList.Iterator.DeleteCurrent | p-net-1.0.2-samples/pn_dev/app_utils.c:145-154 | Marks the current entry unused |
| ArList.SetEvent | p-net-1.0.2-samples/pn_dev/sampleapp_common.c:226-255 | On any array: notes the event at the AR's entry if that lies before the first unused one, or takes that one if wanted |
| ArList.TidyNoted | p-net-1.0.2-samples/pn_dev/sampleapp_common.c:226-255 | On an array without holes that sets the event at the AR's entry, or appends an entry if wanted and possible |
| ArList.NotedKeepsUniqueUsed | p-net-1.0.2-samples/pn_dev/sampleapp_common.c:226-255 | With holes, no AR gets a second entry exactly if none is added for an AR whose entry lies behind the first hole |
| ArList.HandleEvent | p-net-1.0.2-samples/pn_dev/sampleapp_common.c:1598-1618 | Calls the handler once, in order, for each AR with the event pending; what remains is determined by the answers |
| ArList.HandlingKeeps | p-net-1.0.2-samples/pn_dev/sampleapp_common.c:1608-1617 | Exactly the ARs whose handler asked for it are removed, the others stay in order |
| ArList.NothingPending | p-net-1.0.2-samples/pn_dev/sampleapp_common.c:1608-1617 | After handling, the event is pending nowhere |
| ArList.SettingPends | p-net-1.0.2-samples/pn_dev/sampleapp_common.c:226-255 | Setting an event makes it pending for its AR, if that is listed or added, and changes nothing for other ARs and other events |
| ArList.HandlingLeavesOthers | p-net-1.0.2-samples/pn_dev/sampleapp_common.c:1598-1618 | Handling an event leaves other events pending, except for the ARs it removes |
| ArList.StaysPending | p-net-1.0.2-samples/pn_dev/sampleapp_common.c:1598-1618 | A pending event stays pending until one that shares a bit with it is handled or the AR is removed |
| ArList.AlwaysUnique | p-net-1.0.2-samples/pn_dev/sampleapp_common.c:226-255 | Over all runs each AR is listed once at most and the list fits its array |
| DiagSummary.AddItem | p-net-public-v1.0.2/src/common/pf_alarm.c:2850-2978 | What one diagnosis item adds |
| DiagSummary.AddedSummarizes | p-net-public-v1.0.2/src/common/pf_alarm.c:2850-2978 | Adding an item to a summary gives the summary of one item more |
| DiagSummary.Summarize | p-net-public-v1.0.2/src/common/pf_alarm.c:2010-2052 | The result collected along the list says, flag by flag and bit by bit, that some item is so |
| DiagSummary.SummaryOfSet | p-net-public-v1.0.2/src/common/pf_alarm.c:2023-2048 | The summary does not depend on order or repetition of items |
| DiagSummary.FlagsAreNested | p-net-public-v1.0.2/src/common/pf_alarm.c:2883-2976 | A diagnosis in the AR is one in the sub-module, and that is a channel's or a manufacturer's |
| DiagSummary.MaintenanceBits | p-net-public-v1.0.2/src/common/pf_alarm.c:2953-2964 | Bits 0 and 1 tell exactly of the severities required and demanded; bit 2 is never set |
| DiagSummary.QualifierGrades | p-net-public-v1.0.2/src/common/pf_alarm.c:2908-2964 | A qualified diagnosis with one qualifier bit asks for maintenance (bits 7 to 16), demands it (17 to 26) or is a fault (27 to 31), and says so in the summary exactly then |

## Left out

- Byte-level building and parsing of alarm frames: a frame is a value with the fields the machines look at; the
  variable part's length is only judged right or wrong, the alarm specifier and maintenance status are not part of
  a notification's content, and the cause of a close alarm stands for its status bytes.
- The UDP transport of alarms, `pf_alarm_pending`, `pf_cpm_mrwdt_expired` and the driver-based consumer.
- CMSU, CMDEV, CMIO, FSPM, scheduler and plug internals: an error indication is the step that ends the connection;
  callbacks do not re-enter; data descriptors are taken as CMDEV has checked them.
- Mutexes, threads and timers: a locked section is one step and a timer fires at any time. Frames posted while the
  receiving loop of an AR is running are not modelled there; each post and fetch is one step of its own.
- Local calls of one step share one outcome per kind of call (allocation, send, scheduler, close alarm).
- A closed consumer instance used again without its memory being cleared (its buffer pointers stay):
  `pf_cmrpc.c` clears the memory of an AR.
- On a link both ends are activated together and local calls succeed; loss happens in the channels.
- Counters of frames received and freed are unbounded; the code's are 32 bits wide, so the accounting equation then
  holds modulo 2 to the power of 32.
- EthernetReceive.Receive: frames cut off before their type or frame id are not modelled: there is no byte to read.
- An abort releases and clears the AR within the same call (`p-net-public-v1.0.2/src/device/pf_cmrpc.c:790`). What
  the rest of the call does with the cleared memory, as the second negative confirmation of `pf_alarm.c:1498-1506`,
  is not modelled; the model goes on with the closed state.
- The guard of `pf_alarm_periodic` (`pf_alarm.c:2985`) and its loop over all ARs.
- Several readers of one consumer instance, and counting of consumer instances around the shared mutex.
- The other data access functions of the consumer (`pf_cpm_get_iocs`, data status), which add only easy members.
- AlarmAr.Ar.Activate: not for a closed AR whose ALPMR was left in W_TACK and not reset since, where the code opens
  the transport only; Level.Activate covers that case of one level.
- CpmInstance.Cpm.GetDataAndIops: reception is not interleaved with it; CpmExchange does that for the steps.
- ArList.HandleEvent: the handler does not itself set events or add ARs.
