# Verified models of SLIB protocols and tools

Dafny models of four parts of SLIB, each with the properties it is there for. `dafny verify
dfyconfig.toml` checks all of them.

## The PseudoTcp transport

`extra/pseudo_tcp/pseudo_tcp.cpp` is a reliable byte stream over datagrams. The model has these layers.

- `FifoBuffer.dfy`: the circular byte queue with write-ahead slots, as an array class and as a value (`Ring`).
- `TcpTypes.dfy`, `TcpSegments.dfy`, `TcpSender.dfy`, `TcpReceiver.dfy`, `TcpEndpoint.dfy`: one endpoint as a value
  (`Tcb`) and each operation as a function from state to state. The contracts of these functions hold for arbitrary
  packets, also such as no peer would send.
- `PseudoTcp.dfy`: the endpoint as a class with the source's fields, circular buffers and loops. Each method is shown to
  change the state as the function of the same name does, so what is proved of the functions holds for the object. The
  congestion fields and the timers are kept in one record each.
- `TcpLink.dfy`, `TcpReassembly.dfy`, `TcpDelivery.dfy`, `TcpSystem.dfy`, `TcpTheorems.dfy`, `TcpProgress.dfy`: two
  endpoints, a network, the invariant between them, and what follows for every run of both.
- `TcpRuns.dfy`, `TcpPolicies.dfy`, `TcpReplies.dfy`, `TcpGrowth.dfy`, `TcpDuplicates.dfy`, `TcpRecovery.dfy`,
  `TcpTimers.dfy`, `TcpStamps.dfy`, `TcpEvents.dfy`: runs of one endpoint, with any calls and packets, each at its own
  time: which packets are answered, how the congestion window moves, what the clock does, what packets echo, and what
  the application is told. `TcpWire.dfy`: the bytes of packets. `TcpExamples.dfy` and
  `TcpWrapExamples.dfy` have concrete runs at whose ends a property fails.

The network is the set of all packets it has taken from an endpoint. A step of a run is any call of the application, of
the clock or of a setting at either end, or the arrival of any packet that the peer has ever put on the network; so
packets may be lost, repeated, delayed and reordered at will. What the network answers to the n-th write is a parameter,
and so is the clock of each call.

Where a property does not hold of the code, the exact condition is proved, and a run that begins with the creation of an
endpoint shows that the exception occurs:

- `ControlKeepsSteadyExactly`: a connect message without window scaling that reaches an open connection sets the threshold
  without regard to the segment size (`RenegotiationUnsteers`).
- `DeadlinesLieAhead`: a doubled wait wraps around the signed 32-bit difference (`DeadlineFallsBehind`).
- `RepliesExactly`: a request for an acknowledgment is forgotten when the Nagle rule holds back data
  (`NagleForgetsAcknowledgment`), when the network refuses data (`RefusedDataForgetAcknowledgment`), or when it refuses
  the bare acknowledgment (`RefusedAcknowledgmentCountsAsSent`).
- `DuplicateRetransmitsExactly` and `RecoveryEndsExactly`: duplicate acknowledgments are counted in eight bits. Not only
  the third but each third of 256 in a row retransmits and moves the mark that ends recovery
  (`LaterDuplicateBeginsAgain`), and while the count modulo 256 is below three, an acknowledgment below the mark ends the
  count (`PartialAcknowledgmentEndsCount`). Up to the wrap recovery ends as RFC 6582 wants it (`RecoveryEndsAtBegin`).
- `DuplicatesInflate`: an idle time or a fall of the segment size sets the inflated window anew.
- Between two endpoints an MTU leaves four bytes of payload; with less, the connect message is cut when it is transmitted
  again (`ConnectMessageIsCut`). The congestion bounds of one endpoint need only one byte (`SteeredAlone`).

## Messages over the transport

`extra/pseudo_tcp/pseudo_tcp_message.cpp` frames messages by their length and calls a response callback.
`MessageFraming.dfy` has the chunk and the receive buffer, `MessageTransport.dfy` joins it to the transport's runs,
`MessageSending.dfy`, `MessageTheorems.dfy` and `PseudoTcpMessage.dfy` have the life cycle of sending connections. The
promise that a connection stays in the map until it has answered needs conversation numbers that differ; they repeat
after 2^32 messages, and `RepeatedNumberPushesOut` shows that the bound is exact.

## Headers of encrypted files

`EncryptedHeader.dfy` models the header of `extra/file_encrypt/chacha.cpp`: packed iteration counts, opening, and changes
of the password. SHA-256 and PBKDF2 are parameters of which only the size of the result is known. Two passwords may
collide in the check pattern; `PasswordRotation` is stated for changes whose caller knew the current password, and
`ChangeKeepsKeyExactly` says when any other success keeps the data key.

## The resource compiler sapp

`Menus.dfy`, `MenuCompiler.dfy` and `MenuObjects.dfy`: the menu parser, the generator of menu source code and the menu
simulator. Platform flags are words of 16 bits; the constants that exclude a platform (`src/sapp/sapp_resources.h:175-181`)
keep bits that belong to none. An item below exclusions of all three platforms is accepted, and its guard is an `#if`
without a condition, which the preprocessor rejects wherever the guards around it hold (`NestedExclusionsFail`). Exactly
where this does not occur, the generated source builds the simulator's menu. A failure below the outermost items goes
unnoticed by the generator (`NestedFailureGoesUnnoticed`). `LayoutStyles.dfy`: style definitions and the two look-ups along
inheritance. `TablePlacement.dfy`: the placement of table cells with spans; the loop looks for a free anchor but not for a
free span, and `OverlapExactly` and `OverlapForeseen` say when cells overlap.

## Model

| member | source | states |
|---|---|---|
| TcpTheorems.EndToEnd | extra/pseudo_tcp/pseudo_tcp.cpp:616-706 | in every run of two endpoints over a network that loses, repeats, delays and reorders packets, what `Receive` has returned at an endpoint that has not been closed is a prefix of what the peer's `Send` has accepted; both directions |
| TcpTheorems.AcknowledgedHasArrived | extra/pseudo_tcp/pseudo_tcp.cpp:891-936 | in both directions: once everything sent is acknowledged, the bytes returned and those waiting to be read are all the bytes sent |
| TcpTheorems.MissingBytesAreKept | extra/pseudo_tcp/pseudo_tcp.cpp:699-746 | in every reachable state and both directions `snd_una <= peer.rcv_nxt <= snd_nxt`, and each byte the peer still misses is in the send buffer at its distance from `snd_una` |
| TcpTheorems.FlowControl | extra/pseudo_tcp/pseudo_tcp.cpp:1033-1116 | in every reachable state and both directions no assertion has failed, nothing in flight or allowed passes the peer's `rcv_nxt + rcv_wnd`, which its buffer has room for, every segment number is its position, every acknowledgment lies on a segment boundary, and every packet on the network fits: nothing of it would be cut for lack of space or dropped, and the window would take what becomes readable without underflow |
| TcpTheorems.EdgeNeverRecedes | extra/pseudo_tcp/pseudo_tcp.cpp:633-641 | every step from a reachable state moves `rcv_nxt` and `rcv_nxt + rcv_wnd` forward only, at both ends |
| TcpTheorems.NoPartialAcknowledgment | extra/pseudo_tcp/pseudo_tcp.cpp:924-936 | no packet in the network of any run, in either direction, acknowledges part of a segment: the branch that shortens the front segment is dead between two endpoints |
| TcpTheorems.ReassemblyHolds | extra/pseudo_tcp/pseudo_tcp.cpp:1033-1116 | in every reachable state, at each endpoint that is not closed, the list of stretches is sorted, fits the free space, lies behind `rcv_nxt`, and each of its bytes is in the write-ahead slot at its distance with the value that was sent |
| TcpTheorems.ReachableIsCoherent | extra/pseudo_tcp/pseudo_tcp.cpp:830-1199 | the invariant that ties send buffer, segment list, network, receive ring and gap list together holds after any steps from any two new endpoints |
| TcpProgress.SteeredInEveryRun | extra/pseudo_tcp/pseudo_tcp.cpp:938-983 | with nonzero clocks, in every run and at both ends: the retransmit timer runs exactly while bytes are in flight; once Established the congestion window holds a segment and the threshold two; the RTO is within its bounds |
| TcpProgress.SteeredAlone | extra/pseudo_tcp/pseudo_tcp.cpp:1297-1311 | for one endpoint, any packets that do not make it revert its buffer, and any MTU that leaves a byte of payload: the retransmit timer runs exactly while bytes are in flight; once Established `cwnd >= mss >= 1` and `ssthresh >= 2 * mss`; the RTO is within its bounds |
| TcpWrapExamples.ConnectMessageIsCut | extra/pseudo_tcp/pseudo_tcp.cpp:1178-1188 | a run of a new endpoint that is advised an MTU with two bytes of payload: the connect message goes out again with two bytes |
| TcpProgress.SegmentsAlwaysAccount | extra/pseudo_tcp/pseudo_tcp.cpp:685-706 | whatever is called and arrives: segment lengths sum up to the bytes buffered, transmitted segments come first and sum up to the bytes in flight, no number runs ahead of its position, and every scan or retransmission finds its segment |
| TcpProgress.ControlKeepsSteadyExactly | extra/pseudo_tcp/pseudo_tcp.cpp:863-883 | control data keeps an open connection's congestion state exactly unless it reverts the receive buffer and the default size is less than two segments |
| TcpExamples.RenegotiationUnsteers | extra/pseudo_tcp/pseudo_tcp.cpp:1380-1386 | a run of a new endpoint that opens a steady connection, and the packet that then takes its threshold below two segments |
| TcpProgress.SendingGetsOn | extra/pseudo_tcp/pseudo_tcp.cpp:1201-1286 | with nothing in flight, bytes queued and an open peer window, the first write the network accepts puts bytes in flight |
| TcpProgress.DeadlinesLieAhead | extra/pseudo_tcp/pseudo_tcp.cpp:474-524 | after `notifyClock` every deadline of an open connection lies ahead exactly unless a probe doubles a wait that wraps; then `getNextClock` yields 1 to 4000 ms |
| TcpProgress.SaneTimersKeepTrack | extra/pseudo_tcp/pseudo_tcp.cpp:796-828 | the exception does not occur when the timer was started at most 2^30 ms ahead of the clock |
| TcpProgress.WaitMeetsDeadline | extra/pseudo_tcp/pseudo_tcp.cpp:796-828 | the wait that `getNextClock` yields when every deadline lies ahead is the time to the earliest: before it is over nothing becomes due, and then something does, or 4 seconds have passed |
| TcpProgress.DroppedWhenClosed | extra/pseudo_tcp/pseudo_tcp.cpp:798-804 | `getNextClock` reports that the connection may be dropped exactly when it was closed by force, or was closed and is not open or has nothing left to be acknowledged in either direction |
| TcpProgress.ShutWindowIsProbed | extra/pseudo_tcp/pseudo_tcp.cpp:506-519 | with a shut window and a probe due, the clock sends a packet with the number before `snd_nxt` and doubles the wait, or gives the connection up after 15 seconds without a packet |
| TcpStamps.SilenceIsMeasured | extra/pseudo_tcp/pseudo_tcp.cpp:840-841 | over any run the silence that the probe waits for is the time since the last packet of the conversation |
| TcpExamples.DeadlineFallsBehind | extra/pseudo_tcp/pseudo_tcp.cpp:506-519 | a run of a new endpoint after which the clock serves a probe and the retransmission deadline is no longer ahead |
| TcpTimers.SmoothedInEveryRun | extra/pseudo_tcp/pseudo_tcp.cpp:893-908 | over any run of an endpoint the smoothed round-trip time lies between the least and the greatest sample that its packets gave, and the RTO within its bounds |
| TcpTimers.RunEstimates | extra/pseudo_tcp/pseudo_tcp.cpp:893-908 | over any run the estimator is that of the samples: new acknowledgments that echo a time stamp not ahead of the clock, and nothing else changes it |
| TcpProgress.SmoothedLiesWithinSamples | extra/pseudo_tcp/pseudo_tcp.cpp:893-908 | over any samples the smoothed round-trip time lies between the least and the greatest one; the RTO is above it and within 250 to 60000 |
| TcpTimers.SampleWeighs | extra/pseudo_tcp/pseudo_tcp.cpp:893-908 | in the state after any packet with a sample: the first sample is the estimate and half of it the variation; a later one counts an eighth and its error a quarter, rounded down |
| TcpTimers.SteadySamplesConverge | extra/pseudo_tcp/pseudo_tcp.cpp:893-908 | with equal samples the distance of the smoothed time from them shrinks by an eighth each time, no more and no less, up to 7 ms in all |
| TcpTimers.RunConverges | extra/pseudo_tcp/pseudo_tcp.cpp:893-908 | the same over any run whose packets show one round-trip time |
| TcpGrowth.TimeoutIsEstimated | extra/pseudo_tcp/pseudo_tcp.cpp:893-908 | after any packet with a sample the RTO is the smoothed time and four times the variation, within 250 to 60000, whatever was sent again meanwhile |
| TcpStamps.EchoesAreGenuine | extra/pseudo_tcp/pseudo_tcp.cpp:739-742 | in every run of two endpoints each echoed time stamp, on the network or to be echoed next, is 0 or the clock that the other end read when it put some packet on the network |
| TcpStamps.SampleIsRoundTrip | extra/pseudo_tcp/pseudo_tcp.cpp:891-896 | so each sample is the time since the endpoint put a packet of its own on the network |
| TcpStamps.ThenStamps | extra/pseudo_tcp/pseudo_tcp.cpp:739-742 | what a call puts on the network carries the clock of that call and echoes the stamp of the packet that covered the last acknowledged number |
| TcpDuplicates.DuplicatesInflate | extra/pseudo_tcp/pseudo_tcp.cpp:961-983 | after `k` duplicate acknowledgments in a row, processed each at its own time, the window is the threshold and one segment for each duplicate of the current 256 (after a wrap that of the 255th), exactly unless since the last retransmission an idle time has passed or the segment size has fallen; before the third nothing changes |
| TcpDuplicates.DuplicateRetransmitsExactly | extra/pseudo_tcp/pseudo_tcp.cpp:961-983 | processing the `k`-th duplicate in a row puts data on the network again exactly when `k` is 3 modulo 256 and the network takes the oldest segment: first one packet of it; all other packets are bare or carry new data within the window |
| TcpGrowth.AcknowledgmentOpens | extra/pseudo_tcp/pseudo_tcp.cpp:953-960 | over `process`, for a new acknowledgment outside of recovery: the window opens by a segment below the threshold, and from it on by the whole part of mss * mss / cwnd and at least 1; unless the segment size falls, which leaves two segments, or an idle time passed, which leaves one |
| TcpGrowth.ThenOpens | extra/pseudo_tcp/pseudo_tcp.cpp:953-960 | in a step that nothing disturbs only a new acknowledgment changes the window, and by that law; disturbing are a third duplicate, a timeout, MTU advice, a reverted receive buffer, a fall of the segment size, and sending after an idle time |
| TcpGrowth.SlowStart | extra/pseudo_tcp/pseudo_tcp.cpp:955-956 | over any undisturbed run with `k` new acknowledgments that find the window below the threshold: it opens by exactly `k` segments |
| TcpGrowth.CongestionAvoidance | extra/pseudo_tcp/pseudo_tcp.cpp:957-959 | over any undisturbed run from the threshold on, `k` new acknowledgments open the window by `k` bytes at least; as many as it holds segments open it by one segment at most, or by one byte each |
| TcpGrowth.PartialAcknowledgment | extra/pseudo_tcp/pseudo_tcp.cpp:943-952 | over `process`, for an acknowledgment below the mark: the oldest segment left goes out again first if the network takes it, and otherwise the connection ends; the window loses what was acknowledged and gains a segment, unless the segment size falls |
| TcpGrowth.RecoveryEndSetsWindow | extra/pseudo_tcp/pseudo_tcp.cpp:939-942 | over `process`, for an acknowledgment of the mark: the window is the threshold, or what is in flight and a segment if that is less, with the two exceptions above |
| TcpGrowth.SendingDrains | extra/pseudo_tcp/pseudo_tcp.cpp:1201-1286 | when the network takes what is written, an attempt to send stops only when all is sent, or the windows have no room for the next segment nor for a quarter of themselves, or the Nagle rule waits; one duplicate allows one segment more, two allow two |
| TcpGrowth.AdviceIsFollowed | extra/pseudo_tcp/pseudo_tcp.cpp:466-472 | MTU advice to an open connection: the segment size is what the MTU leaves, the level is the table's entry next below, and window and threshold are raised only as far as one segment and two |
| TcpGrowth.AdviceWaits | extra/pseudo_tcp/pseudo_tcp.cpp:1297-1311 | the same when a connection opens, with the advice it got before |
| TcpRecovery.RecoveryEndsExactly | extra/pseudo_tcp/pseudo_tcp.cpp:938-983 | after any calls and packets, each at its own time: a new acknowledgment resets the count of duplicates exactly when it covers the mark or the duplicates in a row, modulo 256, are fewer than three; otherwise recovery goes on; ended by the mark, the window falls to the threshold |
| TcpRecovery.MarkIsLatest | extra/pseudo_tcp/pseudo_tcp.cpp:965-979 | the mark is what was in flight at the latest duplicate that made the count 3 modulo 256, also after a wrap |
| TcpRecovery.RecoveryEndsAtBegin | extra/pseudo_tcp/pseudo_tcp.cpp:938-983 | with at most 252 bare packets after the third duplicate, whatever else is called and arrives below its mark: recovery ends exactly with the acknowledgment of all that was in flight at the third duplicate |
| TcpWrapExamples.PartialAcknowledgmentEndsCount | extra/pseudo_tcp/pseudo_tcp.cpp:938-960 | a run with 257 duplicates, after which an acknowledgment below the mark resets the count |
| TcpWrapExamples.LaterDuplicateBeginsAgain | extra/pseudo_tcp/pseudo_tcp.cpp:965-979 | a run with 258 duplicates and more data, after which the next duplicate retransmits and moves the mark |
| TcpTimers.TimeoutsDouble | extra/pseudo_tcp/pseudo_tcp.cpp:474-525 | calls of `notifyClock`, each at a time when the retransmit timer has run out: each transmits the oldest segment if the network takes it, or ends the connection; `k` of them multiply the RTO by 2^k up to the limit, and leave a window of one segment and a threshold of half of what is in flight; the probe and the delayed acknowledgment of the same call do not interfere; each counts as a transmission of the segment, of which there are at most 15, or 30 before the connection is open |
| TcpPolicies.WindowMovesInSteps | extra/pseudo_tcp/pseudo_tcp.cpp:630-641 | the window opens in steps worth a packet, and what is held back is less than one step |
| TcpPolicies.RepliesExactly | extra/pseudo_tcp/pseudo_tcp.cpp:1201-1286 | what asks for an acknowledgment gets a packet on the network or a running delay, exactly unless the network refuses the bare acknowledgment, or none is due and the Nagle rule holds back data or the network refuses data |
| TcpReplies.PacketsAreAnswered | extra/pseudo_tcp/pseudo_tcp.cpp:1013-1021 | over `process`, in terms of the packet's number and payload, `rcv_nxt` and the delay: a packet out of order, one with payload when the delay is 0, and one that makes an earlier stretch readable is answered at once, and one with payload in order at once or later, each exactly unless a cause of `RepliesExactly` holds; a bare packet in order asks for nothing |
| TcpReplies.ImmediatelyExactly | extra/pseudo_tcp/pseudo_tcp.cpp:1237-1262 | an immediate acknowledgment puts a packet on the network exactly unless it is refused, the Nagle rule holds back data, or the network refuses data |
| TcpReplies.DelayBegins | extra/pseudo_tcp/pseudo_tcp.cpp:1248-1251 | payload in order with nothing to send starts the delay at the clock of the packet |
| TcpReplies.DelayedAcknowledgmentGoesOut | extra/pseudo_tcp/pseudo_tcp.cpp:521-524 | once the delay has passed, `notifyClock` writes the acknowledgment, and it is on the network if writes are taken; unless the clock ends the connection |
| TcpReplies.WindowUpdateGoesOut | extra/pseudo_tcp/pseudo_tcp.cpp:628-641 | `receive` that opens a shut window puts a packet on the network exactly unless it is hindered; any other sends nothing |
| TcpReplies.WindowIsLearned | extra/pseudo_tcp/pseudo_tcp.cpp:910-915 | after a packet of the peer that acknowledges what is in flight or was acknowledged last, the peer's window is known but for what its scale rounds off |
| TcpEvents.HeardTells | extra/pseudo_tcp/pseudo_tcp.cpp:863-1127 | the notifications of a packet that is looked at, exactly and in order: opened when it opens the connection, writeable when this was waited for and too little is buffered, readable when this was waited for and there is more to read; ended only by a retransmission that fails |
| TcpEvents.UnheardTells | extra/pseudo_tcp/pseudo_tcp.cpp:830-884 | a packet of another conversation, to a closed connection or with bad control data tells nothing; a reset ends the connection |
| TcpEvents.StateIsTold | extra/pseudo_tcp/pseudo_tcp.cpp:1288-1295 | over any run of a new endpoint the application is told once that the connection has opened and once that it has ended, when this is so and not before |
| TcpEvents.NoWakeUpIsLost | extra/pseudo_tcp/pseudo_tcp.cpp:998-1006 | over any run of a new endpoint, while the connection lives: an application that waits to read has nothing to read, and one that waits to write has filled the buffer, or as far as the source wants |
| TcpEvents.ReadersAreWoken | extra/pseudo_tcp/pseudo_tcp.cpp:616-628 | after a `receive` that would block, in any run at whose end something can be read, the application has been told |
| TcpEvents.WritersAreWoken | extra/pseudo_tcp/pseudo_tcp.cpp:648-662 | after a `send` that would block, in any run at whose end the buffer has run low, the application has been told |
| TcpPolicies.SendLoopTakes | extra/pseudo_tcp/pseudo_tcp.cpp:1142-1176 | a segment is sent, in one packet, exactly when the answers of the network to ever smaller sizes come to a success; otherwise no packet and no change of the delay is left |
| TcpExamples.NagleForgetsAcknowledgment | extra/pseudo_tcp/pseudo_tcp.cpp:1257-1261 | a run of a new endpoint after which a packet out of order is stored without a reply, as the Nagle rule holds back a byte |
| TcpExamples.RefusedDataForgetAcknowledgment | extra/pseudo_tcp/pseudo_tcp.cpp:1277-1281 | a run after which a packet out of order is stored, the network refuses the waiting data, and the acknowledgment is neither sent nor due |
| TcpExamples.RefusedAcknowledgmentCountsAsSent | extra/pseudo_tcp/pseudo_tcp.cpp:1243-1255 | a run after which a packet out of order is stored, the network refuses the bare acknowledgment, and none is due any more |
| TcpWire.PacketComesBack | extra/pseudo_tcp/pseudo_tcp.cpp:725-741 | a packet within the ranges of its fields is parsed back from its bytes |
| TcpWire.AcceptedWasEncoded | extra/pseudo_tcp/pseudo_tcp.cpp:771-794 | exactly packets of 24 to 65535 bytes are accepted, and encoding the parsed packet gives the bytes back, up to the ignored byte 12 |
| TcpWire.HighestByteFirst | extra/pseudo_tcp/pseudo_tcp.cpp:725-741 | numbers in the header have their highest byte first |
| TcpWire.OptionsAreRead | extra/pseudo_tcp/pseudo_tcp.cpp:1343-1374 | whatever options a connect message carries, in any order, with or without an end mark: the scale is offered exactly when one of them is of that kind, and is that of the last with one byte |
| TcpWire.ConnectTeachesScale | extra/pseudo_tcp/pseudo_tcp.cpp:1376-1416 | such a message sets the scale of the peer's window; without a scale option an endpoint that scales stops to, and its receive buffer gets the default size with what it holds, or an assertion fails when that is too much |
| TcpReassembly.ArriveKeepsContent | extra/pseudo_tcp/pseudo_tcp.cpp:1033-1116 | any packet of the sender, in any order: readable bytes stay the stream in order, stored stretches keep their bytes, `rcv_nxt` is the first missing byte |
| TcpReassembly.ArriveKeepsFlow | extra/pseudo_tcp/pseudo_tcp.cpp:1045-1116 | an arriving packet is neither dropped nor cut for lack of space; what becomes readable is within the window, which shrinks by exactly that much, so that the edge stays; only a control message in order moves the edge |
| TcpReassembly.RecoverRestoresContent | extra/pseudo_tcp/pseudo_tcp.cpp:1101-1116 | recovering stretches that came into reach keeps the order and leaves none in reach |
| TcpReassembly.TakenKeepsContent | extra/pseudo_tcp/pseudo_tcp.cpp:616-641 | reading moves bytes from the ring to the application and disturbs no stored stretch |
| TcpReassembly.TrimCutsOnlyOldBytes | extra/pseudo_tcp/pseudo_tcp.cpp:1033-1055 | of a packet of the sender nothing is cut at the back; what is left is all that is new, and nothing is left only when all of it was received before |
| TcpDelivery.TransmitKeepsLink | extra/pseudo_tcp/pseudo_tcp.cpp:1131-1199 | a transmission puts on the network the bytes of the stream at its place, within the peer's edge, ending at a boundary |
| TcpDelivery.SendLoopOut | extra/pseudo_tcp/pseudo_tcp.cpp:1142-1176 | at most one packet goes out for a segment, exactly when the network took one; the connect message is never cut |
| TcpDelivery.AttemptSendKeepsLink | extra/pseudo_tcp/pseudo_tcp.cpp:1201-1286 | the sending loop keeps everything that ties the sender to its peer |
| TcpDelivery.QueueDataKeepsLink | extra/pseudo_tcp/pseudo_tcp.cpp:685-706 | queueing extends the stream by the bytes accepted and keeps earlier boundaries |
| TcpDelivery.QueueConnectKeepsLink | extra/pseudo_tcp/pseudo_tcp.cpp:1328-1341 | the connect message heads the stream, once |
| TcpDelivery.AckBytesKeepsLink | extra/pseudo_tcp/pseudo_tcp.cpp:910-936 | an acknowledgment takes whole segments and their bytes off the sender and adopts a window the peer has room for |
| TcpDelivery.WindowOfIsPromised | extra/pseudo_tcp/pseudo_tcp.cpp:914-916 | the scaled window of a packet promises no more than the receiver's edge |
| TcpLink.FieldPromisesAtMostWindow | extra/pseudo_tcp/pseudo_tcp.cpp:734-737 | the 16-bit window field, scaled back, is at most the window |
| TcpLink.QuietKeepsLink | extra/pseudo_tcp/pseudo_tcp.cpp:718-769 | sending packets leaves the direction in which the endpoint receives intact |
| TcpSystem.ConnectOptions | extra/pseudo_tcp/pseudo_tcp.cpp:1343-1410 | the peer reads the window scale out of the connect message |
| TcpSystem.ControlKeepsCoupled | extra/pseudo_tcp/pseudo_tcp.cpp:863-883 | the connect message of a peer, and no other packet of it, moves the hand-shake on; both directions go on |
| TcpSystem.AcknowledgeKeepsCoupled | extra/pseudo_tcp/pseudo_tcp.cpp:891-987 | acknowledgments, duplicates, recovery and retransmission keep both directions |
| TcpSystem.ProcessKeepsCoupled | extra/pseudo_tcp/pseudo_tcp.cpp:830-1129 | whatever packet of the peer arrives, both directions go on and the window moves forward only |
| TcpSystem.SendKeepsCoupled | extra/pseudo_tcp/pseudo_tcp.cpp:646-667 | `send` extends the stream by exactly the bytes it reports |
| TcpSystem.ReceiveKeepsCoupled | extra/pseudo_tcp/pseudo_tcp.cpp:616-644 | `receive` hands over the next bytes of the stream |
| TcpSystem.ClockKeepsCoupled | extra/pseudo_tcp/pseudo_tcp.cpp:474-538 | timeouts, probes and delayed acknowledgments keep both directions |
| TcpSystem.NewPairIsInitial | extra/pseudo_tcp/pseudo_tcp.cpp:382-437 | two new endpoints of one conversation, of any buffer sizes, are a start of runs |
| TcpSystem.RunKeepsCoherent | extra/pseudo_tcp/pseudo_tcp.cpp:830-1199 | the invariant is kept over any steps |
| TcpSegments.SegsAccount | extra/pseudo_tcp/pseudo_tcp.cpp:685-706 | what the order of the segment list means: sums, prefix of transmitted segments, numbers |
| TcpSegments.MarkKeeps | extra/pseudo_tcp/pseudo_tcp.cpp:1178-1192 | transmitting the front or the first unsent segment keeps the order and moves `snd_nxt` by what was sent for the first time |
| TcpSegments.SplitKeeps | extra/pseudo_tcp/pseudo_tcp.cpp:1269-1275 | cutting a segment in two keeps the order |
| TcpSegments.EnlistKeeps | extra/pseudo_tcp/pseudo_tcp.cpp:695-702 | extending the last segment or appending one keeps the order and the numbers |
| TcpSegments.AckFreeKeeps | extra/pseudo_tcp/pseudo_tcp.cpp:924-936 | acknowledged bytes leave from the front and the order is kept; numbers stay exact when the acknowledgment is a boundary |
| TcpSegments.UnsentExists | extra/pseudo_tcp/pseudo_tcp.cpp:1264-1268 | with unsent bytes the scan finds a nonempty unsent segment |
| TcpSegments.FrontInFlight | extra/pseudo_tcp/pseudo_tcp.cpp:489 | with bytes in flight the front segment is one of them |
| TcpSender.LowerMss | extra/pseudo_tcp/pseudo_tcp.cpp:1162-1174 | falls back exactly to the next table entry that makes the segment smaller, or reports that none does |
| TcpSender.SendLoop | extra/pseudo_tcp/pseudo_tcp.cpp:1142-1176 | terminates; sends between one and `n` bytes or reports failure; keeps the congestion state |
| TcpSender.Transmit | extra/pseudo_tcp/pseudo_tcp.cpp:1131-1199 | keeps the endpoint well formed and its timer armed, and moves `snd_nxt` when it sends a new segment |
| TcpSender.Available | extra/pseudo_tcp/pseudo_tcp.cpp:1213-1228 | never beyond the peer's window, the buffer or a segment; all that could go, or at least a quarter of the window |
| TcpSender.AttemptSend | extra/pseudo_tcp/pseudo_tcp.cpp:1201-1286 | terminates, and changes nothing but what sending may change |
| TcpReceiver.Trim | extra/pseudo_tcp/pseudo_tcp.cpp:1033-1055 | what is left lies behind `rcv_nxt` and fits the free space |
| TcpReceiver.ScaledSize | extra/pseudo_tcp/pseudo_tcp.cpp:1421-1432 | the largest size up to the wanted one that 16 bits and the scale express, with the least scale |
| TcpEndpoint.MtuLevel | extra/pseudo_tcp/pseudo_tcp.cpp:1300-1304 | the first table entry that is not above the MTU |
| TcpEndpoint.AdjustMtu | extra/pseudo_tcp/pseudo_tcp.cpp:1297-1311 | window and threshold hold one and two of the new segments |
| TcpEndpoint.Process | extra/pseudo_tcp/pseudo_tcp.cpp:830-1129 | any packet keeps the endpoint well formed and its timer armed; the congestion state too unless the packet reverts the receive buffer |
| TcpEndpoint.NotifyClock | extra/pseudo_tcp/pseudo_tcp.cpp:474-538 | keeps the endpoint well formed, steady and armed, and acknowledges as before |
| FifoBuffers.WrittenStretch | extra/pseudo_tcp/pseudo_tcp.cpp:343-362 | two wrapped copies into the circular array update exactly the logical stretch |
| FifoBuffers.StretchIsTwoPieces | extra/pseudo_tcp/pseudo_tcp.cpp:322-341 | two wrapped copies out of the circular array yield the logical stretch |
| FifoBuffers.RotateAgain | extra/pseudo_tcp/pseudo_tcp.cpp:273-275 | moving the read position rotates the logical slots |
| FifoBuffers.AppendAddsAtTheEnd | extra/pseudo_tcp/pseudo_tcp.cpp:281-297 | a write appends to the readable bytes what fits |
| FifoBuffers.ConsumeReadDropsFromTheFront | extra/pseudo_tcp/pseudo_tcp.cpp:299-305 | reading drops bytes from the front |
| FifoBuffers.WriteAheadSurvivesReads | extra/pseudo_tcp/pseudo_tcp.cpp:307-312 | a write-ahead byte keeps its place behind the readable part while bytes are read |
| FifoBuffers.FifoBuffer.constructor | extra/pseudo_tcp/pseudo_tcp.cpp:219-221 | an empty queue of the given capacity |
| FifoBuffers.FifoBuffer.SetCapacity | extra/pseudo_tcp/pseudo_tcp.cpp:230-249 | succeeds exactly when the queued bytes fit, and keeps them |
| FifoBuffers.FifoBuffer.ReadOffset | extra/pseudo_tcp/pseudo_tcp.cpp:322-341 | the bytes at an offset of the queue, wrapped copies included; fails exactly behind the readable part |
| FifoBuffers.FifoBuffer.WriteOffset | extra/pseudo_tcp/pseudo_tcp.cpp:343-362 | writes ahead at an offset, wrapped copies included; fails exactly without room |
| FifoBuffers.FifoBuffer.Read | extra/pseudo_tcp/pseudo_tcp.cpp:263-279 | takes bytes from the front of the queue |
| FifoBuffers.FifoBuffer.Write | extra/pseudo_tcp/pseudo_tcp.cpp:281-297 | appends to the queue what fits |
| FifoBuffers.FifoBuffer.ConsumeReadData | extra/pseudo_tcp/pseudo_tcp.cpp:299-305 | drops bytes from the front |
| FifoBuffers.FifoBuffer.ConsumeWriteBuffer | extra/pseudo_tcp/pseudo_tcp.cpp:307-312 | makes write-ahead bytes readable |
| PseudoTcps.PseudoTcp.constructor | extra/pseudo_tcp/pseudo_tcp.cpp:382-437 | the state of a new endpoint with the largest buffer a scaled window can announce |
| PseudoTcps.PseudoTcp.Connect | extra/pseudo_tcp/pseudo_tcp.cpp:449-464 | as the function `TcpEndpoint.Connect` of the state |
| PseudoTcps.PseudoTcp.NotifyMtu | extra/pseudo_tcp/pseudo_tcp.cpp:466-472 | as the function `TcpEndpoint.NotifyMtu` |
| PseudoTcps.PseudoTcp.NotifyClock | extra/pseudo_tcp/pseudo_tcp.cpp:474-538 | as the function `TcpEndpoint.NotifyClock` |
| PseudoTcps.PseudoTcp.GetNextClock | extra/pseudo_tcp/pseudo_tcp.cpp:796-828 | as the function `TcpEndpoint.NextClock` |
| PseudoTcps.PseudoTcp.Receive | extra/pseudo_tcp/pseudo_tcp.cpp:616-644 | as the function `TcpEndpoint.Receive`, out of the circular buffer |
| PseudoTcps.PseudoTcp.Reopen | extra/pseudo_tcp/pseudo_tcp.cpp:630-637 | the window is set to the free space exactly when it opens by a step |
| PseudoTcps.PseudoTcp.Send | extra/pseudo_tcp/pseudo_tcp.cpp:646-667 | as the function `TcpEndpoint.Send`, into the circular buffer |
| PseudoTcps.PseudoTcp.Close | extra/pseudo_tcp/pseudo_tcp.cpp:669-673 | as the function `TcpEndpoint.Close` |
| PseudoTcps.PseudoTcp.SetNoDelay | extra/pseudo_tcp/pseudo_tcp.cpp:559-562 | the Nagle rule applies unless the flag is set; nothing else changes |
| PseudoTcps.PseudoTcp.SetAckDelay | extra/pseudo_tcp/pseudo_tcp.cpp:569-572 | the delay is the given one; nothing else changes |
| PseudoTcps.PseudoTcp.Queue | extra/pseudo_tcp/pseudo_tcp.cpp:685-706 | buffer and segment list are those of `TcpSender.Queue`; returns what fits |
| PseudoTcps.PseudoTcp.BuildPacket | extra/pseudo_tcp/pseudo_tcp.cpp:718-769 | as the function `TcpSender.BuildPacket`, the payload read from the circular buffer |
| PseudoTcps.PseudoTcp.Process | extra/pseudo_tcp/pseudo_tcp.cpp:830-1129 | as the function `TcpEndpoint.Process` |
| PseudoTcps.PseudoTcp.Control | extra/pseudo_tcp/pseudo_tcp.cpp:863-883 | as the function `TcpEndpoint.Control` |
| PseudoTcps.PseudoTcp.Stamp | extra/pseudo_tcp/pseudo_tcp.cpp:885-889 | as the function `TcpEndpoint.Stamp` |
| PseudoTcps.PseudoTcp.Estimate | extra/pseudo_tcp/pseudo_tcp.cpp:893-908 | as the function `TcpEndpoint.EstimateFrom` |
| PseudoTcps.PseudoTcp.AckBytes | extra/pseudo_tcp/pseudo_tcp.cpp:914-936 | as the function `TcpEndpoint.AckBytes` |
| PseudoTcps.PseudoTcp.FreeSegments | extra/pseudo_tcp/pseudo_tcp.cpp:924-936 | the loop over the front of the list computes `TcpSegments.AckFree` |
| PseudoTcps.PseudoTcp.Progress | extra/pseudo_tcp/pseudo_tcp.cpp:938-960 | as the function `TcpEndpoint.Progress` |
| PseudoTcps.PseudoTcp.Acknowledge | extra/pseudo_tcp/pseudo_tcp.cpp:891-987 | as the function `TcpEndpoint.Acknowledge` |
| PseudoTcps.PseudoTcp.DuplicateAck | extra/pseudo_tcp/pseudo_tcp.cpp:961-986 | as the function `TcpEndpoint.DuplicateAck` |
| PseudoTcps.PseudoTcp.AfterAck | extra/pseudo_tcp/pseudo_tcp.cpp:989-1006 | as the function `TcpEndpoint.AfterAck` |
| PseudoTcps.PseudoTcp.Arrive | extra/pseudo_tcp/pseudo_tcp.cpp:1033-1116 | as the function `TcpReceiver.Arrive`, in the circular buffer |
| PseudoTcps.PseudoTcp.Insert | extra/pseudo_tcp/pseudo_tcp.cpp:1094-1098 | the scan of the list of stretches inserts in order |
| PseudoTcps.PseudoTcp.Recover | extra/pseudo_tcp/pseudo_tcp.cpp:1101-1116 | the loop over the list of stretches computes `TcpReceiver.Recover` |
| PseudoTcps.PseudoTcp.Payload | extra/pseudo_tcp/pseudo_tcp.cpp:1008-1127 | as the function `TcpEndpoint.Payload` |
| PseudoTcps.PseudoTcp.Transmit | extra/pseudo_tcp/pseudo_tcp.cpp:1131-1199 | as the function `TcpSender.Transmit` |
| PseudoTcps.PseudoTcp.SendSegment | extra/pseudo_tcp/pseudo_tcp.cpp:1142-1176 | the loop over packet sizes computes `TcpSender.SendLoop` |
| PseudoTcps.PseudoTcp.LowerMss | extra/pseudo_tcp/pseudo_tcp.cpp:1162-1174 | the inner loop computes the fall-back |
| PseudoTcps.PseudoTcp.AttemptSend | extra/pseudo_tcp/pseudo_tcp.cpp:1201-1286 | the loop computes `TcpSender.AttemptLoop` after the idle restart |
| PseudoTcps.PseudoTcp.Available | extra/pseudo_tcp/pseudo_tcp.cpp:1213-1235 | as the function `TcpSender.Available` |
| PseudoTcps.PseudoTcp.FirstUnsent | extra/pseudo_tcp/pseudo_tcp.cpp:1264-1268 | the scan finds the first unsent segment |
| PseudoTcps.PseudoTcp.Closedown | extra/pseudo_tcp/pseudo_tcp.cpp:1288-1295 | as the function `TcpEndpoint.Closedown` |
| PseudoTcps.PseudoTcp.AdjustMtu | extra/pseudo_tcp/pseudo_tcp.cpp:1297-1311 | the loop over the table computes `TcpEndpoint.AdjustMtu` |
| PseudoTcps.PseudoTcp.QueueConnectMessage | extra/pseudo_tcp/pseudo_tcp.cpp:1328-1341 | as the function `TcpEndpoint.QueueConnectMessage` |
| PseudoTcps.PseudoTcp.ReadOptions | extra/pseudo_tcp/pseudo_tcp.cpp:1343-1410 | the loop over the options computes `TcpEndpoint.ParseOptions` and applies the scale |
| PseudoTcps.PseudoTcp.ApplyOptions | extra/pseudo_tcp/pseudo_tcp.cpp:1343-1388 | as the function `TcpEndpoint.ApplyOptions` |
| PseudoTcps.PseudoTcp.ResizeReceiveBuffer | extra/pseudo_tcp/pseudo_tcp.cpp:1421-1444 | as the function `TcpEndpoint.ResizeReceiveBuffer` |
| PseudoTcps.PseudoTcp.ScaleDown | extra/pseudo_tcp/pseudo_tcp.cpp:1426-1429 | the loop computes `TcpReceiver.ScaledSize` |
| PseudoTcps.PseudoTcp.Retransmit | extra/pseudo_tcp/pseudo_tcp.cpp:489-492 | as the function `TcpEndpoint.Retransmit` |
| PseudoTcps.PseudoTcp.BackOff | extra/pseudo_tcp/pseudo_tcp.cpp:494-502 | as the function `TcpEndpoint.BackOff` |
| PseudoTcps.PseudoTcp.Probe | extra/pseudo_tcp/pseudo_tcp.cpp:507-519 | as the function `TcpEndpoint.Probe` |
| PseudoTcps.PseudoTcp.AckOnTime | extra/pseudo_tcp/pseudo_tcp.cpp:522-524 | as the function `TcpEndpoint.AckOnTime` |
| MessageFraming.FramingRoundTrip | extra/pseudo_tcp/pseudo_tcp_message.cpp:203-217 | for every message up to 0x7fffffff bytes, whatever follows and however it is cut: it is complete exactly when the whole chunk has arrived, and then it is the message |
| MessageFraming.PrefixYieldsMessage | extra/pseudo_tcp/pseudo_tcp_message.cpp:213-223 | completeness and surplus, decided on the bytes so far, for a stream that begins with a chunk |
| MessageFraming.LowestByteFirst | extra/pseudo_tcp/pseudo_tcp_message.cpp:302-316 | the length in front of a message has its lowest byte first |
| MessageFraming.MessageReader.Append | extra/pseudo_tcp/pseudo_tcp_message.cpp:139-151 | header array and data take a piece of any size |
| MessageFraming.MessageReader.IsReadComplete | extra/pseudo_tcp/pseudo_tcp_message.cpp:213-217 | as `ReadComplete` of the bytes so far, with 32-bit addition |
| MessageFraming.MessageReader.IsReadCompleteOver | extra/pseudo_tcp/pseudo_tcp_message.cpp:219-223 | as `ReadCompleteOver` of the bytes so far |
| MessageFraming.MessageReader.GetReceivedData | extra/pseudo_tcp/pseudo_tcp_message.cpp:203-211 | the bytes behind the header, as many as it says and are there |
| MessageFraming.MessageReader.OnReadable | extra/pseudo_tcp/pseudo_tcp_message.cpp:127-157 | reads pieces up to the first that completes the message, not further |
| MessageTransport.MessageArrivesIntact | extra/pseudo_tcp/pseudo_tcp_message.cpp:139-155 | over any run of the transport, whatever the network does, and in both directions: the receiver gets the message that was sent or none yet |
| MessageTheorems.ResponseRunsAtMostOnce | extra/pseudo_tcp/pseudo_tcp_message.cpp:331-360 | over every interleaving the callback of a connection runs at most once; the connection ends exactly when it has run or the user ended it; an answer is complete and comes after the whole request was written |
| MessageTheorems.LeavesTheMapOnlyWhenEnded | extra/pseudo_tcp/pseudo_tcp_message.cpp:531-553 | while conversation numbers do not repeat, a connection leaves the map only after its callback has run or the user has ended it |
| MessageTheorems.RepeatedNumberPushesOut | extra/pseudo_tcp/pseudo_tcp_message.cpp:505-508 | for any number of messages above 2^32 there is a run in which a connection is pushed out of the map unanswered |
| MessageTheorems.TimeoutEnds | extra/pseudo_tcp/pseudo_tcp_message.cpp:535-539 | the first clock after its time-out ends a connection, answers it unless the user ended it, and takes it out of the map |
| MessageTheorems.AnswerIsDelivered | extra/pseudo_tcp/pseudo_tcp_message.cpp:331-360 | over every interleaving, whichever comes last: a connection of a living object that has written its request and holds the chunk of `msg` has ended and answered once, with `msg`, unless it had failed or the user had ended it |
| MessageTheorems.FailureIsAnswered | extra/pseudo_tcp/pseudo_tcp_message.cpp:331-360 | over every interleaving: a connection that has failed has ended, and without an answer or an ending by the user it has answered null |
| MessageTheorems.GivenUpIsAnswered | extra/pseudo_tcp/pseudo_tcp_message.cpp:535-545 | the clock ends a connection whose transport gives up, answers it unless the user ended it, and takes it out of the map |
| MessageTheorems.EndedLeaveTheMap | extra/pseudo_tcp/pseudo_tcp_message.cpp:549-553 | after the clock has been served only connections that have neither answered nor been ended are in the map, each under its number |
| MessageTheorems.ClockLeavesOthers | extra/pseudo_tcp/pseudo_tcp_message.cpp:531-553 | the clock changes no connection within its time-out whose transport goes on |
| MessageTheorems.ConnectionsServeRequests | extra/pseudo_tcp/pseudo_tcp_message.cpp:318-371 | over every interleaving the connections are those of the requests in their order, with their chunks, the clocks of their making and the time-outs asked for, or else the object's |
| MessageTheorems.OrphanIsAnswered | extra/pseudo_tcp/pseudo_tcp_message.cpp:335-340 | a connection that outlives the object answers null when it fails or its request or answer becomes complete |
| PseudoTcpMessages.PseudoTcpMessage.OnUpdate | extra/pseudo_tcp/pseudo_tcp_message.cpp:331-360 | as the function `MessageSending.Updated` |
| PseudoTcpMessages.PseudoTcpMessage.OnTcpReadable | extra/pseudo_tcp/pseudo_tcp_message.cpp:127-157 | one piece: as the function `MessageSending.Read` |
| PseudoTcpMessages.PseudoTcpMessage.OnTcpWriteable | extra/pseudo_tcp/pseudo_tcp_message.cpp:159-183 | one write: as the function `MessageSending.Wrote` |
| PseudoTcpMessages.PseudoTcpMessage.OnTcpClosed | extra/pseudo_tcp/pseudo_tcp_message.cpp:185-189 | as the function `MessageSending.Failed` |
| PseudoTcpMessages.PseudoTcpMessage.SendMessageChunk | extra/pseudo_tcp/pseudo_tcp_message.cpp:318-371 | a null chunk calls back at once; another makes a connection under the next number |
| PseudoTcpMessages.PseudoTcpMessage.SendMessage | extra/pseudo_tcp/pseudo_tcp_message.cpp:373-382 | too long a message calls back at once |
| PseudoTcpMessages.PseudoTcpMessage.EndConnection | extra/pseudo_tcp/pseudo_tcp_message.cpp:384-390 | as the function `MessageSending.UserEnds` |
| PseudoTcpMessages.PseudoTcpMessage.Process | extra/pseudo_tcp/pseudo_tcp_message.cpp:529-554 | the loop over the map computes `MessageSending.Tick` |
| PseudoTcpMessages.PseudoTcpMessage.EndSendingConnection | extra/pseudo_tcp/pseudo_tcp_message.cpp:595-600 | the connection ends and its number is queued |
| EncryptedHeader.PasswordRotation | extra/file_encrypt/chacha.cpp:132-220 | after any calls of `changePassword` by whoever knows the current password, the latest one opens the header exactly for limits that cover the bit count, with the first key and IV |
| EncryptedHeader.OpensExactly | extra/file_encrypt/chacha.cpp:74-111 | a new header opens with a password exactly when the limit covers the bit count and the password derives the same check pattern as the right one, with the salt and the iteration count of its random bytes |
| EncryptedHeader.OpensExactlyAfterChanges | extra/file_encrypt/chacha.cpp:201-220 | the same for the latest password after any calls of `changePassword` by whoever knows the current one |
| EncryptedHeader.GeneratedOpens | extra/file_encrypt/chacha.cpp:132-158 | a new header holds the clamped bit count and matches its password |
| EncryptedHeader.BitsAsAsked | extra/file_encrypt/chacha.cpp:136-148 | a new header holds the bit count asked for, or the nearest one from 11 to 26, and 13 when none is |
| EncryptedHeader.GeneratedKey | extra/file_encrypt/chacha.cpp:159-168 | the key handed to the cipher is the one that opening yields |
| EncryptedHeader.GeneratedLayout | extra/file_encrypt/chacha.cpp:132-158 | a new header byte for byte: the random bytes, but for the packed and masked code and the check pattern of the password |
| EncryptedHeader.KeyOfHeader | extra/file_encrypt/chacha.cpp:97-111 | the data key from the bytes of any header: the pattern at its end laid over what the password derives from the main salt and code |
| EncryptedHeader.ChangeKeepsKey | extra/file_encrypt/chacha.cpp:201-220 | the new password gives the key that the old one gave; salts, codes and IV stay |
| EncryptedHeader.ChangeKeepsKeyExactly | extra/file_encrypt/chacha.cpp:201-220 | success with another password than the current one keeps the data key exactly when both derive the same main key |
| EncryptedHeader.CodeDecodes | extra/file_encrypt/chacha.cpp:56-72 | the bit count packed into the masked check code is the one unpacked |
| EncryptedHeader.CodeComesBack | extra/file_encrypt/chacha.cpp:150-155 | unmasking the stored check code gives the code |
| EncryptedHeader.PackedBits | extra/file_encrypt/chacha.cpp:56-66 | packing the bit count keeps the lower 28 bits of the code |
| EncryptedHeader.IterationHasLength | extra/file_encrypt/chacha.cpp:50-54 | an iteration count has its top bit at the bit length, the code's bits below and none above |
| EncryptedHeader.TopBits | extra/file_encrypt/chacha.cpp:50-54 | the top bit of an iteration count for 11, 13, 20 and 26 bits |
| EncryptedHeader.LittleEndian | extra/file_encrypt/chacha.cpp:79 | numbers in the header have their least byte first |
| EncryptedHeader.ChaChaFileEncryption.GenerateHeader | extra/file_encrypt/chacha.cpp:132-169 | the header and the cipher's key and IV |
| EncryptedHeader.ChaChaFileEncryption.GetEncryptionKey | extra/file_encrypt/chacha.cpp:97-112 | succeeds exactly for a matching password within the limit, with the data key |
| EncryptedHeader.ChaChaFileEncryption.Open | extra/file_encrypt/chacha.cpp:176-189 | as above with the default limit; a failure changes nothing |
| EncryptedHeader.ChaChaFileEncryption.ChangePassword | extra/file_encrypt/chacha.cpp:201-220 | a success re-keys the header, a failure leaves it alone |
| MenuCompiler.GeneratorAgreesWithSimulator | src/sapp/sapp_document_menu.cpp.h:338-482 | for every menu the parser accepts whose references exist, and each of the three platforms: the generated source passes the preprocessor exactly unless an item on that platform has one below it that names no platform, and then builds exactly the simulator's menu |
| MenuCompiler.SimulatorShowsExactly | src/sapp/sapp_document_menu.cpp.h:564-614 | on each platform the simulator shows exactly the items that exist there, in their order and nesting, with their labels and the key of that platform; it fails exactly when one of them has a reference to what does not exist |
| MenuCompiler.ConditionsExistExactly | src/sapp/sapp_document_menu.cpp.h:354-377 | the generated source passes the preprocessor on all platforms exactly when every item names one |
| MenuCompiler.NestedExclusionsFail | src/sapp/sapp_document_menu.cpp.h:127-154 | an item that excludes Linux below one that excludes Windows below one that excludes the Mac is accepted and breaks the generated source on Linux |
| MenuCompiler.GuardsResolve | src/sapp/sapp_document_menu.cpp.h:340-378 | the guards around an item leave its definitions exactly on its platforms, and fail exactly where an item below names no platform |
| MenuCompiler.AllFlatBuild | src/sapp/sapp_document_menu.cpp.h:380-424 | definitions that name their parents rebuild the nesting, as submenu names are distinct |
| MenuCompiler.SuccessLooksAtTheTopOnly | src/sapp/sapp_document_menu.cpp.h:416-422 | the generator reports success exactly when the labels of the outermost items exist |
| MenuCompiler.NestedFailureGoesUnnoticed | src/sapp/sapp_document_menu.cpp.h:416-422 | a missing title in a submenu fails the simulator, while the generator succeeds without the item |
| Menus.ParsedIsFlagged | src/sapp/sapp_document_menu.cpp.h:127-154 | every parsed item has flags, all of them its parent's; they may name no platform |
| Menus.PlatformsAsTheTextSays | src/sapp/sapp_document_menu.cpp.h:127-154 | for every attribute text: an empty one keeps the parent's platforms, `no-x` takes exactly x away, and any other names exactly those of the parent's platforms whose names occur in it |
| Menus.AllParsedMirror | src/sapp/sapp_document_menu.cpp.h:86-263 | an accepted menu has the elements' kinds, names, labels and keys, in their order and nesting, each with the platforms that its text says |
| Menus.AllAcceptExactly | src/sapp/sapp_document_menu.cpp.h:86-263 | a menu is accepted exactly when every element has a known tag, a legal name, some flag left and well-formed attributes, and the names on each platform are all different |
| Menus.FlagsAreWords | src/sapp/sapp_resources.h:173-182 | the flags are the source's 16-bit words: same constants, and the set operations are its bit operations |
| Menus.ParsedNames | src/sapp/sapp_document_menu.cpp.h:156-187 | on each platform submenus get names of their own, none of them `root` |
| MenuObjects.MenuParser.ParseItem | src/sapp/sapp_document_menu.cpp.h:86-263 | as the function `Menus.ParseItem`, the names put into the maps |
| MenuObjects.MenuParser.Register | src/sapp/sapp_document_menu.cpp.h:156-187 | a name is taken on its platforms unless in use on one of them |
| MenuObjects.MenuGenerator.GenerateItem | src/sapp/sapp_document_menu.cpp.h:338-484 | appends what the function `MenuCompiler.Generate` says |
| MenuObjects.MenuGenerator.GenerateMenu | src/sapp/sapp_document_menu.cpp.h:305-314 | stops at the first outermost failure |
| LayoutStyles.InheritanceIsAcyclic | src/sapp/sapp_document_layout.cpp.h:26-81 | any definitions, overrides and failures included, leave every style inheriting from older ones only |
| LayoutStyles.LookupFindsNearest | src/sapp/sapp_document_layout.cpp.h:1069-1091 | a look-up finds the first known of: namespace/theme:name, namespace/name, theme:name, name; where namespace or theme are given |
| LayoutStyles.DefinesExactly | src/sapp/sapp_document_layout.cpp.h:26-81 | a definition succeeds exactly when it has a name, which is new or overrides, and every inherited name is known; it adds one style with the nearest styles of those names and enters it under its name |
| LayoutStyles.LatestWins | src/sapp/sapp_document_layout.cpp.h:60-81 | after any definitions each name means the latest style that was defined under it |
| LayoutStyles.SearchFindsLast | src/sapp/sapp_resources.cpp.h:294-311 | the search yields the value of the last inherited style that has one, and nothing exactly when none has |
| LayoutStyles.OwnComesFirst | src/sapp/sapp_resources.cpp.h:294-311 | an element's own attribute comes before those of all its styles |
| LayoutStyles.EventsAgreeWithAttributes | src/sapp/sapp_resources.cpp.h:294-336 | for every event the map filled forward has what the search backward finds |
| LayoutStyles.MappingAgrees | src/sapp/sapp_resources.cpp.h:313-331 | the same for an element over any map filled before |
| LayoutStyles.StyleTable.ParseStyle | src/sapp/sapp_document_layout.cpp.h:26-81 | as the function `LayoutStyles.ParseLayoutStyle`; a failure changes nothing |
| LayoutStyles.EventMap.GetEventMapping | src/sapp/sapp_resources.cpp.h:313-331 | fills the map as the function `LayoutStyles.EventMapping` |
| TablePlacement.AnchorsAreFree | src/sapp/sapp_document_layout.cpp.h:3884-3905 | no anchor on a slot that an earlier cell covers, anchors in a row increase, the columns suffice for every span |
| TablePlacement.CellsAreElements | src/sapp/sapp_document_layout.cpp.h:3844-3899 | the cells are the elements, row by row and in order, each in its row and with the spans it asks for, those below 1 counting as 1 |
| TablePlacement.ColumnsAreNeeded | src/sapp/sapp_document_layout.cpp.h:3900-3914 | the table has as many columns as were given, or as its spans need |
| TablePlacement.OverlapExactly | src/sapp/sapp_document_layout.cpp.h:3884-3899 | two cells overlap, that is share a slot, exactly when a column span runs into a slot of an earlier cell from above |
| TablePlacement.OverlapForeseen | src/sapp/sapp_document_layout.cpp.h:3884-3899 | before a cell is placed: it will overlap an earlier one exactly when a slot of its column span beside the free anchor is allocated |
| TablePlacement.OneKindOfSpanNeverOverlaps | src/sapp/sapp_document_layout.cpp.h:3876-3899 | without column spans, or without row spans, cells are disjoint |
| TablePlacement.BothKindsCanOverlap | src/sapp/sapp_document_layout.cpp.h:3884-3899 | a table of three cells in which two overlap |
| TablePlacement.TableLayout.Place | src/sapp/sapp_document_layout.cpp.h:3884-3905 | the search, the growth of the columns and the allocation of one cell |
| TablePlacement.TableLayout.PlaceAll | src/sapp/sapp_document_layout.cpp.h:3844-3914 | the loops over rows and cells compute `TablePlacement.PlaceRows` |

## Left out

- Sequence numbers are not wrapped: the source compares them as plain numbers, so a direction carries less than 2^32
  bytes. Buffer sizes are below 2^32.
- Notifications to the user (opened, readable, writeable, closed) are recorded as events; a call that the user makes from
  inside one is a step of its own.
- Each call reads the clock once; the source reads it again within a call.
- Data that arrives after `close` is discarded by the source; what is claimed of received bytes is claimed until then.
- TcpTheorems.EndToEnd: both ends support window scaling, and buffer sizes are set before the first packet; ends that do
  not scale are a facility for the source's own tests (`disableWindowScale`).
- TcpEndpoint.NotifyMtu: an MTU leaves at least one byte of payload; smaller ones make the source subtract below zero.
- TcpTheorems.FlowControl: between two endpoints an MTU leaves at least four bytes of payload, the length of the connect
  message; smaller ones cut that message (`ConnectMessageIsCut`).
- PseudoTcps.PseudoTcp.constructor: buffers hold at least four bytes, so that the connect message fits; the source
  asserts it when queueing.
- FifoBuffers.FifoBuffer.constructor: the array starts with zeros, where the source leaves it as allocated.
- PseudoTcps.PseudoTcp.Process: a failed assertion of the source (recovered bytes or a shrunk buffer that do not fit) is
  a flag `halted`, after which packets and calls are ignored; it is never set between two endpoints.
- A packet whose write the network refuses is not on the network.
- Keep-alive code (compiled out), logging, locks, and getters are not modelled.
- TcpProgress.SmoothedLiesWithinSamples: the estimator computes in unbounded numbers; with samples of up to half a billion
  milliseconds the source's 32-bit sums do not overflow.
- PseudoTcpMessages.PseudoTcpMessage.Process: connections are values in a sequence rather than objects, the order of the
  map's nodes and the connections whose transport gives up are parameters, and the transport inside a connection is
  reduced to what it reports.
- MessageFraming.MessageReader.GetReceivedData: null and empty memory are told apart only where the source does; what
  `Memory::sub` returns for no bytes is taken as empty.
- The listening side of the message layer (promises for answers), threads, events and the packet queue.
- The bytes of ChaCha20 encryption and the default password of the encryption object.
- MenuObjects.MenuGenerator.GenerateItem: the text of a definition is its content (parent, name, label references, keys),
  and the declarations in the generated header file are left out; the checked state of items, which the simulator
  ignores, too.
- Menus.ParseItem: parsing of titles, icons and shortcut keys is one flag.
- LayoutStyles.StyleTable.ParseStyle: attribute texts come trimmed and split at commas; each attribute occurs once in an
  element.
- TablePlacement.TableLayout.PlaceAll: views, names and sizes of rows and columns; row and column counts stay below 2^32.
- The rest of sapp, `extra/packet_analyzer` and `extra/dbip`: plumbing and easy range look-ups.
