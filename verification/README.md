# A verified model of go-udx

go-udx is a QUIC-style reliable transport over UDP. This project models its core in Dafny
and proves what the parts guarantee together: acknowledgement and loss recovery, stream
re-assembly, stream flow control, and the path-MTU search, the pacer and the wire format
they rest on.

Every component of the source that updates its fields in place is a class here, with the
source's fields and one method per operation. Beside each class stands a value of the same
fields (a datatype) and one function per operation; the methods are proved to take exactly
the step the function describes. Theorems about whole histories are lemmas about those
functions. Every method that takes a lock in the source is one atomic step.

## The parts

| file | what it holds |
|---|---|
| Frames.dfy | frames and constants |
| PacketManager.dfy | sequence numbers, matching ACKs to packets, loss detection |
| AckTracker.dfy, Receiving.dfy | the receiver's ring of arrivals, the ACKs printed from it, and when they are sent |
| Congestion.dfy, Pacing.dfy, PathMtu.dfy | window, RTT and probe timer; token bucket; path-MTU search |
| FlowControl.dfy, Stream.dfy | stream limits; chunking and re-assembly |
| Reassembly.dfy | what the count of buffered bytes is worth |
| Connection.dfy, ConnectionClass.dfy | the sending half of a connection, as functions and as an object |
| Spans.dfy, Custody.dfy, Recovery.dfy | which packet answers for which bytes; what every step of recovery keeps |
| Runs.dfy, Unmoved.dfy, Stalling.dfy, Epochs.dfy | every run of the sending half; what its steps leave alone; when recovery can go quiet; congestion epochs |
| Outcomes.dfy | what an ACK and a probe timeout do in the connection's own fields |
| Admission.dfy | what goes out, in which order, and how it stays within window and pacer |
| FlowSystem.dfy | flow control between the two ends of a stream |
| EndToEnd.dfy | sender, receiver and a network that loses, repeats and reorders |
| StreamEnd.dfy, PathSafety.dfy | over those runs: the end of a stream; the size found for the path |
| Credit.dfy, Backstop.dfy | the same peers with flow control on every stream |
| Scenes.dfy, QuietRun.dfy, OvertakenFin.dfy | two runs event by event: recovery goes quiet, and a FIN overtakes its data |
| Codec.dfy | packets and frames as bytes |

## Main results

- **Nothing acknowledged is lost** (`EndToEnd.AcknowledgedIsHeld`). Over any losses, repeats
  and reorderings, when the sender counts a packet as acknowledged the receiving stream
  already holds all its bytes. No assumption on chunking is needed: a packet that is cut
  again is first dropped from tracking, so the byte ranges ever sent are nested or apart,
  and a record still in force was only ever sent whole.
- **The delivered bytes are a prefix of what was written** (`EndToEnd.DeliversAPrefix`), the
  longest one (`PrefixIsLongest`), the whole of it once nothing is outstanding
  (`AllDeliveredWhenIdle`), and EOF comes only after all of it (`EofMeansAll`).
- **Custody**: every byte handed over and not acknowledged is in exactly one packet, tracked
  or queued (`Runs.OnePacketPerByte`); a sequence number never stands for two datagrams
  (`Runs.SequenceNeverReused`).
- **The end of a stream**: the receiver knows of it exactly when some FIN arrived while the
  stream existed or opened it (`StreamEnd.FinSeenExactly`), and once nothing is outstanding a
  reader who has taken everything is told exactly then (`StreamEnd.EndExactlyWithFin`). It is
  not always told: in `OvertakenFin.EndGoesUnseen` a FIN overtakes the data, is acknowledged
  and dropped, and the sender is left with nothing to send again.
- **Bytes in flight are the bytes tracked** (`Runs.InflightConserved`), and **recovery never
  goes quiet** (`Runs.NeverQuiet`), as long as no probe timeout re-chunks a packet. That
  condition cannot be dropped: `QuietRun.GoesQuiet` is a run of two peers after which a FIN
  is outstanding and no timer is set, because re-chunking adds a header that is never booked.
  `Stalling.QuietAfterAck` and `Stalling.QuietAfterPto` say exactly which ACKs and timeouts
  do this, by what is tracked before them, and `Stalling.OthersStayAwake` that nothing else
  does. The loss timer counts: with honest ACKs whatever is tracked at or below the largest
  acknowledged always has it (`Runs.LossTimerWaits`).
- **One contraction per round trip** (`Epochs.OneContractionPerRoundTrip`): between two
  contractions of the window, absent persistent congestion, an ACK newly acknowledged a
  packet that had not been sent at the first; and nothing else shrinks the window
  (`Epochs.ShrinksOnlyOnLoss`).
- **Within the window** (`Admission.FlightBounded`): in every run of two peers whose writers take
  the window's room as their grant, the bytes in flight never exceed the largest window so far
  by more than the headers of one batch and of the closes. Every other step fills at most the
  window (`Admission.StepWithinWindow`). The queue of lost packets goes out oldest first
  (`Admission.OldestFirst`), is charged to the pacer byte by byte, and stops only for a full
  window or until the first moment the pacer's budget holds a datagram
  (`Admission.QueueAdmitted`).
- **The window and the RTT in their own terms**: the RTT is measured from the packet the frame
  names as its largest and from no other (`Outcomes.RttFromTheLargest`); slow start doubles the
  window in a window's worth of ACKs and congestion avoidance adds a datagram
  (`Congestion.SlowStartAdds`, `Congestion.AvoidanceAddsADatagram`); no slow start follows a
  loss (`Congestion.NoSlowStartAfterLoss`); the pacing rate always fits window and RTT
  (`Congestion.AlwaysPacedToTheWindow`).
- **Flow control** between two whole peers (`Credit.FlowSafety`): over every stream, any
  losses and any re-cutting of packets, what is written stays within the sender's limit, that
  within what the receiver advertised, and that within what it will hold; half a window of
  credit is always on offer, and limits sent modulo 2^32 are rebuilt exactly. As long as no
  packet is re-cut the receiver's backstop is never hit and its count of buffered bytes is
  right (`Credit.NeverHit`). For one stream `FlowSystem` adds complete re-assembly and the
  repair of lost updates.
- **When the buffer's count is right**: after any series of frames and reads, if and only if no
  frame met a chunk already held (`Reassembly.CountRightExactly`). Once wrong it never recovers
  (`Reassembly.SpoiltForever`), and `Reassembly.CountDrifts` shows it for any packet re-cut
  anywhere.
- **The path's size** (`PathSafety.NeverAboveTheCarried`): in every run, if no datagram larger
  than P arrives, streams are never given a size above P, late ACKs for old probes included.
- **Codec**: a packet survives the wire if and only if it fits it (`Codec.PacketRoundTrip`), and
  encoding what was read gives back the bytes it was read from (`Codec.FrameReencodes`,
  `Codec.AcceptsExactly`).

## Where the source's own comments differ from its code

The model follows the code. stream.go:445-455 says data arrives at `DeliverData` already in
order; it is placed by offset. congestion.go:375-380 says lost bytes stay in flight;
`OnPacketLost` takes them out and the re-send books them again. ack_tracker.go:43-47 says a
duplicate is not out of order; one older than the history is reported as such.

## Model

| member | source | states |
|---|---|---|
| Packets.TakeAllIsExact | packet_manager.go:148-176 | An ACK takes out of tracking exactly the packets whose sequences it names, returns each of those marked, and touches nothing else |
| Packets.TakeAllDistinct | packet_manager.go:152-176 | No packet is returned twice by one ACK, whatever its ranges |
| Packets.LossDelay | packet_manager.go:368-379 | Nine eighths of the larger RTT estimate, rounded down, and never below the timer granularity |
| Packets.DetectLeavesOnlyYoung | packet_manager.go:211-248 | After detection whatever is tracked at or below the largest acknowledged is under three behind it and younger than the loss delay; the loss timer is armed exactly when there is such a packet |
| Packets.DetectReturnsTheLost | packet_manager.go:211-248 | What detection returns is exactly what it took out of tracking, in ascending sequence order, and each is three or more behind the largest acknowledged, or below it and as old as the loss delay |
| Packets.LossTimerTime | packet_manager.go:211-248 | The loss timer is set for when the first packet it watches becomes old enough, a granularity away at the least |
| Packets.OldestAreLowest | packet_manager.go:323-341 | As many data packets as asked for or as there are, ascending, and every other tracked data packet above them all |
| Packets.PacketManager.constructor | packet_manager.go:94-103 | Starts with nothing sent, tracked or acknowledged |
| Packets.PacketManager.NextSequence | packet_manager.go:106-112 | Hands out the next sequence and moves past it |
| Packets.PacketManager.SendPacket | packet_manager.go:129-139 | The packet is tracked under its own sequence, with its send time |
| Packets.PacketManager.TakeDown | packet_manager.go:153-164 | The loop over one range takes the same packets, in the same order, as the list of sequences it stands for in 32-bit arithmetic |
| Packets.PacketManager.TakeRanges | packet_manager.go:166-176 | The loop over the further ranges takes what the expansion of all ranges names |
| Packets.PacketManager.HandleAckFrame | packet_manager.go:148-186 | The whole ACK step: packets taken, ACK times shifted and the largest raised only if something was newly acknowledged |
| Packets.PacketManager.CollectLost | packet_manager.go:220-238 | The scan over the map, in any order, collects each lost packet once and finds the earliest time at which a waiting one will be |
| Packets.SortBySequence | packet_manager.go:239 | The sorted list is the packets under the given keys in ascending sequence |
| Packets.PacketManager.DetectLostPackets | packet_manager.go:211-248 | Loss detection: lost packets removed and returned in order, loss timer set for the first that still waits |
| Packets.PacketManager.ResendPacket | packet_manager.go:295-318 | A packet neither acknowledged nor a probe leaves its old sequence, if it is there under it, and is tracked under a fresh one; otherwise nothing changes |
| Packets.PacketManager.DropPacket | packet_manager.go:345-351 | Only this very record is forgotten, not another under the same sequence |
| Packets.PacketManager.OldestUnacked | packet_manager.go:323-341 | At most n, and a tracked data packet that is not among them has n others below it |
| AckTracker.RecvTracker.constructor | ack_tracker.go:19-23 | Nothing has arrived |
| AckTracker.RecvTracker.Has | ack_tracker.go:25-31 | True exactly for a sequence that was ever added and is less than 512 below the largest |
| AckTracker.RecvTracker.ClearBetween | ack_tracker.go:57-66 | Slots reused for sequences between the old largest and the new one read as missing |
| AckTracker.RecvTracker.Add | ack_tracker.go:48-82 | The ring refines the set of all arrivals; out of order exactly for a late sequence not in the history or a jump that leaves a hole |
| AckTracker.ExactOneMore | ack_tracker.go:124-134 | Appending the next run below a gap keeps the frame exact from its lowest sequence up |
| AckTracker.RecvTracker.NextRange | ack_tracker.go:124-134 | The next range is a gap of missing and a run of received sequences; there is none only at the end of the history or below a gap of 255 |
| AckTracker.RecvTracker.Frame | ack_tracker.go:87-136 | Read back by the sender, the frame names exactly the arrivals from its lowest sequence up to the largest; it reaches the whole history unless five ranges were printed or more than 255 in a row are missing |
| Receiving.AckScheduler.constructor | connection.go:127-185 | Nothing is owed an ACK |
| Receiving.AckScheduler.Record | connection.go:702-722 | The arrival is recorded, out of order exactly as the tracker says, and the time kept is always that at which the largest sequence first came |
| Receiving.AckScheduler.NoteReceived | connection.go:702-753 | Acknowledged at once exactly when out of order, at a stream's edge or the second one owed, by an exact frame that says how long the largest has waited; otherwise a timer is set for a quarter of the RTT, between one and twenty-five milliseconds. Nothing is ever owed an ACK without a timer |
| Receiving.AckScheduler.TimerFired | connection.go:756-766 | Whatever is owed is acknowledged, exactly and as far down as the history goes, with the time the largest has waited |
| Receiving.AckScheduler.TakeAck | connection.go:770-786 | The ACK is exact for all arrivals, its delay is the whole milliseconds since the largest arrived, as many as 16 bits hold, and nothing is owed after it |
| Pacing.WaitIsExact | pacing.go:90-106 | Waiting what the pacer asks makes the next send admissible, and no shorter wait above the minimum delay does |
| Pacing.SpentFromBudget | pacing.go:76-119 | A series of sends takes at most what the bucket held plus the refill, less what is left |
| Pacing.NeverAboveTheRate | pacing.go:64-119 | At a constant rate, over any interval of sends each admitted by the pacer, the bytes sent are at most one burst plus rate times time |
| Pacing.WorthOfARoundTrip | pacing.go:48-61 | One round trip at the rate carries twice the window in slow start and five quarters of it otherwise |
| Pacing.MaxBurst | pacing.go:64-72 | Ten datagrams or a millisecond at the rate, the larger |
| Pacing.SendDraws | pacing.go:109-119 | A paced send takes exactly its size out of the budget; an unpaced one leaves no trace |
| Pacing.BudgetCapped | pacing.go:76-85 | The budget never exceeds one burst |
| Pacing.LeavesSomething | pacing.go:109-119 | A send the pacer admits does not overdraw the bucket |
| Pacing.PacingController.SetRate | pacing.go:48-61 | The rate from window, RTT and slow start; unpaced when there is no RTT |
| Pacing.PacingController.Wait | pacing.go:90-106 | No wait exactly when unpaced or the budget holds a datagram; otherwise the least wait, of the minimum delay or more, from which on it does |
| Pacing.PacingController.Draw | pacing.go:109-119 | A sent packet is drawn from the budget |
| PathMtu.StepKeepsSearchOk | pmtud.go:88-193 | Every event keeps the search well-formed: size within the path, probe strictly between validated and ruled out, no probe in flight once done |
| PathMtu.NeverAboveThePath | pmtud.go:54-193 | In every series of events where only sizes the path carries are acknowledged, streams are never given a larger size |
| PathSafety.NeverAboveTheCarried | pmtud.go:105-117 | In every run of two peers in which no datagram larger than a given size arrives, streams are never given a larger size, late ACKs for probes after a fall back included |
| PathMtu.OutcomeUsesOne | pmtud.go:105-147 | Every probe outcome lowers a measure on the span left and the tries |
| PathMtu.EndsWithinEighteen | pmtud.go:88-147 | However its probes turn out, acknowledged or lost, a search from the start is over after at most eighteen outcomes |
| PathMtu.SettlesWithinAStep | pmtud.go:88-147 | On a path that loses exactly the larger sizes the search settles less than one step below the true size |
| PathMtu.AsksWhenDue | pmtud.go:88-102 | Nothing is probed before the retry is due, then the search restarts from the top; otherwise the size under test is probed once until its outcome is in |
| PathMtu.ThirdLossRulesOut | pmtud.go:105-137 | A size is ruled out by its third loss in a row and no earlier one; an acknowledged one becomes the size in use |
| PathMtu.GivesUpOnTheThird | pmtud.go:151-193 | Over any series of data packets acknowledged and lost, the path is given up exactly when three large ones are lost with no large one acknowledged between |
| PathMtu.RetryInAMinute | pmtud.go:177-193 | Giving up sets the retry sixty seconds from the loss that did it |
| PathMtu.MTUDiscovery.constructor | pmtud.go:54-58 | The base size, probing the largest first |
| PathMtu.MTUDiscovery.ProbeNow | pmtud.go:88-102 | The size to probe now, or none; after a black hole the search restarts when the wait is over |
| PathMtu.MTUDiscovery.HandleProbeAcked | pmtud.go:105-117 | The search moves up, unless the path has shrunk since |
| PathMtu.MTUDiscovery.HandleProbeLost | pmtud.go:121-137 | The third loss rules the size out and moves the search down |
| PathMtu.MTUDiscovery.HandleDataAcked | pmtud.go:151-157 | A full-size packet clears the black-hole count |
| PathMtu.MTUDiscovery.HandleDataLost | pmtud.go:162-172 | Enough full-size losses in a row are a black hole |
| PathMtu.MTUDiscovery.FallBack | pmtud.go:177-193 | The size falls back to the base and the search waits |
| Congestion.StepKeepsFloor | congestion.go:199-466 | No step takes the window below the minimum, and only loss and persistent congestion shrink it: an ACK never does, for any CUBIC target |
| Congestion.WindowNeverBelowTheMinimum | congestion.go:199-466 | The window is at least the minimum in every run |
| Congestion.OneContractionPerEpoch | congestion.go:208-249 | For any calls on the controller and whatever last sequences they pass: absent persistent congestion, between two contractions an ACK went past the sequence passed at the first |
| Congestion.CubicWindow | congestion.go:305-327 | Congestion avoidance never shrinks the window |
| Congestion.AvoidanceBounds | congestion.go:305-327 | Below the Reno estimate, or with no growth asked for, at most a datagram for a window's worth of bytes; above it towards the target and not past it |
| Congestion.AckGrows | congestion.go:208-249 | Flight drops by the bytes; the epoch ends exactly when the newly acknowledged largest is past it; no growth in recovery or without that sample; below the threshold growth by the bytes, from it on congestion avoidance; the threshold stays |
| Congestion.AckSamplesRtt | congestion.go:208-249 | The RTT estimates are those the sample gives, and without one they stay |
| Congestion.LossContracts | congestion.go:333-412 | Outside recovery a loss takes the window to seven tenths, not below two datagrams, and leaves it at the threshold; in recovery only flight drops |
| Congestion.CollapseKeepsThreshold | congestion.go:348-356 | Persistent congestion leaves two datagrams, ends the epoch and keeps threshold, flight and RTT |
| Congestion.ProbeTimer | congestion.go:148-205 | The probe timer's time after a send, an ACK and a timeout, from the smoothed RTT, four variations and the peer's delay |
| Congestion.AlwaysPacedToTheWindow | congestion.go:255-264 | In every run, from the first sample on, the pacing rate carries twice the window in a smoothed RTT below the threshold and five quarters from it on; before it there is none |
| Congestion.SlowStartAdds | congestion.go:208-249 | Over any series of sampled ACKs below the threshold the window grows by exactly the bytes acknowledged |
| Congestion.AvoidanceAddsADatagram | congestion.go:208-327 | Over any series of ACKs for a window's worth of bytes, with CUBIC asking for no more than the window, it grows by at most one datagram |
| Congestion.NoSlowStartAfterLoss | congestion.go:385-412 | In every run, from a contraction until the window collapses, it is at or above the threshold |
| Congestion.RttSampleSound | congestion.go:269-302 | The first sample sets every estimate. A later one has at most 25 ms of the peer's delay taken off, unless that goes below the smallest RTT; it leaves seven eighths of the smoothed RTT's distance to it and moves the variation a quarter of the way |
| Congestion.NoSampleFromTheFuture | congestion.go:269-275 | A sample sent after now is not taken |
| Congestion.BacksOff | congestion.go:154-179 | Each probe timeout without an ACK doubles the wait, up to twenty times |
| Congestion.CongestionController.constructor | congestion.go:62-79 | The initial window and RTT, nothing in flight |
| Congestion.CongestionController.ArmPtoTimer | congestion.go:430-444 | The probe timer, measured from the last send |
| Congestion.CongestionController.BookSent | congestion.go:199-205 | Bytes enter flight and the probe timer is armed |
| Congestion.CongestionController.TakeRttSample | congestion.go:269-302 | The RTT estimates after a sample |
| Congestion.CongestionController.BookAcked | congestion.go:208-249 | Bytes leave flight, floored at zero; the window never shrinks, stays in recovery or without a sample, and grows by the bytes below the threshold; RTT, epoch and probe timer follow the step that AckGrows, AckSamplesRtt and ProbeTimer describe |
| Congestion.CongestionController.Contract | congestion.go:385-412 | The window contracts once per epoch, never below the minimum |
| Congestion.CongestionController.BookLost | congestion.go:333-342 | Lost bytes leave flight, then the window contracts |
| Congestion.CongestionController.Collapse | congestion.go:348-356 | Persistent congestion: the minimum window, and recovery over |
| Sending.CollapsesExactly | connection.go:1247-1252 | The window collapses, and recovery closes, exactly when an RTT is known, the loss spans three probe timeouts and nothing was acknowledged since the oldest of it went out; any other loss leaves recovery open and contracts the window at most once |
| Congestion.CongestionController.ExpirePto | congestion.go:449-453 | One more timeout without an ACK, and no timer |
| Congestion.CongestionController.RearmPto | congestion.go:459-465 | After the probe: wait again if anything is in flight |
| FlowControl.ReconstructExact | flow_control.go:103-112 | A limit survives its 32-bit field exactly when it is less than 2^31 from the limit held, with the tie at 2^31 decided by which half that is in |
| FlowControl.StreamFlowController.constructor | flow_control.go:165-171 | Both directions start from the same window |
| FlowControl.StreamFlowController.Available | flow_control.go:185-193 | What may still be sent under the peer's limit |
| FlowControl.StreamFlowController.BookSent | flow_control.go:203-208 | Bytes sent are counted, and the stream is blocked once the limit is used up |
| FlowControl.StreamFlowController.HandleWindowUpdate | flow_control.go:214-233 | The limit is rebuilt from its low 32 bits and never moves back; an advance re-checks whether the stream is blocked |
| FlowControl.StreamFlowController.BookReceived | flow_control.go:246-250 | Bytes received are counted and nothing is advertised |
| FlowControl.StreamFlowController.BookConsumed | flow_control.go:261-267 | An update is due exactly when the peer's credit is under half a window |
| FlowControl.AdvertiseDoubles | flow_control.go:276-309 | The window doubles up to the cap; no offer is taken back; each is the window beyond what was consumed |
| FlowControl.WindowAfterUpdates | flow_control.go:276-309 | After any number of updates the window is the initial one doubled that often, up to the cap, which six reach |
| FlowControl.StreamFlowController.Advertise | flow_control.go:276-309 | The window doubles up to the cap and the limit moves with consumption |
| FlowControl.StreamFlowController.Refresh | flow_control.go:294-309 | The limit is advertised again without growing the window |
| Streams.ChunksCut | connection.go:850-866 | Chunking loses, repeats and moves no byte: consecutive slices from offset to end, every frame but the last full, SYN only on the first, FIN only on the last |
| Streams.Cut | connection.go:1161-1181 | The cutting loop yields exactly those chunks |
| Streams.Batch | stream.go:257-327 | One pass of a write takes no more than the peer's limit, sixteen chunks, and the window's room or one chunk; whole chunks short of the end; and no less than all of those allow, to the chunk |
| Streams.BatchSize | stream.go:257-327 | The loop-free computation takes that size: no more than the room or one chunk, and nothing held back |
| Streams.DeliverFaithful | stream.go:456-547 | Delivering any frame of the peer's stream, in any order and cut anywhere, keeps what was read and buffered a prefix of it |
| Streams.ReadExact | stream.go:110-154 | A read gives the buffer's first bytes, all or as many as asked for, none only if none were asked for; the limit is advertised exactly when under half a window is left; an empty buffer gives end, reset or wait and changes nothing |
| Streams.HalvesClose | stream.go:364-578 | The two halves close in either order and the stream with the second; closed and reset are final |
| Streams.BackstopExactly | stream.go:485-547 | A chunk ahead is held unless its place is taken; the backstop trips exactly when it would bring what is held over the cap, and resets the stream |
| Streams.ReadFaithful | stream.go:110-154 | Reading hands over the next bytes of the stream and no others |
| Streams.DeliverAccounts | stream.go:456-547 | For any frame: held bytes are counted exactly and within the cap, bytes received are delivered plus held, bytes delivered are consumed plus buffered, until the backstop is hit |
| Streams.ReadAccounts | stream.go:136-144 | Reading keeps the counters exact |
| Streams.DeliverFinExact | stream.go:556-578 | Finished exactly when the FIN was seen and everything below the final size delivered, in any order of arrival; the closed phases imply it, and only the backstop resets |
| Streams.PlaceKeeps | stream.go:485-547 | A frame nested in or apart from the held chunks never costs a byte that was held, and leaves none waiting at the delivered offset |
| Streams.PlaceDelivers | stream.go:485-547 | After a frame is placed all its bytes are held, unless its slot was taken by a shorter one or the backstop was hit |
| Streams.Stream.constructor | stream.go:95-106 | An empty stream |
| Streams.Stream.ReleaseContiguous | stream.go:535-545 | The release loop moves whatever is contiguous, by exact keys |
| Streams.Stream.PlaceLocked | stream.go:485-547 | Already delivered, partly delivered, ahead of a gap, or next: each chunk goes where it belongs, and the bytes newly accepted are returned |
| Streams.Stream.FinishLocked | stream.go:568-578 | The stream finishes once everything below the final size is delivered |
| Streams.Stream.Deliver | stream.go:456-480 | Place, count, finish; a chunk the backstop turns away resets the stream |
| Streams.Stream.DeliverEnd | stream.go:556-564 | A FIN records where the stream ends |
| Streams.Stream.HandleFrame | connection.go:1035-1042 | Data first, then the FIN at the end of it |
| Streams.Stream.ReadNow | stream.go:110-154 | Bytes, end, reset or nothing yet, and the limit to advertise when one is due |
| Streams.Stream.CloseWrite | stream.go:364-393 | The write side closes and the FIN carries the final size |
| Streams.Stream.WritePass | stream.go:257-350 | One pass: as much as fits, cut from where the last pass ended, SYN on the first frame of an idle stream, counted against the peer's limit |
| Streams.Stream.WriteAll | stream.go:206-361 | A write on a stream that was reset or closed is refused and changes nothing; any other goes out as consecutive frames of a prefix of the data, SYN only on the stream's first, never past the peer's limit, and stops short only when that limit is reached or the write is abandoned |
| Reassembly.StaleForever | stream.go:485-547 | A held chunk that was delivered past is never released, whatever arrives |
| Reassembly.ExactUnlessMet | stream.go:485-547 | A frame leaves a stale chunk, or two that overlap, exactly when it is new, its slot is free, the backstop lets it in and it meets a chunk already held |
| Reassembly.SpoiltForever | stream.go:485-547 | A stream with a stale chunk or overlapping ones stays so, whatever arrives |
| Reassembly.CountAhead | stream.go:485-547 | The held bytes are never undercounted, and counted right exactly when the chunks lie apart and ahead |
| Reassembly.CountRightIfExact | flow_control.go:326-330 | What counts as buffered is the buffer plus the distinct bytes held ahead, exactly when no chunk is stale and none overlap, and otherwise more |
| Reassembly.CountRightExactly | stream.go:456-547 | After any series of frames and reads within the backstop the count is right if and only if no frame met a chunk already held when it came |
| Reassembly.BufferedIsReal | flow_control.go:326-330 | With chunks apart and ahead, what counts as buffered is no more than was written and not read |
| Reassembly.CountDrifts | stream.go:527-546 | For any packet and any cut: its tail, then the packet itself, and everything is read while the tail still counts as buffered |
| FlowSystem.FlowSafety | flow_control.go:103-309 | In every interleaving of sends, arrivals, reads, lost or late updates and answers: sent within limit within advertised within consumed plus window; blocked exactly when no credit is left; what is buffered fits the window; the backstop is never hit; every update less than 2^31 stale reads back exactly |
| FlowSystem.FlowProgress | flow_control.go:261-309 | Half a window of credit is always on offer, and the window never exceeds the cap or the initial one plus twice what was consumed |
| FlowSystem.BlockedRepairs | connection.go:965-975 | Whatever updates were lost, one STREAM_DATA_BLOCKED answered lifts the sender to consumed plus window |
| FlowSystem.ReassemblyComplete | stream.go:485-547 | With one chunking the delivered offset is always the end of the longest series of frames that have all arrived |
| FlowSystem.ReleaseAssembles | stream.go:535-545 | The release loop stops at the first frame that has not arrived and not before |
| Sending.PiecesCarryAll | connection.go:1138-1183 | Re-chunking preserves bytes and offsets, keeps SYN on the first piece and FIN on the last, and makes every piece fit the path |
| Sending.SplitShrinks | connection.go:1280-1290 | Re-chunking a queued packet lowers the number that are too large, so the flush loop ends |
| Connections.Connection.constructor | connection.go:127-185 | A connection with nothing sent |
| Connections.Connection.PrepareDataPacket | connection.go:871-901 | One data packet sequenced, tracked, booked with the window, drawn from the pacer and put on the wire |
| Connections.Connection.SendStreamFrames | connection.go:850-866 | A batch goes out as its consecutive chunks, one packet each |
| Connections.Connection.SendFin | connection.go:386-394 | The bare FIN at the stream's final size, booked but not paced |
| Connections.Connection.ResendData | connection.go:588-613 | A packet goes back on the wire under the sequence just given to it |
| Connections.Connection.FitToPath | connection.go:1138-1183 | A packet too large for the path is dropped from tracking for its pieces; any other comes back as it is |
| Connections.Connection.FlushQueue | connection.go:1265-1308 | Lost packets go out while window and pacer allow, re-chunked where the path shrank: flight rises at most to the window, and a queue left without a timer has a first packet that does not fit the window |
| Connections.Connection.SendHead | connection.go:1299-1306 | The head of the queue goes out and is booked as the new packet it is |
| Connections.Connection.SortLost | connection.go:1225-1237 | Probes go to the search, data to the queue, and full-size losses count towards a black hole |
| Connections.Connection.BookLoss | connection.go:1241-1252 | Lost bytes leave flight; the window collapses when the loss spans three probe timeouts with nothing acknowledged since |
| Connections.Connection.HandlePacketsLost | connection.go:1219-1260 | Everything loss detection sets off |
| Connections.Connection.DetectLostPackets | packet_manager.go:192-200 | Loss detection and, if anything was lost, what follows |
| Connections.Connection.LossTimerFired | packet_manager.go:251-259 | The loss timer declares what has become old enough |
| Connections.Connection.TallyAcked | connection.go:1056-1077 | Bytes acknowledged; a sample exactly when the frame's largest is among the packets, and it is that packet's send time; whether any was large; what the search learns |
| Connections.Connection.BookAcked | connection.go:1056-1078 | Flight drops by the data acknowledged; unless the frame's largest is among it neither window nor RTT moves |
| Outcomes.RttFromTheLargest | connection.go:1045-1090 | Over the whole ACK step: the RTT estimates are those of a sample from the send time of the frame's largest, if the frame newly acknowledges it; otherwise none moves and the window does not grow |
| Outcomes.FirstSample | connection.go:1045-1090 | The first RTT is the time since the frame's largest was sent |
| Outcomes.SlowStartByTheFlight | connection.go:1056-1078 | In slow start the window grows by exactly what leaves flight, which is what leaves tracking |
| Outcomes.AckRecorded | packet_manager.go:148-186 | An ACK that takes something records its time, the time of the one before it, and the largest sequence |
| Outcomes.AckPersists | connection.go:1247-1252 | When an ACK finds data lost, the window collapses exactly when an RTT is known, the loss spans three probe timeouts and no earlier ACK took anything since the oldest of it went out |
| Outcomes.TimerPersists | packet_manager.go:251-259 | When the loss timer does, exactly when no ACK at all did |
| Outcomes.AckRaisesThePath | connection.go:1056-1077 | An acknowledged probe makes its size the one in use; an acknowledged large packet clears the count of lost ones |
| Outcomes.LossesCounted | connection.go:1225-1237 | Lost data gives the path up exactly when it brings the large ones to three; with a large one just acknowledged it does not count |
| Outcomes.DetectionGivesUp | connection.go:1219-1260 | The same of loss detection as a whole |
| Outcomes.ThirdTimeoutGivesUp | connection.go:1199-1203 | The third probe timeout in a row gives the path up, and no earlier one |
| Outcomes.ProbeGoesOut | connection.go:1103-1130 | From the first RTT sample on a probe of exactly the size under test goes out, tracked and not booked; otherwise none does |
| Outcomes.OldestExactly | packet_manager.go:323-341 | A data packet is among the n oldest exactly when fewer than n are below it |
| Outcomes.TwoOldestGoOutAgain | connection.go:1199-1211 | A probe timeout takes a packet from its sequence exactly when it is data with fewer than two data packets below it, and touches no other |
| Admission.FlushStops | connection.go:1265-1308 | The queue is left for a first packet that does not fit the window, or for a timer at the first moment the pacer's budget holds a datagram |
| Admission.FlushDrains | connection.go:1265-1308 | Flight rises at most to the window, and the pacer's budget falls by as much |
| Admission.QueueAdmitted | connection.go:1265-1308 | Both, of the whole flush, with the window left alone |
| Admission.AckDrainsQueue | connection.go:1079-1090 | After any ACK that takes something the queue is empty, or stopped for the window or the pacer |
| Admission.TimeoutDraws | connection.go:1199-1211 | What a probe timeout sends again, added headers included, is drawn from the pacer and neither held to the window nor booked |
| Admission.OldestFirst | connection.go:1265-1308 | What goes out is the start of the queue, cut to the path, frame by frame under consecutive sequences, and what is left is the rest of it |
| Admission.StepWithinWindow | connection.go:1045-1308 | In every reachable state, an ACK or a timer raises flight to the window at most |
| Admission.WriteCosts | connection.go:850-901 | A write books its payload and a header for each packet, and draws as much from the pacer |
| Admission.CloseCosts | connection.go:386-394 | A close books one header outside window and pacer |
| Admission.GrantFits | connection.go:831-843 | A write's payload fits the window's room or is one chunk, fits the room if it waited for its first chunk, and is no less than data, batch, limit and room allow |
| Admission.WriteWithinWindow | stream.go:286-350 | A write whose grant is the window's room goes past the window by sixteen headers at most |
| Admission.FlightBounded | congestion.go:182-205 | In every run of two peers, flight exceeds the largest window so far by at most the headers of one batch and of the closes |
| Connections.Connection.HandleAckFrame | connection.go:1045-1090 | An ACK: booked first, then loss detection, then the queue, then the next probe, and nothing at all if it is old news |
| Connections.Connection.ProbeMTU | connection.go:1103-1130 | A probe of the size under test, tracked and not booked |
| Connections.Connection.ProbePacket | connection.go:1203-1210 | An outstanding packet goes out again, whole or in pieces, outside the window but drawn from the pacer |
| Connections.Connection.OnPTO | connection.go:1199-1211 | Several timeouts in a row are a black hole; the two oldest packets are probed with |
| Connections.Connection.PtoFired | congestion.go:449-466 | The timeout counts, probes, and waits again if anything is in flight |
| Custody.SendKeeps | connection.go:871-901 | New data keeps custody: every byte written has one record, every record is acknowledged, tracked or queued |
| Custody.AckedLeave | packet_manager.go:148-186 | Acknowledged records leave the map and custody holds |
| Custody.LostLeave | packet_manager.go:211-248 | Lost records leave the map for the queue and custody holds |
| Custody.ResendFromPool | packet_manager.go:295-318 | A queued record goes back into the map and custody holds |
| Custody.ResendFromMap | packet_manager.go:295-318 | A tracked record moves to a fresh sequence and custody holds |
| Custody.SplitKeeps | connection.go:1138-1183 | Pieces take a record's place, wherever it was, and custody holds |
| Recovery.PiecesSize | connection.go:1138-1183 | Re-chunking adds one header for each extra piece and nothing else |
| Recovery.FlushSteady | connection.go:1265-1308 | Draining the queue keeps custody, flight and probe timer, and stops only for the pacer's timer or with bytes in flight |
| Recovery.WindowFull | connection.go:1296-1298 | A window too full for a packet has bytes in flight, because it is at least two datagrams |
| Recovery.FlushWakes | connection.go:1265-1308 | A queue with anything in it is never left without a timer |
| Recovery.WriteSteady | connection.go:850-866 | A write keeps everything |
| Recovery.FinishSteady | stream.go:364-393 | A close keeps everything |
| Recovery.AckSteady | connection.go:1045-1078 | What an ACK takes out of tracking it takes out of flight |
| Recovery.DetectSteady | connection.go:1219-1260 | Loss detection and what it sets off keep everything |
| Recovery.ProbeMtuSteady | connection.go:1103-1130 | A path-MTU probe changes neither flight nor custody |
| Recovery.PtoSteady | connection.go:1199-1211 | A probe timeout keeps everything, and leaves headers unbooked only where it re-chunks |
| Runs.StepRests | connection.go:850-1308 | Every step of the sending half leaves it at rest: custody, flight within what is tracked, timers set; nothing sent is unsent and no record revived |
| Runs.AckRests | connection.go:1045-1090 | After an ACK just the records it names are newly acknowledged |
| Runs.InflightConserved | congestion.go:199-342 | In every run flight is at most the bytes tracked, and equal to them as long as no probe timeout re-chunked |
| Runs.NeverQuiet | connection.go:1265-1308 | In every run without a re-chunking probe timeout, data tracked or queued implies the probe timer or the queue's timer is set |
| Runs.LossTimerWaits | packet_manager.go:211-259 | In every run with honest ACKs, a packet tracked at or below the largest acknowledged has the loss timer armed |
| Runs.LastSentIsLast | packet_manager.go:106-139 | In every run the last sequence sent, which loss recovery records, is the one before the next |
| Unmoved.StepWritten | connection.go:1045-1308 | No step but a write changes what is written on any stream |
| Unmoved.StepRaises | pmtud.go:105-193 | Only an ACK raises the size found for the path, and no further than the probes it names |
| Stalling.QuietAfterAck | congestion.go:208-249 | An ACK leaves data outstanding with no timer that would send it exactly when nothing is queued, the bytes it names are at least those booked in flight, data is left tracked all the same, and none of that data sits at or below the largest acknowledged; an ACK for nothing tracked changes nothing |
| Stalling.QuietAfterPto | congestion.go:449-466 | A probe timeout does so exactly when nothing is queued or booked in flight, data is tracked, and the loss timer is off or watches only what is sent again |
| Stalling.OthersStayAwake | connection.go:850-1308 | No write, close, loss timer or flush ever takes the connection from awake, by any of the three timers, to quiet |
| Epochs.ShrinksOnlyOnLoss | congestion.go:333-412 | A step shrinks the window only if it finds data lost outside recovery, or persistent congestion |
| Epochs.OneContractionPerRoundTrip | congestion.go:385-412 | In every run, absent persistent congestion, between two contractions an ACK newly acknowledged a packet not yet sent at the first |
| Runs.OnePacketPerByte | connection.go:1138-1308 | In every run a byte handed over is acknowledged and in no packet, or in exactly one packet, tracked or queued |
| Runs.WriteAppends | stream.go:328-350 | A write appends its data to its stream and touches no other |
| Runs.LostOnlyOncePassed | packet_manager.go:211-318 | With honest ACKs: each packet under its own sequence below the next, and one sent after any point is declared lost only once a larger sequence has been acknowledged since |
| Runs.SequenceNeverReused | packet_manager.go:106-139 | What went out under a sequence, and for which record, never changes |
| QuietRun.GoesQuiet | connection.go:1199-1211 | A concrete run of two peers, cut to the sizes and timed by the timers of the code, no timer due before any step, every ACK as the receiver prints it, after which a FIN is outstanding with no timer set, the loss timer included |
| EndToEnd.EventOk | connection.go:630-666 | Every event of sender, receiver or network keeps the invariant of the whole |
| EndToEnd.DeliversAPrefix | stream.go:485-547 | In every run what was read followed by what is buffered is exactly the first bytes the peer wrote |
| EndToEnd.AcknowledgedIsHeld | packet_manager.go:148-186 | In every run an acknowledged record's bytes are all held by the receiver, unless it hit the backstop, and are the bytes written |
| EndToEnd.EofMeansAll | stream.go:110-154 | A Read that reports the end comes after the peer closed and every byte it wrote was read, unless the backstop was hit |
| StreamEnd.FinSeenExactly | connection.go:979-1043 | In every run the receiver has recorded the end of a stream exactly when some FIN of it arrived while the stream existed, or opened it |
| StreamEnd.EndExactlyWithFin | stream.go:110-154 | Once nothing is outstanding, and unless the backstop was hit: finished exactly when a FIN was recorded, and a reader with nothing left to take gets the end exactly then and waits otherwise |
| OvertakenFin.EndGoesUnseen | connection.go:979-1043 | For any one frame of data, a run in which the FIN arrives first and is acknowledged, then the data, with no timer due before any step and every ACK as the receiver prints it: nothing is outstanding, every byte is delivered, and the end is not recorded |
| Credit.FlowSafety | flow_control.go:103-309 | In every run of two peers and for every stream, however packets are re-cut: written is what the sender counts, within its limit, within what was advertised, within what was read plus the window, which is capped; half a window of credit is on offer; blocked exactly when no credit is left; every update less than 2^31 stale reads back exactly |
| Credit.NeverHit | stream.go:485-547 | In every such run that has re-cut no packet, the backstop was never hit, the count of buffered bytes is right and fits the window |
| EndToEnd.PrefixIsLongest | stream.go:535-545 | The byte at the delivered offset is never already held |
| EndToEnd.AllDeliveredWhenIdle | connection.go:1045-1308 | Once nothing is tracked or queued every byte written has been delivered in order, unless the backstop was hit |
| Codec.Consumes | frame.go:41-84 | From any bytes a frame is read within them, takes at least one and exactly its own length, and fits the wire |
| Codec.FrameRoundTrip | frame.go:41-640 | Every frame that fits is read back whole from the bytes it is written as, whatever follows it; a path-MTU probe only if nothing does |
| Codec.FrameReencodes | frame.go:41-640 | Encoding the frame that was read gives back its bytes, but for the filling of a path-MTU probe and the unused flag bits of a STREAM frame |
| Codec.UnknownExactly | frame.go:41-84 | Refused as unknown are exactly the types outside the seventeen |
| Codec.FramesRoundTrip | packet.go:139-148 | A list of fitting frames, with a path-MTU probe only last, is read back |
| Codec.DecodeAllExact | packet.go:139-148 | Frames read from any bytes fit and use them up exactly |
| Codec.UnmarshalExact | packet.go:83-160 | Any datagram that parses yields a packet that fits and is as long as it |
| Codec.AcceptsExactly | packet.go:84-160 | A datagram is accepted exactly when it is a header with connection IDs of at most twenty bytes and frames that can all be read, and the packet is what it says |
| Codec.PacketRoundTrip | packet.go:32-160 | A packet survives the wire if and only if it fits it |
| Codec.MarshalPacket | packet.go:32-80 | The buffer, filled field by field, is exactly the packet's bytes |
| Codec.UnmarshalFrames | packet.go:139-148 | The frame loop yields what decoding the rest of the datagram does, error included |
| Codec.UnmarshalPacket | packet.go:83-160 | Every check in the source's order, with its error |

## Left out

- The packing of the receiver's ring into 64-bit words: it is an array of 512 flags here.
- Widths of counters: fewer than 2^32 packets per connection and offsets below 2^64 are assumed, except in ACK ranges, window updates and the codec, where the width is modelled.
- CUBIC's floating point: its target is an arbitrary integer, the factor 0.7 is 7/10, and the pacer works over reals.
- Sockets, the multiplexer, dialing and the command line: what is put on the wire is a map from sequence to datagram.
- Goroutines, locks, condition variables and deadlines: methods are atomic, and a blocking read or write appears as one that returns what it has.
- Admission.FlightBounded: takes a write's grant as the window's room at the moment it sends; with writers that interleave between grant and send each may use the same room. Credit.FlowSafety holds for any grant.
- Streams.Stream.WriteAll: waiting for credit is a list of grants; a close or reset while a write waits is not modelled.
- The connection-level flow controller, which the source counts and does not enforce.
- Path migration, the idle watchdog, version negotiation, stateless reset and the choice of connection IDs.
- Closing a connection, which empties the queue and forgets every packet.
- Resetting a stream other than by the backstop, and the source's transition from reset to half-closed when a FIN follows.
- That the end of a stream is always delivered: it is not (OvertakenFin.EndGoesUnseen), and StreamEnd.EndExactlyWithFin says exactly when it is.
- Data packets of more than one frame: the source sends none.
- Packets.PacketManager.SendPacket: the packet's first send time is not kept, because nothing modelled reads it.
- Packets.PacketManager.ResendPacket: the count of retransmissions is not kept, for the same reason.
- Congestion.CongestionController.Contract: CUBIC's maximum, K and epoch start are part of its target, which is arbitrary.
- Congestion.CongestionController.Collapse: the same.
- Streams.Stream.ReadNow: the wait for data and its deadlines are the caller's; it says when there is nothing yet.
- Connections.Connection.PrepareDataPacket: the anti-amplification limit is not modelled; a datagram it withholds is one the network lost.
- Packet records are values with an identity where the source shares one record between map and queue; a record is never in both.
- The receiver's table of streams is a map from the sender's stream number to the stream's value; only one stream at a time is an object.
- Receiving.AckScheduler.NoteReceived: sending the ACK and the choice of its stream numbers are not modelled.
- EndToEnd.AcknowledgedIsHeld: excepts a stream that hit the backstop, which Credit.NeverHit shows cannot happen with one chunking.
- FlowSystem.FlowSafety: assumes one chunking; Reassembly.CountRightExactly says exactly what goes wrong without it.
- Congestion.OneContractionPerEpoch: takes the last sequence sent as an argument; Epochs.OneContractionPerRoundTrip is the statement about a connection.
- Liveness in real time, throughput and fairness.
