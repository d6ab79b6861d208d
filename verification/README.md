# Verified model of the UE packet pipeline and the scheduling around it

Dafny 4.11. `dafny verify dfyconfig.toml` checks everything.

The emulator gives every UE and direction a packet pipeline. Packets are captured from the kernel (or generated),
enter an IP buffer, are cut and packed into the grants of a MAC scheduler, may wait for retransmission or expire, and
are put together again on the far side, where each gets one final verdict: accept, accept with a CE mark, or drop.
The buffer is a plain FIFO or a DualPI2 dual queue (RFC 9332) that marks and drops.

## How the model is built

Every stateful component is there twice: as a class whose methods change its fields with the source's own loops and
branches, and as a value (`DualQ`, `Buffer`, `Harq`, `Store`, `Handler`, `Layer`, ...) whose functions say what the
new state is. Each method ensures that the state it leaves is the value's; the lemmas are about the values, and
`PdcpProgress.Drive` carries them to the classes for any list of events. Random draws, clock readings, jitter and the
question whether a transmission fails are arbitrary inputs, so the results hold for all of them. History that the
source does not keep (dequeues, captured payloads, deliveries, verdicts, interval reports, blocks served) is recorded in
ghost fields.

| file | models |
|---|---|
| `Packets.dfy` | packets, blocks, sorting by uid, and the gauges all accounting uses |
| `DualPi2.dfy`, `DualPi2Laws.dfy`, `PiControl.dfy` | the dual queue, what it keeps, the control law |
| `IpBuffer.dfy`, `IpBufferLaws.dfy`, `IdentityLaws.dfy` | the buffer over either backend, exact books, identity of fragments |
| `Harq.dfy`, `HarqLaws.dfy` | the retransmission buffer and its turns |
| `Ipv4Ecn.dfy`, `Capture.dfy` | the ECN rewrite, the payload store |
| `CapturedHandler.dfy`, `CapturedHandlerLaws.dfy`, `EntryLists.dfy` | ingest, reassembly, ordered release; what every list of entries keeps |
| `PdcpLayer.dfy`, `PdcpInduction.dfy`, `PdcpRuns.dfy`, `Histories.dfy` | the orchestration, induction over its loops, its runs and the history they leave |
| `PdcpLaws.dfy`, `PdcpTheorems.dfy`, `PiRuns.dfy`, `Bounds.dfy` | what every step keeps, and what holds in every run |
| `CaptureTimes.dfy`, `LaneOrder.dfy` | order and time of capture, and the order in which the dual queue serves |
| `Expiry.dfy`, `DropCauses.dfy` | the delay budget in either mode, and why packets are dropped |
| `PdcpProgress.dfy`, `Throughput.dfy` | the classes against the runs, termination of the grant loop, retransmissions over budget; bits reported and bits delivered |
| `FifoStream.dfy`, `Reassembly.dfy`, `FifoOrder.dfy`, `FifoBudget.dfy` | FIFO mode: the bit stream, fragmentation undone, ordered verdicts, the delay budget |
| `Overtaking.dfy`, `CaptureOrder.dfy` | FIFO mode with overflow: exactly when verdicts follow the captures |
| `OrderLimits.dfy`, `ShutGate.dfy` | where ordered release ends: an overflow that shuts the order gate, and that it stays shut |
| `Arrivals.dfy`, `Punctuality.dfy`, `OnePacket.dfy` | deliveries and verdicts: the first piece decides, when acceptance is early, runs of one packet |
| `SignalLaws.dfy`, `MarkLaws.dfy`, `LostMark.dfy` | from the AQM's marks and drops to the verdicts, and the marks that are lost |
| `Draining.dfy` | nothing is forgotten: past every budget, one tick and one release tell everything |
| `Simulated.dfy`, `SimulatedLaws.dfy`, `SimPipeline.dfy`, `SimRuns.dfy` | the simulated-traffic handler, its verdicts, the pipeline over it, its runs in the source's order |
| `ThreadPool.dfy`, `ThreadPoolLaws.dfy` | the batch thread pool as interleaved critical sections |
| `Cyclic.dfy`, `Tdd.dfy`, `TddLaws.dfy` | rotations, the wrapping TDD symbol counter |
| `Scheduler.dfy`, `SchedulerLaws.dfy` | one block's selection, the grid's loop, round robin |

## What a run is

`PdcpRuns.Event` lists what can happen to a pipeline: a capture with a fresh id, a tick whose time is not before the
last one, a grant, a release, an interval report. Nothing else is assumed of a run: buffer sizes, delay budgets,
capture clocks, failed transmissions and overflow are unconstrained unless a theorem says otherwise. A grant must not
ask for a positive part of a bit on a non-empty buffer, because the loop then never ends (`GrantLoopHalts`).
The results on the order of verdicts need FIFO mode, no failed transmission (the source as compiled never has one) and
increasing ids. `VerdictsFollowExactly` then says which runs keep the order, overflow included;
`VerdictsFollowCaptures` adds, where nothing overflows, that every packet is reassembled from all its fragments.
In dual mode each class of packets is first served in the order of capture (`ClassesAreServedInOrder`).
The pipeline over the simulated handler (`SimPipeline`) is run in single loop turns that may come in any order;
`RunsAreTurns` shows that the source's ticks, grants and releases are such turns.

## What the proofs found

- A grant strictly between 0 and 1 bit on a non-empty buffer loops for ever (`GrantLoopHalts`).
- A packet refused for want of room is spoiled and told at once, and moves the order cursor past packets captured
  before it that are still queued. Whether a release does that can be read off the state before it
  (`VerdictsFollowExactly`); a grant that delivers the older packets first, for one, makes it safe. With the order
  check on, an unsafe release can stop a pipeline for good: the packet in front is complete, its predecessor is not the
  last one told, and no later event ever leads to another verdict (`OneOverflowStopsAllVerdicts`, `NoMoreVerdicts`).
  At the source's own capacity 20001 packets of 65500 bytes between two ticks do it (`FloodStopsAllVerdicts`).
- A CE mark can be lost. Reassembly keeps the mark of the first piece of a packet and ignores the others', so a packet
  marked after part of it was let through is accepted without the mark (`LateMarkIsLost`); with a clean link those are
  exactly the marks that are lost (`EarlyMarksReachVerdicts`), and with failures too it is the first piece delivered
  that decides (`FirstPieceDecides`).
- A packet can be accepted before all of it is due. Reassembly keeps the release time of the first piece as well, so a
  release that comes between the release times of two pieces tells a packet whose later piece is still on its way
  (`HalfDueIsAccepted`, under the configured backhaul delay). `AcceptedWhenAllIsDue` gives the exact condition on the
  state before each release.
- With the order check on, a packet whose predecessor's verdict was followed by another packet's is never accepted
  (`PassedOverIsNeverAccepted`).
- A retransmission reports its whole block sent whatever the grant, so a grant can report more bits sent than it had
  (`RetransmissionExceedsGrant`); nothing else does (`OnlyRetransmissionsExceed`). The source as compiled never meets
  it: its failure question always answers no, so nothing is ever retransmitted (`CleanGrantsStayWithin`).
- A packet of simulated traffic that the full buffer refuses never gets a verdict, as the handler built for it inherits
  a refusal that does nothing; every other one gets exactly one (`AdmittedPacketsAreTold`).
- In dual mode a grant asks only whether a head is over budget. If one is, everything it takes is dropped with it,
  packets within budget included; if none is, a piece over budget behind the heads is delivered (`TurnDecides`).
- A batch started on an empty job list leaves the thread pool running, and once a job is added it never ends
  (`EmptyBatchNeverEnds`). That takes a job added while the pool counts as running, which the assumption below, that
  jobs are added only while it is idle, excludes; the only code that could do it is `ue_handler::add_ue`, which nothing
  in the repository calls.
- `TDD_5G_CONFIGURATION` is declared with 62 rows and has 61; the last is all zeros, so a transition configuration of
  61 without slots makes an empty pattern that `get_syms` would index (`PatternExists`).
- The round-robin turn is matched against UE ids. `ue_handler::add_ue` advances the id before using it, so a number is
  skipped and its turn belongs to nobody, whatever is added later (`FirstSingleSkipsItsTurn`); the rotation serves every
  UE if and only if none was added that way (`EveryUeHasATurn`). Nothing in the repository calls `add_ue`.
- With a single frequency group the round-robin turn never moves after the first block (`RotatesExactlyWithTwoGroups`).

## Model

| member | source | states |
|---|---|---|
| PdcpTheorems.BitsAreConserved | src/pdcp_layer/pdcp_layer.cpp:44-161 | Over every run of captures, ticks, grants, releases and reports, in either mode and whatever overflows, expires, is dropped or fails: a captured packet's bits over capture queue, ingress, buffer, AQM victims, retransmissions and reassembly are exactly its size until its verdict and 0 after it; at most one verdict, and none for what was never captured |
| PdcpTheorems.PayloadsAwaitVerdicts | include/netfilter/pkt_capture.h:90-122 | Over every run: a payload is stored exactly while its packet was captured and has no verdict; no verdict ever meets a missing payload; a CE verdict, and no other, is sent with a payload: the packet's own captured one with its ECN field rewritten; a plain accept and a drop are sent as such |
| PdcpTheorems.KernelGetsCapturedBytes | include/netfilter/pkt_capture.h:90-122 | What the kernel is handed with a CE verdict, over every run: the bytes captured under that id. With a header of 4 times the low half of the first byte, at least 20, that is there, only the ECN bits, now CE, and the header checksum differ, the checksum over that many bytes is 0, and those bytes are a multiple of 65535 as one number; any other bytes come back unchanged |
| PdcpTheorems.OneSignalPerPacket | src/pdcp_layer/dualpi2_queue.cpp:53-111 | Over every run: at most one CE mark or AQM drop per packet however often it is cut and requeued into either queue; marks plus drops count distinct packets; totals, in packets and in bits, are those of the dequeue history and are the interval reports plus the open interval; only ECT(0)/ECT(1) arrivals are marked and only Not-ECT/ECT(0) ones dropped (RFC 3168 section 5, RFC 9332 section 2.3) |
| PdcpTheorems.OccupancyIsExact | src/pdcp_layer/ip_buffer.cpp:72-187 | Over every run: the occupancy is the bits in the FIFO, both lanes and the uncollected victims together, and each lane counter the sum over its packets, so no clamp at zero ever changes a value |
| Bounds.NeverOverCapacity | src/pdcp_layer/ip_buffer.cpp:72-87 | Over every run in either mode: the bits held never exceed the capacity |
| Bounds.AdmittedIfItFits | src/pdcp_layer/pdcp_layer.cpp:55-64 | A packet is admitted if and only if it fits, to the last bit, beside the bits held; else the buffer stays as it is and the packet stands spoiled in reassembly |
| Bounds.ClocksAgree | src/pdcp_layer/pdcp_layer.cpp:44-53 | Over every run: buffer, retransmission buffer, packet handler and the dual queue in use all have the time of the last tick |
| PdcpTheorems.ClassicIsNotStarved | src/pdcp_layer/dualpi2_queue.cpp:235-241 | Over every run: the dequeue history is in time order and, with both lanes backlogged, L4S is chosen exactly within the guard after the last classic dequeue; so with a positive guard L4S passes waiting classic traffic only within the guard after a classic dequeue (or after time 0, before the first), classic dequeues beside waiting L4S traffic are at least a guard apart, and without a positive guard classic traffic is never served while L4S traffic waits |
| SignalLaws.VerdictsHeedSignals | src/pdcp_layer/dualpi2_queue.cpp:53-111 | From the AQM to the kernel, over every run in either mode, whatever fails, expires or overflows: an ACCEPT_CE verdict means the AQM marked the packet; a packet the AQM dropped gets no verdict but DROP; a marked packet accepted without the mark was served in part before it was marked |
| MarkLaws.EarlyMarksReachVerdicts | src/pdcp_layer/captured_packet_handler.cpp:204-218 | Exactly which marks reach the kernel, over every run in either mode whose transmissions succeed: an accepted packet is accepted as CE if and only if the AQM marked it before it let any part of it through, because the entry keeps the mark of its first piece |
| LostMark.LateMarkIsLost | src/pdcp_layer/captured_packet_handler.cpp:204-218 | An input for the other side: one L4S packet cut by two grants 10 ms apart under the default configuration is marked at its second half and accepted without a mark |
| Draining.DrainTellsAll | src/pdcp_layer/pdcp_layer.cpp:44-53 | Liveness, from any state a run of either mode reaches with the order check off: once everything queued or kept for retransmission is over budget, everything delivered is due and no capture waits, one tick and one release give every captured packet its one verdict and leave no payload, packet or block behind |
| Draining.DrainTellsInOrder | src/pdcp_layer/pdcp_layer.cpp:44-53 | The same with the order check on or off, in FIFO mode with a clean radio link: that tick and release tell every captured packet in the order of capture if and only if no reassembly entry overtakes another after the tick |
| Draining.RunsAreNeat | src/pdcp_layer/captured_packet_handler.cpp:58-94 | The invariant behind it, over every run in either mode: reassembly has one entry per packet, although refusals append without looking, and ingress holds whole packets |
| PdcpTheorems.BlocksLeaveInFiveTurns | src/pdcp_layer/pdcp_layer.cpp:136-153 | Over every run and whatever fails: a block is taken out for service at most five times, its count stays in 0..4, and after its fifth turn it is gone (as compiled nothing fails and the buffer stays empty, `CleanGrantsStayWithin`) |
| PdcpTheorems.GivenUpExactlyAtFive | src/pdcp_layer/pdcp_layer.cpp:136-153 | Over every run: a block whose retransmission fails stays in the buffer if and only if it has had fewer than five turns by then |
| PdcpTheorems.AcceptedInSequence | src/pdcp_layer/captured_packet_handler.cpp:96-157 | Over every run in either mode: with the order check on an accepted packet got its verdict right after the packet it points at, unless it was the first told, and its first piece was due (for the others see `AcceptedWhenAllIsDue`) |
| PdcpTheorems.ReleaseStopsForAReason | src/pdcp_layer/captured_packet_handler.cpp:96-157 | And the other way round, over every run: what a release leaves in front is incomplete, or unspoiled and either not due or, with the order check on, not the successor of the packet told last |
| Punctuality.AcceptedWhenAllIsDue | src/pdcp_layer/captured_packet_handler.cpp:96-157 | Over every run in either mode, whatever fails: every accepted packet was told no earlier than the release time of every piece delivered of it, if and only if no release could reach an unspoiled entry with a piece that was not due, past entries it does not stop at |
| Punctuality.ReleaseIsOnTime | src/pdcp_layer/captured_packet_handler.cpp:96-157 | The same for one release |
| OnePacket.HalfDueIsAccepted | src/pdcp_layer/captured_packet_handler.cpp:204-218 | An input for the other side, with the configured backhaul delay of 3 ms: one packet cut by two grants 1 ms apart is accepted when its first half is due, 1 ms before its second half is |
| Arrivals.FirstPieceDecides | src/pdcp_layer/captured_packet_handler.cpp:204-218 | Over every run in either mode, whatever fails or is retransmitted: an accepted packet has the release time of the first piece delivered of it, which was due, and is accepted as CE if and only if that piece was marked |
| PdcpTheorems.RunsAreGood | src/pdcp_layer/pdcp_layer.cpp:44-161 | The invariant behind these: every event keeps the shape of the state, every packet's books and every block's turns |
| PiRuns.ProbabilitiesStayCoupled | src/pdcp_layer/dualpi2_queue.cpp:273-288 | Over every run of the pipeline with k > 0: p_base in 0..1, p_C its square, p_CL = min(1, k p_base), and p_C = (p_CL/k)^2 below saturation (RFC 9332 section 2.1) |
| LaneOrder.ClassesAreServedInOrder | src/pdcp_layer/dualpi2_queue.cpp:32-111 | Over every run in dual mode, whatever is cut, marked, refused, dropped or expires: of two packets that arrived in the same class, the one captured first is the one first dequeued |
| LaneOrder.GrantServesLanesInTurn | src/pdcp_layer/ip_buffer.cpp:97-140 | A grant in dual mode serves each lane in the order in which its packets wait; only the packet it cuts goes back, behind all others of the lane of its code point |
| DropCauses.OnlyTheAqmDrops | src/pdcp_layer/pdcp_layer.cpp:219-241 | Over every run in either mode with room for all and no failures, as long as no packet ingested is over its budget: a packet told is dropped if and only if the AQM dropped it |
| DropCauses.FifoDropsOnlyLate | src/pdcp_layer/pdcp_layer.cpp:219-232 | Over every run of FIFO mode with room for all, no failures and a capture clock that does not run backwards: a packet is dropped only if its own arrival lay more than the budget before its verdict |
| Expiry.StepTakesLateFronts | src/pdcp_layer/pdcp_layer.cpp:44-53 | A tick in either mode leaves what ingress and the victims' collection left, without exactly the late packets at the front of each queue; so no packet that could be served next is late afterwards |
| Expiry.CleanupTakesLateFronts | src/pdcp_layer/pdcp_layer.cpp:219-232 | The cleanup alone, from any state: each queue loses its longest front of late packets and nothing else |
| Expiry.CleanupSparesFresh | src/pdcp_layer/pdcp_layer.cpp:219-232 | A queued packet within budget is still queued after it, whatever stands before it |
| Expiry.TurnDecides | src/pdcp_layer/pdcp_layer.cpp:102-130 | What a turn of the grant loop does with the packets it takes: if a head was over budget all of them are spoiled, whatever their own age, and nothing is delivered; else they are delivered, due at the time plus backhaul delay plus jitter, and their bits reported, or kept in one block that is ready after its acknowledgement delay |
| Throughput.ReportsAreDeliveries | src/pdcp_layer/pdcp_layer.cpp:96-154 | Over every run in either mode, whatever fails or is dropped: the bits all grants report sent are exactly the bits of the pieces delivered |
| Throughput.AcceptedIsDelivered | src/pdcp_layer/captured_packet_handler.cpp:204-231 | Over every run: the pieces delivered of an accepted packet add up to exactly the bits captured of it |
| Throughput.FifoGrantsAreExact | src/pdcp_layer/pdcp_layer.cpp:96-134 | Over every run of FIFO mode with a capture clock that does not run backwards: a grant that succeeds and is not spent on a retransmission reports its whole bits or all the bits queued, whichever is less, and adds exactly those to reassembly |
| Throughput.CleanGrantIsUsedUp | src/pdcp_layer/pdcp_layer.cpp:96-134 | In either mode, whatever is dropped on the way: a grant of whole bits that succeeds is used up exactly or empties the buffer |
| PdcpProgress.Drive | src/pdcp_layer/pdcp_layer.cpp:39-154 | The classes driven in place by any list of events end in exactly the state the run describes, so every result about runs holds of them |
| FifoOrder.VerdictsFollowCaptures | src/pdcp_layer/captured_packet_handler.cpp:96-157 | FIFO mode without failed transmissions, overflow or decreasing ids: verdicts are a prefix of the captures; an accepted packet is complete with as many fragments recovered as were made; the order gate never blocks; after a release the front is incomplete or not due |
| FifoOrder.RunOrdered | src/pdcp_layer/pdcp_layer.cpp:44-154 | The invariant behind it: verdicts, reassembly, FIFO, ingress and capture queue hold the captured packets in capture order, with at most one packet split between reassembly and the head of the FIFO, also when half of it expires |
| FifoOrder.GateIsOpen | src/pdcp_layer/captured_packet_handler.cpp:233-242 | Whenever that order holds, the front packet's predecessor had the last verdict |
| CaptureOrder.VerdictsFollowExactly | src/pdcp_layer/captured_packet_handler.cpp:96-157 | Over every run of FIFO mode with no failed transmission and increasing ids, whatever overflows or expires, order check on or off: the verdicts are a prefix of the captures if and only if every release was safe, that is, no entry it could reach had an older packet queued or behind it |
| CaptureOrder.ReleaseExactly | src/pdcp_layer/captured_packet_handler.cpp:96-157 | The same for one release from any orderly state: its verdicts continue the captures exactly if every entry with an older packet queued or behind it is incomplete or stands behind an entry that is incomplete or not due; otherwise the order is broken, and no later event mends it |
| CaptureOrder.RunExactly | src/pdcp_layer/pdcp_layer.cpp:44-154 | The invariant behind it: reassembly and line hold exactly the packets between the last verdict and the last ingest, the line in capture order, reassembly each once, unspoiled entries before everything captured later |
| CaptureOrder.RoomIsSafe | src/pdcp_layer/ip_buffer.cpp:72-87 | Room for every packet makes every release safe, also when packets expire half-sent |
| Overtaking.FrontIsNext | src/pdcp_layer/captured_packet_handler.cpp:96-157 | While packets are so laid out, the front entry is the packet to be told next if and only if nothing older is queued or behind it, which always holds of an unspoiled one |
| Overtaking.FillLaid | src/pdcp_layer/captured_packet_handler.cpp:66-94 | A grant, delivered or dropped, keeps the packets laid out |
| OrderLimits.OverflowJumpsTheQueue | src/pdcp_layer/captured_packet_handler.cpp:58-64 | From any orderly state with nothing in reassembly: a tick that refuses a packet behind a queued one within budget, and a release, tell the refused packets first; the verdicts no longer follow the captures, and the order cursor has passed the queued packet, before which everything is told |
| OrderLimits.ThenTheGateIsShut | src/pdcp_layer/captured_packet_handler.cpp:96-157 | Once the packet at the head of the FIFO is delivered whole, whatever is delivered with it, it stands complete in front and is not released at any later time |
| OrderLimits.OneOverflowStopsAllVerdicts | src/pdcp_layer/captured_packet_handler.cpp:96-157 | So a tick that overflows behind a queued packet, a release and a grant lead from any such state to a stuck one |
| OrderLimits.BurstStopsAllVerdicts | src/pdcp_layer/ip_buffer.cpp:72-87 | From a fresh pipeline of any capacity: any captures with increasing ids of which the first fits and whose sum does not, then a tick, a release and a grant, lead to a stuck one |
| OrderLimits.FloodStopsAllVerdicts | include/pdcp_layer/ip_buffer.h:36 | At the capacity the buffer is built with, 20001 packets of 65500 bytes are such captures |
| OrderLimits.NoMoreVerdicts | src/pdcp_layer/captured_packet_handler.cpp:96-157 | From a stuck state (front packet complete, unspoiled and out of order, everything older told), in either mode, no run of any events gives another verdict as long as new captures get larger ids |
| OrderLimits.PassedOverIsNeverAccepted | src/pdcp_layer/captured_packet_handler.cpp:96-157 | Over every run in either mode with the order check on: once another packet's verdict has followed that of a packet's predecessor, the packet gets no verdict but DROP, whatever comes |
| ShutGate.OthersAreLater | src/pdcp_layer/captured_packet_handler.cpp:96-157 | In a stuck state every piece held outside the front entry belongs to a packet captured later |
| FifoBudget.FifoNeverServesLate | src/pdcp_layer/pdcp_layer.cpp:114-118 | FIFO mode with a capture clock that does not run backwards, over every run: no queued packet is ever over budget, so the expiry branch of the grant loop is dead and a grant of a whole bit is served in one turn |
| FifoBudget.StepFreshens | src/pdcp_layer/pdcp_layer.cpp:219-232 | A tick drops exactly a front part of the FIFO, one `drop` each; what stays keeps its order and is within budget |
| FifoBudget.OneTurnServes | src/pdcp_layer/pdcp_layer.cpp:96-134 | With nothing late, the grant loop is its first turn |
| PdcpProgress.StepClearsHarq | src/pdcp_layer/pdcp_layer.cpp:234-241 | After a tick, in either mode, the retransmission buffer holds exactly its blocks within budget in their old order; the others were handed to `drop` in theirs |
| PdcpProgress.CleanupHarqFilters | src/mac_layer/harq_handler.cpp:83-110 | Taking out one expired block at a time is one stable partition of the buffer |
| PdcpProgress.VictimsGoInOrder | src/pdcp_layer/pdcp_layer.cpp:65-70 | Collecting the victims hands them to `drop` in the order in which the AQM dropped them, leaves none behind and gives exactly their bits back |
| FifoStream.FillTakesFront | src/pdcp_layer/ip_buffer.cpp:97-140 | A grant sends the front of the stream of bits, as much as granted or all there is, and leaves the rest in order |
| FifoStream.TwoGrantsAreOne | src/pdcp_layer/ip_buffer.cpp:97-140 | Granting a and then b sends the same bits in the same order as granting a+b and leaves the same bits |
| Reassembly.GrantsAreUndone | src/pdcp_layer/captured_packet_handler.cpp:66-80 | Whatever grants empty a FIFO of whole packets with increasing ids, reassembly ends with exactly those packets in order, unspoiled, at full size, with recovered equal to created fragments |
| Reassembly.FillRejoins | src/pdcp_layer/captured_packet_handler.cpp:66-94 | A grant's block delivered or dropped rejoins what was there: every packet once, in order, whole, or split at one seam |
| Reassembly.JoinCut | src/pdcp_layer/captured_packet_handler.cpp:204-231 | A further fragment leaves the seam between the same two halves, with sizes adding up and fragment counts agreeing |
| Reassembly.JoinLast | src/pdcp_layer/captured_packet_handler.cpp:204-231 | The last fragment closes the seam: all bits back, and as many fragments recovered as created unless spoiled |
| PdcpProgress.GrantLoopHalts | src/pdcp_layer/pdcp_layer.cpp:96-134 | The grant loop ends within some number of turns if and only if the grant is not strictly between 0 and 1 bit or nothing is queued |
| PdcpProgress.OnlyRetransmissionsExceed | src/pdcp_layer/pdcp_layer.cpp:96-154 | A grant reports more bits sent than it has if and only if it is spent on a retransmission that succeeds and is larger than the grant |
| PdcpProgress.CleanGrantsStayWithin | src/mac_layer/harq_handler.cpp:158-163 | Over every run without failed transmissions, as all are in the source as compiled: nothing waits for retransmission and no grant reports more than its bits |
| OnePacket.RetransmissionExceedsGrant | src/pdcp_layer/pdcp_layer.cpp:137-152 | With the disabled failures an input: a packet of 800 bits fails once, and a grant of 400 bits then reports 800 sent |
| PdcpLayer.TurnShrinks | src/pdcp_layer/pdcp_layer.cpp:102-130 | A turn with a whole bit to give takes bits out of the queues |
| IpBufferLaws.GetPktsKeeps | src/pdcp_layer/ip_buffer.cpp:97-140 | In both modes a whole-bit grant is used exactly or empties the buffer, despite drops and retries inside the dequeue; bits leave exactly with the packets sent, and occupancy stays exact |
| IpBufferLaws.FillBooks | src/pdcp_layer/ip_buffer.cpp:102-136 | The same for the packing loop: per-packet bits, at most one signal, queue contents |
| IpBufferLaws.GetPktsShrinks | src/pdcp_layer/ip_buffer.cpp:97-140 | A grant of at least one bit on a non-empty buffer strictly lowers the queued bits |
| DualPi2Laws.PopNextKeeps | src/pdcp_layer/dualpi2_queue.cpp:53-111 | The dequeue loop: bits go to the caller or the dropped queue, signals plus unmarked entries of a packet stay the same, statistics match the history, service stays fair |
| DualPi2Laws.JudgeKeeps | src/pdcp_layer/dualpi2_queue.cpp:79-104 | The AQM only marks ECT packets and only drops Not-ECT or ECT(0) ones, and a packet already marked is never signalled again |
| DualPi2Laws.JudgeAtExtremes | src/pdcp_layer/dualpi2_queue.cpp:228-233 | Saturated probabilities drop every classic packet and mark every L4S packet not CE yet, zero ones do nothing, and in between an ECT(0) packet is never dropped |
| DualPi2Laws.JudgeByDraw | src/pdcp_layer/dualpi2_queue.cpp:79-104 | In between, the next draw decides and is used up: a packet is signalled exactly if it is not CE yet and the draw lies below its probability; which signal is fixed by its code point and whether the classic probability is saturated |
| DualPi2Laws.SignallingNeverFalls | src/pdcp_layer/dualpi2_queue.cpp:79-104 | With the same draw, a higher classic or coupled probability never lets through what a lower one marks or drops |
| DualPi2Laws.ServiceIsRecorded | src/pdcp_layer/dualpi2_queue.cpp:53-111 | The dequeue history says what happens: the head that left its lane, its bits, the time, whether the other lane waited, and what became of the packet |
| DualPi2Laws.RampRises | src/pdcp_layer/dualpi2_queue.cpp:221-226 | The L4S ramp is 0 up to the threshold, rises with the delay by `range` per unit of probability, or jumps to the maximum without a range, and stays within the maximum |
| DualPi2Laws.MarkingNeverFalls | src/pdcp_layer/dualpi2_queue.cpp:79-85 | The L4S marking probability grows with delay and coupled probability, and is the larger of the ramp on the packet's own delay and the coupled one within the maximum |
| DualPi2Laws.OldestIsEarlierHead | src/pdcp_layer/dualpi2_queue.cpp:143-150 | The oldest packet shown is the head that arrived first, the L4S one on a tie |
| DualPi2Laws.PopOldestKeeps | src/pdcp_layer/dualpi2_queue.cpp:126-141 | The packet popped is the one peeked; only its bits leave |
| DualPi2Laws.SignalsAreDistinct | src/pdcp_layer/dualpi2_queue.cpp:243-260 | If nobody is signalled twice, marks plus drops are the number of distinct packets signalled |
| DualPi2Laws.ClassicIsRateLimited | src/pdcp_layer/dualpi2_queue.cpp:235-241 | While L4S traffic waits, two classic dequeues are at least the guard apart |
| DualPi2Laws.L4sCannotStarveClassic | src/pdcp_layer/dualpi2_queue.cpp:235-241 | While classic traffic waits, L4S is served only within the guard after a classic dequeue |
| DualPi2Laws.TakeReportKeeps | src/pdcp_layer/dualpi2_queue.cpp:193-208 | Handing out an interval report keeps total = reports + open interval |
| PiControl.SquareCoupling | src/pdcp_layer/dualpi2_queue.cpp:273-288 | After any list of updates, p_C = (p_CL/k)^2 below saturation |
| PiControl.UpdatesIntegrate | src/pdcp_layer/dualpi2_queue.cpp:273-288 | As long as nothing is cut off, any updates together change p_base by alpha times the sum of the delays above the target plus beta times the last delay less the one before the first |
| PiControl.GainsFollowTheRtt | src/pdcp_layer/dualpi2_queue.cpp:273-288 | The update period is the shorter of the target and a third of the maximum RTT; alpha is 0.1 of it over the square of that RTT, beta 0.3 over that RTT (RFC 9332 Appendix A) |
| PiControl.DelayIsLongestWait | src/pdcp_layer/dualpi2_queue.cpp:273-288 | The delay the controller sees is the longest wait of the two heads |
| PiControl.NoUpdateWithinAPeriod | src/pdcp_layer/dualpi2_queue.cpp:273-288 | After an update the registers stay until a whole period is over |
| PiControl.OverloadRaises | src/pdcp_layer/dualpi2_queue.cpp:273-288 | N updates with non-decreasing delay at least target+d raise p_base by at least N alpha d or saturate it |
| PiControl.IdleLowers | src/pdcp_layer/dualpi2_queue.cpp:273-288 | N updates with empty queues lower p_base by at least N alpha target or bring it to 0 |
| PiControl.StepsAreUpdates | src/pdcp_layer/dualpi2_queue.cpp:158-163 | Ticks spaced by the update period are updates on the larger of the two head delays |
| PiControl.StalledHeadRaises | src/pdcp_layer/dualpi2_queue.cpp:273-288 | A head that is not served raises p_base by at least alpha d per update until it saturates |
| PiControl.StalledPacketRaises | src/pdcp_layer/dualpi2_queue.cpp:273-288 | So does any one packet that waits at the head of its lane |
| DualPi2.DualPi2Queue.Enqueue | src/pdcp_layer/dualpi2_queue.cpp:32-46 | The packet joins the tail of its class's lane and its bits that lane's counter; nothing else changes |
| DualPi2.DualPi2Queue.PopNext | src/pdcp_layer/dualpi2_queue.cpp:53-111 | The loop returns the first packet the AQM lets through; the ones it drops on the way go to the dropped queue with statistics and random draws used accordingly |
| DualPi2.DualPi2Queue.ServeOne | src/pdcp_layer/dualpi2_queue.cpp:55-107 | One turn of the loop; its swap to the other queue is not in the specification, so it is never taken |
| DualPi2.DualPi2Queue.PopOldest | src/pdcp_layer/dualpi2_queue.cpp:126-141 | Takes the head that arrived first out of its lane and counter |
| DualPi2.DualPi2Queue.PopDropped | src/pdcp_layer/dualpi2_queue.cpp:118-124 | Takes the first uncollected victim |
| DualPi2.DualPi2Queue.MaybeUpdatePi | src/pdcp_layer/dualpi2_queue.cpp:273-288 | Nothing before the update time; then one controller step on the larger head delay |
| DualPi2.DualPi2Queue.GetIntervalStats | src/pdcp_layer/dualpi2_queue.cpp:193-208 | Returns the open interval and starts a new one; totals stay |
| IpBuffer.IpBuffer.AddPkt | src/pdcp_layer/ip_buffer.cpp:72-87 | Refused, with nothing changed, exactly when it does not fit; else counted and queued |
| IpBuffer.IpBuffer.Requeue | src/pdcp_layer/ip_buffer.cpp:256-265 | A fragment goes to the FIFO's front, a whole packet to its tail, and everything to a lane's tail in dual mode |
| IpBuffer.IpBuffer.Fill | src/pdcp_layer/ip_buffer.cpp:102-136 | The packing loop: whole packets while they fit, then one cut whose rest is requeued; the running total is the bits sent |
| IpBuffer.IpBuffer.GetPkts | src/pdcp_layer/ip_buffer.cpp:97-140 | The packing loop, then the occupancy lowered by the bits sent |
| IpBuffer.IpBuffer.PopOldest | src/pdcp_layer/ip_buffer.cpp:167-187 | The oldest packet leaves with its bits |
| IpBuffer.IpBuffer.PopAqmDropped | src/pdcp_layer/ip_buffer.cpp:212-226 | An uncollected victim leaves with its bits |
| IpBufferLaws.AddPktKeeps | src/pdcp_layer/ip_buffer.cpp:72-87 | Admission adds exactly the packet's bits to the books |
| IpBufferLaws.PopOldestKeeps | src/pdcp_layer/ip_buffer.cpp:167-187 | What is popped is what was shown as oldest, and exactly its bits leave |
| IpBufferLaws.TakeReportKeeps | src/pdcp_layer/ip_buffer.cpp:206-210 | An interval report changes nothing but the open interval; what it hands out is what the sum of all reports grows by, nothing in FIFO mode |
| IdentityLaws.GetPktsGenuine | src/pdcp_layer/ip_buffer.cpp:97-140 | Cut, marked or requeued, everything stays a piece of something captured: size at capture, arriving code point, code point explained by its mark |
| Packets.SortByUidSorts | include/pkts/pkts.h:100-103 | Sorting by uid gives an ordered list of the same packets |
| Harq.HarqHandler.Queue | src/mac_layer/harq_handler.cpp:34-45 | A failed block goes to the back with one more transmission; the cached time becomes its own |
| Harq.HarqHandler.AddPkts | src/mac_layer/harq_handler.cpp:47-56 | A block goes to the back; the cached time becomes its own |
| Harq.HarqHandler.GetPkt | src/mac_layer/harq_handler.cpp:64-81 | The front block leaves; the cached time becomes the next front's, or infinity |
| Harq.HarqHandler.PopPktOlderThan | src/mac_layer/harq_handler.cpp:83-110 | The first block over the limit leaves, the order of the rest kept; none exactly when no block is over it |
| HarqLaws.FiveTurnsAtMost | src/pdcp_layer/pdcp_layer.cpp:136-153 | Within its allowance a block is served at most five times and has left by the fifth |
| HarqLaws.ServeKeepsTurns | src/pdcp_layer/pdcp_layer.cpp:137-152 | Delivery, requeue below the limit and giving up at it all keep the allowance |
| HarqLaws.BlocksAreServedInOrder | src/mac_layer/harq_handler.cpp:34-81 | First in, first out: the ids served and then the ids waiting only ever grow at the end |
| HarqLaws.ReadyAfterTheDelay | src/mac_layer/harq_handler.cpp:34-81 | When the front may be taken: after an insertion at the end of the acknowledgement delay of the block inserted last, counted from when it was built; after a removal at that of the new front |
| HarqLaws.TurnsEmptyTheBuffer | src/pdcp_layer/pdcp_layer.cpp:137-152 | With nothing new arriving, the turns the buffered blocks have left empty the buffer, whatever fails |
| CapturedHandler.CapturedPacketHandler.Ingest | src/pdcp_layer/captured_packet_handler.cpp:37-56 | Every captured packet becomes an ingress packet of 8 bits a byte, in order, each pointing at its predecessor |
| CapturedHandler.CapturedPacketHandler.DropIngressPkt | src/pdcp_layer/captured_packet_handler.cpp:58-64 | A refused packet joins the reassembly list spoiled, and the list is sorted |
| CapturedHandler.CapturedPacketHandler.Push | src/pdcp_layer/captured_packet_handler.cpp:66-80 | A delivered block's fragments join their packets' entries or start them, stamped with its release time, and the list is sorted |
| CapturedHandler.CapturedPacketHandler.DropBlock | src/pdcp_layer/captured_packet_handler.cpp:82-94 | A dropped block's fragments spoil their packets' entries or start spoiled ones; no sorting |
| CapturedHandler.CapturedPacketHandler.Release | src/pdcp_layer/captured_packet_handler.cpp:96-157 | The loop tells and removes front packets until one is incomplete, out of order or not due; the bits returned are the sizes of the packets accepted |
| CapturedHandlerLaws.PushKeeps | src/pdcp_layer/captured_packet_handler.cpp:66-80 | Delivery moves exactly the block's bits of each packet to reassembly |
| CapturedHandlerLaws.DropBlockKeeps | src/pdcp_layer/captured_packet_handler.cpp:82-94 | So does a drop |
| CapturedHandlerLaws.DropIngressKeeps | src/pdcp_layer/captured_packet_handler.cpp:58-64 | So does a refusal |
| CapturedHandlerLaws.DropMovesNothing | src/pdcp_layer/captured_packet_handler.cpp:82-94 | A drop moves no entry: those of its packets are spoiled where they stand, or new spoiled ones join the end; all others stay as they are |
| CapturedHandlerLaws.DeliverySorts | src/pdcp_layer/captured_packet_handler.cpp:66-80 | After a delivery the entries are in order of ids |
| CapturedHandlerLaws.IngestKeeps | src/pdcp_layer/captured_packet_handler.cpp:37-56 | Ingest moves exactly the captured bits to ingress |
| CapturedHandlerLaws.ToldIsVerdicts | src/pdcp_layer/captured_packet_handler.cpp:244-261 | The bits told for a packet are its captured size once per verdict |
| Capture.PktCapture.Verdict | include/netfilter/pkt_capture.h:90-122 | What the kernel is told, with the payload rewritten for a CE verdict and a drop if none is stored; the payload is forgotten |
| Capture.PktCapture.EnqueueCapturedPacket | include/netfilter/pkt_capture.h:203-208 | The payload is stored under the id and the packet queued |
| Ipv4Ecn.ApplyIpv4Ecn | include/netfilter/pkt_capture.h:189-200 | In place: the rewritten header, or nothing for a malformed one |
| Ipv4Ecn.ComputeChecksum | include/netfilter/pkt_capture.h:177-187 | The 32-bit loop computes the complemented folded sum of the 16-bit words, odd byte included |
| Ipv4Ecn.RewrittenVerifies | include/netfilter/pkt_capture.h:189-200 | For a packet of at least 20 bytes whose first byte announces a header of at least 20 that is there: after the rewrite the checksum over 4 times the low half of that byte is 0, those bytes are a multiple of 65535 as one number, and the sum fits 32 bits (RFC 791 section 3.1, RFC 1071 section 1) |
| Ipv4Ecn.RewrittenTouchesOnlyEcn | include/netfilter/pkt_capture.h:189-200 | For such a packet only the two ECN bits and the checksum bytes change; any other is left alone |
| Ipv4Ecn.FoldPreserves | include/netfilter/pkt_capture.h:185-186 | Folding carries ends and preserves the sum modulo 65535 |
| Ipv4Ecn.ChecksIsMultiple | include/netfilter/pkt_capture.h:177-187 | A header checks exactly if it is a positive multiple of 65535 read as one big-endian number |
| PdcpLayer.PdcpLayer.StepTo | src/pdcp_layer/pdcp_layer.cpp:44-53 | A tick: clocks, ingest, ingress to buffer, victims collected, expired packets and blocks dropped |
| PdcpLayer.PdcpLayer.DrainIngress | src/pdcp_layer/pdcp_layer.cpp:55-64 | Each ingress packet is admitted or refused, in order |
| PdcpLayer.PdcpLayer.CollectDropped | src/pdcp_layer/pdcp_layer.cpp:65-70 | Every uncollected victim is handed to `drop` |
| PdcpLayer.PdcpLayer.CleanupExpiredIpPkts | src/pdcp_layer/pdcp_layer.cpp:219-232 | The oldest packet is dropped, in a block of its own, while it is over budget |
| PdcpLayer.PdcpLayer.CleanupExpiredHarqPkts | src/pdcp_layer/pdcp_layer.cpp:234-241 | Blocks over budget are dropped one by one |
| PdcpLayer.PdcpLayer.Turn | src/pdcp_layer/pdcp_layer.cpp:102-130 | One turn of the grant loop: a block is cut and dropped, kept for retransmission or delivered |
| PdcpLayer.PdcpLayer.HandlePkt | src/pdcp_layer/pdcp_layer.cpp:96-154 | A ready block is served first, requeued below four retransmissions or given up; otherwise the grant loop serves the buffer |
| SimPipeline.SimulatedPacketsGetOneVerdict | src/pdcp_layer/pdcp_layer.cpp:44-161 | Over every run of the pipeline with simulated traffic, in either mode and with its loop turns in any order: the handler is never given more of a packet than was generated; the packet is pending exactly while partly told; it has one verdict exactly when all of it is told, DROP if any of it was dropped, else ACCEPT_CE if any was marked, else ACCEPT |
| SimPipeline.AdmittedPacketsAreTold | src/pdcp_layer/pdcp_layer.cpp:44-161 | Which simulated packets get a verdict: once a run has emptied the pipeline, a generated packet has exactly one, the one its pieces deserve in whatever order they came, if and only if it was not refused for want of room |
| SimRuns.RunsAreTurns | src/pdcp_layer/pdcp_layer.cpp:44-154 | Any ticks, grants and releases, with the source's own loops in the source's order, are turns of that pipeline, so the results about turns in any order hold of them |
| SimPipeline.GoFeeds | src/pdcp_layer/pdcp_layer.cpp:44-161 | The invariant behind it: what is held of a packet plus what was handed over is exactly what was generated of it, or nothing if it was refused, and every piece knows its packet's size |
| SimulatedLaws.ReleaseKeeps | src/pdcp_layer/simulated_packet_handler.cpp:47-78 | A release moves exactly the due blocks' bits from queued to told |
| SimulatedLaws.ToldOnceDue | src/pdcp_layer/simulated_packet_handler.cpp:47-78 | A delivered block is told by the first release at or after its time out plus backhaul delay plus jitter, behind the due blocks before it, and kept in its place by any earlier one |
| Simulated.SimulatedPacketHandler.Ingest | src/pdcp_layer/simulated_packet_handler.cpp:17-37 | Generated bits become packets with consecutive ids, all of the configured size but possibly the last, adding up exactly |
| Simulated.SimulatedPacketHandler.UpdatePendingPacket | src/pdcp_layer/simulated_packet_handler.cpp:80-95 | A fragment is added to its packet's pending entry, which becomes a verdict when all bits are in |
| Simulated.SimulatedPacketHandler.Release | src/pdcp_layer/simulated_packet_handler.cpp:47-78 | Blocks that are due are told in order and removed, the others stay in order; the bits returned are those of the due blocks |
| Simulated.SimulatedPacketHandler.Drop | src/pdcp_layer/simulated_packet_handler.cpp:39-45 | Each fragment of the block is told as dropped |
| Simulated.SimulatedPacketHandler.Push | src/pdcp_layer/packet_handler.cpp:65-69 | The block is queued with its backhaul delay added |
| ThreadPoolLaws.BatchRunsEachJobOnce | include/threading/thread_pool.h:49-118 | After any interleaving of any number of workers, a batch that is over has run every job of its list exactly once and nothing else |
| ThreadPoolLaws.BatchesDoNotOverlap | include/threading/thread_pool.h:76-118 | When a worker can take a job, the next in the list, every task of earlier batches is finished |
| ThreadPoolLaws.WaitMeansDone | include/threading/thread_pool.h:68-72 | The waiting thread is let through only when no worker has a job and every job of every batch is done |
| ThreadPoolLaws.BatchTakesTwoStepsAJob | include/threading/thread_pool.h:76-118 | A batch of at least one job is over after exactly two worker steps a job; until then the waiting thread is held and some worker can move |
| ThreadPoolLaws.EmptyBatchNeverEnds | include/threading/thread_pool.h:58-67 | A batch started on an empty list leaves the pool running for ever: once a job is added no interleaving lets the waiting thread through |
| ThreadPoolLaws.StepKeeps | include/threading/thread_pool.h:49-118 | Every critical section keeps the barrier's invariant and every task's count |
| ThreadPool.ThreadPool.DoJob | include/threading/thread_pool.h:49-56 | The job joins the list and the goal grows |
| ThreadPool.ThreadPool.DoJobs | include/threading/thread_pool.h:58-67 | A new batch unless one is running |
| ThreadPool.ThreadPool.Take | include/threading/thread_pool.h:82-102 | The next job of the list if the batch has one left, else nothing |
| ThreadPool.ThreadPool.Finish | include/threading/thread_pool.h:105-115 | One job fewer outstanding; the last one ends the batch |
| TddLaws.TotalsFollowThePattern | src/mac_layer/tdd_handler.cpp:39-52 | After calls of any sizes the cursor stands for the symbols consumed modulo the pattern, and the total granted is the count of the direction's symbols in that window of the repeated pattern |
| TddLaws.DirectionsShareTheSlots | src/mac_layer/tdd_handler.cpp:39-52 | Handlers built alike: every symbol consumed is granted to one direction or, as the pattern says, to neither, never to both |
| TddLaws.DriveBoth | src/mac_layer/tdd_handler.cpp:34-52 | The two handlers driven in place: same cursor throughout, totals as above |
| TddLaws.WholePatterns | src/mac_layer/tdd_handler.cpp:39-52 | k patterns' worth of symbols from any position grant k times what one does |
| TddLaws.PatternGrants | src/mac_layer/tdd_handler.cpp:4-17 | One pattern grants each direction its slots and its part of the transition slot |
| TddLaws.DownlinkFirstUplinkLast | src/mac_layer/tdd_handler.cpp:4-17 | A pattern starts with all it grants the downlink and ends with all it grants the uplink |
| TddLaws.FallbackGrants | src/mac_layer/tdd_handler.cpp:4-17 | A transition outside 1..61 is replaced by 12 downlink symbols and 2 of neither direction |
| TddLaws.PatternExists | include/mac_layer/mac_definitions.h:61-128 | A configuration has an empty pattern, and so no usable counter, exactly when it asks for no slots and for row 61, which the table declares and does not write |
| Tdd.TddHandler.constructor | src/mac_layer/tdd_handler.cpp:4-17 | Downlink slots, the transition slot, uplink slots |
| Tdd.TddHandler.GetSyms | src/mac_layer/tdd_handler.cpp:39-52 | The loop counts the direction's symbols in the next window and moves the cursor, at most one past the end |
| Cyclic.PlaceIsRemainder | src/mac_layer/tdd_handler.cpp:45-48 | Wrapping by subtraction is the remainder of division |
| Cyclic.EveryPlaceOnce | src/mac_layer/metric_handler.cpp:135-145 | In any full round of a rotation every place comes up exactly once |
| SchedulerLaws.EveryBlockIsServedInTurn | src/mac_layer/resource_grid.cpp:139-162 | Round robin with at least two frequency groups, over any slots: the turn goes round by the number of blocks considered; the UE whose turn it is wins if it has data, else some UE with data does, and the block stays empty exactly when nobody has data |
| SchedulerLaws.EachUeInTurn | src/mac_layer/metric_handler.cpp:135-145 | Any n consecutive blocks considered give each of n UEs its turn exactly once |
| SchedulerLaws.GridInLockstep | src/mac_layer/metric_handler.cpp:135-145 | Whatever is offered, every UE's copy of the round-robin state stays the same |
| SchedulerLaws.RotatesExactlyWithTwoGroups | src/mac_layer/metric_handler.cpp:135-145 | The turn rotates if and only if there are at least two frequency groups or one UE; with one group it sticks after the first block |
| SchedulerLaws.TurnWinsElseSomeoneWithData | src/mac_layer/resource_block.cpp:45-61 | The same for one block |
| SchedulerLaws.BestOfferWins | src/mac_layer/resource_block.cpp:45-61 | Without round robin: the block goes to the UE with data that offers the highest metric, the last on a tie, and to nobody exactly if no UE with data offers -1 or more |
| SchedulerLaws.EveryUeHasATurn | src/ue/ue_handler.cpp:15-47 | For every list of groups and single UEs added in any order: the rotation designates some UE on every turn if and only if no UE was ever added singly |
| SchedulerLaws.FirstSingleSkipsItsTurn | src/ue/ue_handler.cpp:37-47 | The turn nobody has is the place of the first UE added singly, whatever is added later |
| Scheduler.SelectFindsLastBest | src/mac_layer/resource_block.cpp:45-61 | For any metric: the block goes to the last of the candidates with data whose metric is highest, to nobody exactly when none reaches the initial -1 |
| Scheduler.MetricHandler.GetRrMetric | src/mac_layer/metric_handler.cpp:135-145 | The turn moves on when another frequency index comes up; 1 for the UE whose turn it is, else 0 |
| Scheduler.Ue.GetScheduleCandidate | src/ue/ue.cpp:251-260 | Data means packets and a positive rate; only round robin touches the UE's state |
| Scheduler.Rb.EstimateParams | src/mac_layer/resource_block.cpp:45-61 | Without symbols nobody is asked; otherwise each UE once, and the register holds the best candidate |
| Scheduler.Rb.HandlePacket | src/mac_layer/resource_block.cpp:64-86 | A kept candidate with a rate is served with its rate times the symbols, and what it reports sent is kept; the register is cleared either way |
| Scheduler.GridStep | src/mac_layer/resource_grid.cpp:125-168 | All blocks of all slots in order, leaving every register cleared for the next step; the report counts blocks served, blocks left empty, different UEs served, and the bits granted and sent |
| Scheduler.StepMetrics.Note | src/mac_layer/resource_grid.cpp:149-160 | A UE is counted once a step however many blocks it gets; every block adds the bits granted and sent on it |

## Left out

- Floating-point rounding: sizes and grants are whole bits, so the 0.99-bit margin means equality; times and
  probabilities are real numbers. Packet sizes are at least one bit and the configured maximum RTT is positive.
- Unsigned ids: uids are natural numbers below 2^31, where the stored predecessor of the first packet reads back as -1.
- Throughput, latency and error means, interval packet counters, queue status and snapshots: reporting only.
- `oldest_t` in the buffers and `rtx_mbit` in the retransmission buffer: nothing modelled reads them. The id of the
  block a victim is reported in is unset in the source and 0 here; nothing reads it.
- MCS, SINR and distance: they only reach the failure question and the acknowledgement delay, which are inputs.
- The disabled retransmission oracle: failures are arbitrary inputs, which covers the compiled `false` and the disabled
  formula.
- Backhaul jitter and the backend's per-packet backhaul fields: the block's own fields are the ones used.
- `dualpi2_queue::clear` and reconfiguration after the start: never called on the path modelled.
- The generator of `ip_buffer::generate`: superseded by the packet handlers' ingest.
- The base packet handler's `release`, one verdict per fragment: both handlers that are built override it.
- The stored payload's `original_ecn` and the log line on out-of-order verdicts: nothing depends on them.
- SimulatedLaws.VerdictIgnoresOrder: states the handler alone, so that no more of a packet is handed over than there is
  of it is a premise; `SimulatedPacketsGetOneVerdict` and `AdmittedPacketsAreTold` show it of every run of the pipeline.
- SimulatedLaws.OneVerdictWhenAllIsTold: the same premise, met in the same place.
- The orchestration over the simulated handler is on values only; in place it is the code that `PdcpLayer.PdcpLayer`
  models over the captured one.
- MarkLaws.EarlyMarksReachVerdicts: does not cover failed transmissions, which the source as compiled never has and
  where a retransmitted first piece could arrive after a marked one; `FirstPieceDecides` says which mark counts then.
- Draining.DrainTellsAll: with the order check on, only FIFO mode with a clean link is covered (`DrainTellsInOrder`);
  elsewhere the check can hold entries back for good (`NoMoreVerdicts`).
- DropCauses.OnlyTheAqmDrops: does not cover what is dropped once something is over budget in dual mode, where a block
  goes with its heads (`TurnDecides`); ticks take exactly the late fronts there too (`StepTakesLateFronts`).
- Netlink, sockets, logs, monitoring, dashboards: a capture is an arbitrary event.
- Thread shutdown, spurious and lost wake-ups: a thread whose condition holds can move; starting a batch is one step,
  and jobs are added only while the pool is idle, as the callers do.
- `tdd_handler::step`, which moves the cursor without wrapping: not part of the counter's use.
- PHY, mobility, configuration parsing and grid construction: bits per symbol, metrics other than round robin, the
  symbols per slot and the sizes of the grid are inputs.
- What a scheduled UE sends is the pipeline's `handle_pkt`; to the scheduler it is an input. The grid's capacity, its
  count of UEs with data and the ratios of the counts it reports are left to the reader of the report.
