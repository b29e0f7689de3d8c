# Multilink: a verified model

Multilink joins several unreliable FIFO byte links into one packet stream. This
project models its layers in Dafny and proves what they promise together:

- **Link** (`LinkSpec`, `LinkImpl`): byte framing over a stream that takes and
  yields as many bytes as it likes, a one-slot send buffer, edge-triggered
  wakeups, and the ping/pong acknowledgement of data frames that carry no number.
- **Multilink** (`Scheduling`, `Heap`, `MultilinkImpl`): the shared queue, the
  per-link queues, the greedy heap scheduler, and the return of packets from
  timed-out links.
- **Transport** (`TransportSpec`, `TransportImpl`): numbering per channel, and the
  sliding reorder buffer that removes duplicates.
- **The system** (`SystemSpec`, `SystemInvariant`, `EndToEnd`): two endpoints, any
  number of cables, down to the bytes on each cable. Steps are single turns of
  the handlers' loops, taken by either side in any order; assignment to links is one
  step, greedy, and taken only for a link without packets of its own. A channel that
  `add_target` has replaced stays in the model: its target's callbacks still hold it.
- **Beside the stack**: Internet checksums and the address rewrite (`Checksum`,
  `IpPacket`), sliding-window statistics (`Statistics`), the delaying pipe (`Delay`).

How the parts fit: a link end is a value (`LinkState`) and its handlers are
functions on it. `LinkImpl.Link` is the object with its buffers and loops, each
method proved equal to its function. `LinkInvariants` holds what one end keeps
whatever its peer does; `LinkPair` what two ends keep together; `LinkLaws` says what
each handler does without naming its definition, and `RunLaws` lifts that to every
run; the system is built from the same functions. Fields marked as history record what was sent and
received, so that statements about runs can be written about states.

The main results are in `EndToEnd`: in every run, what a channel's target has been
given is a prefix of what was read from its peer (`InOrderExactlyOnce`); nothing
accepted, close packets included, is lost: it is still held, or a link of the peer has
returned it (`NoLoss`, `NothingLostInRuns`); a slot of a reorder buffer is
filled if and only if a link has returned that packet (`FilledIffReceived`); once a
sender's queues are empty the receiver has everything without a hole
(`QuiescentComplete`); acknowledgements are sound and never decrease
(`AcksSoundInRuns`, `AcksNeverDecrease`); and the links refine their frames byte by
byte (`LinksRefine`). `RunLaws` adds, for every run: a link times out exactly when its
timer finds a packet more than eight seconds in flight, and only then is removed
(`TimeoutsInRuns`); its round trip time is the age of a ping of its own
(`RoundTripsMeasured`); every pong answers a ping and none that is owed is forgotten
(`AnswersInRuns`); the end of a failed channel is announced or waits to be
(`ClosesAnnounced`). `Witness.PacketArrives` gives, for every channel and packet, a
run that delivers it.

Runs include every use of `add_target`. What it breaks is confined to the channel it
replaces: an id enters the history `restarted` when its old channel had sent or
still could, and `forgotten` when it had received, and the results above hold for
every id that is not in the one (sending) or the other (receiving).

Places where the code departs from its intent are kept as they are, each with the
exact condition and with a run or an input that shows it (`Replacement`, `Loss`,
`Stall`, `Findings`, and beside the code concerned):

- `add_target` gives an id to a new channel even if another has it, and the two then
  number their packets independently (ids can collide: terminate/terminate.cpp:31-33
  starts the two sides' counters at 100 and 102, and both count up by one).
  `ReplacingIsHarmless`: in every state a run reaches with the numbering of an id in
  order, it stays so whatever happens next if and only if the id was free or reserved,
  or its channel had sent nothing and had lost its target. `PacketLost` is a run in
  which two packets are read and acknowledged and only one is delivered. For the
  receiving direction, `ReplacingForgetsNothing`: the new channel has exactly the packets that
  came in under its id, in all continuations, if and only if the old one had received
  nothing; `PacketForgotten` is a run in which completeness fails, and
  `ReplacingKeepsComplete` says when it does not.
- `transport_read_ready` stops with room in its buffer and bytes in the
  edge-triggered stream exactly when it was entered with a full buffer that held a
  whole frame: `LinkImpl.Link.TransportReadReady` states both directions, and
  `ReadingStalls` is a run that ends so, with no read scheduled.
- `maybe_retransmit` reads the front of an empty queue when bufferbloat avoidance
  is on and nothing is in flight. `IdleLinkTurnsUndefined` is a run that ends with
  a live link in such a state.
- `place_packet` aborts exactly beyond the window of 16384 (`PlaceRefines`), and
  nothing keeps a fast link from running that far ahead of a slow one: in the run
  `WindowOverrun`, packet 0 is stuck in the first link and the scheduler sends the
  next 16384, one by one, over the second.
- The comment on `assign_links_until` promises packets for the link that asked. The
  code ignores that link: `OutbidGetsNothing` says when a link gets none,
  `AskerGetsNothing` and `AskerStarves` are an instance, and `LeaderGetsPacket` says
  which link gets a packet, up to ties.
- `udp4_fill_checksum` fails for header lengths 8 and 12 (`UdpFilledVerifies`,
  `OverlappingFieldFails`) and skips segments under 16 bytes, whose checksum the
  address rewrite then breaks (`SkippedSegment`, `ShortDatagramFails`).
- `ip4_fill_checksum` fails for header lengths under 12 (`IpFilledVerifies`).
- `data_written` divides by zero when its full window is no older than the present
  clock reading (`Defined` is the precondition of `DataWritten`);
  `WritesWithinOneReading` gets there.

Conventions: the host is little-endian; unsigned 64-bit arithmetic wraps where it is
computed; a handler works with one clock reading, and readings never go back.

## Model

| member | source | states |
|---|---|---|
| `Bytes.LERoundTrip` | libreactor/buffer.h:11-27 | an integer stored byte by byte in host order and read back is itself |
| `Bytes.LERoundTripBack` | libreactor/buffer.h:11-27 | bytes read as an integer and stored again are themselves |
| `Bytes.U64RoundTrip` | libreactor/buffer.h:87-91 | a 64-bit field reads back at its offset whatever surrounds it |
| `Bytes.LittleEndian` | libreactor/buffer.h:11-27 | a 64-bit field read from the buffer has its least significant byte first |
| `Frames.ParseEncoded` | multilink/multilink_link.cpp:195-281 | the parser inverts the formatter for every frame within the MTU, whatever follows; the 16-bit length never overflows |
| `Frames.FrameLayout` | multilink/multilink_link.cpp:190-204 | the wire format byte by byte: big-endian total length, type 0, 1 or 2, body |
| `Frames.ParsePrefixWaits` | multilink/multilink_link.cpp:226-245 | a strict prefix of a frame makes the parser wait |
| `Frames.ParseCut` | multilink/multilink_link.cpp:206-245 | wherever the stream has been cut, the parser waits or yields exactly the first frame, and waits exactly when that frame is not whole |
| `Frames.EncodeAllAppend` | multilink/multilink_link.cpp:195-204 | the byte stream of a run of frames is the concatenation of its parts |
| `LinkSpec.SendAux` | multilink/multilink_link.cpp:146-188 | send_aux returns false exactly when the send buffer is empty after it |
| `LinkSpec.SendData` | multilink/multilink_link.cpp:123-140 | an accepted packet takes the next number, joins the in-flight queue and its byte count, and its frame is all the send buffer holds; a refused one changes none of these |
| `LinkSpec.ParseAll` | multilink/multilink_link.cpp:215-216 | the parse loop ends only with a waiting packet or without a whole frame |
| `LinkInvariants.FlushCountMeaning` | multilink/multilink_link.cpp:299-308 | the flushed prefix is exactly the packets numbered up to the acknowledgement |
| `LinkInvariants.FlushSplits` | multilink/multilink_link.cpp:299-308 | flushing moves packets without losing or reordering any, and in_flight_bytes stays the sum of the sizes |
| `LinkInvariants.FrontIsOldest` | multilink/multilink_link.cpp:51-68 | wherever the code is defined, testing the front is testing whether any packet is older than the timeout |
| `LinkInvariants.ParseAllKeeps` | multilink/multilink_link.cpp:226-281 | the parse loop keeps the link invariant and leaves no unscheduled work |
| `LinkInvariants.StepKeeps` | multilink/multilink_link.cpp:29-34 | every step keeps: no partly written frame is overwritten, the edge flag is down exactly when one edge callback is scheduled, unsent bytes wait for a write or a refusing stream, a parsable frame has a read scheduled, the in-flight queue is ordered by number and time and its byte count right |
| `LinkInvariants.InternalTraffic` | multilink/multilink_link.cpp:78-121 | no handler but send and recv changes which packets were sent or returned |
| `LinkLaws.PongMeasures` | multilink/multilink_link.cpp:261-297 | a pong sets the round trip time to its age, and avoidance by the two marks; its end is reported |
| `LinkLaws.AuxSends` | multilink/multilink_link.cpp:146-188 | what goes out when: nothing during a write, else the pong owed, else a ping once a quarter of a second has passed |
| `LinkLaws.SendTakes` | multilink/multilink_link.cpp:123-140 | a packet is taken exactly when the link is up, avoidance is off, and there is nothing to write, answer or ask first |
| `LinkLaws.WrittenAsks` | multilink/multilink_link.cpp:86-109 | when the stream has taken everything, the edge callback is scheduled |
| `LinkLaws.TimerTimesOut` | multilink/multilink_link.cpp:41-68 | the timer callback times a live link out exactly when some packet is more than eight seconds in flight, and reports it |
| `LinkLaws.EventLaw` | multilink/multilink_link.cpp:29-49 | every event keeps: pongs answer pings, a pong owed will be sent, pings carry own clock readings; only the timer times out; owners are told |
| `LinkReading.ReadJoins` | multilink/multilink_link.cpp:206-224 | two reads in a row leave the link as one read of the joined bytes |
| `LinkReading.ReadOneFrame` | multilink/multilink_link.cpp:206-281 | reading one whole frame into an empty buffer is handling that frame |
| `LinkPair.BytesToCome` | multilink/multilink_link.cpp:78-121 | what one end has buffered and what is still to come encode exactly the frames it has not parsed |
| `LinkPair.NextFrame` | multilink/multilink_link.cpp:226-245 | the parser takes exactly the peer's next frame and fails no assertion |
| `LinkPair.PingQueued` | multilink/multilink_link.cpp:168-177 | a ping announces only packets that precede it in the stream |
| `LinkPair.PingHeard` | multilink/multilink_link.cpp:256-260 | when a ping is parsed, every packet it announces has been returned by recv, because the parser stops at an untaken packet |
| `LinkPair.PongParsed` | multilink/multilink_link.cpp:261-277 | a pong never lowers the acknowledgement and drops only packets the peer has returned |
| `LinkPair.DataQueued` | multilink/multilink_link.cpp:123-140 | sending under a higher number keeps every acknowledgement on its way sound |
| `LinkPair.PairStep` | multilink/multilink_link.cpp:78-331 | every step of either end keeps the byte refinement and the soundness of acknowledgements, and never lowers one |
| `LinkPair.InOrder` | multilink/multilink_link.cpp:310-331 | recv returns the sender's packets in order, each once |
| `LinkPair.AckSound` | multilink/multilink_link.cpp:299-308 | whatever was dropped as acknowledged the peer's recv has returned; acknowledgements do not exceed last_seq_sent |
| `LinkPair.FullBufferParses` | multilink/multilink_link.cpp:206-245 | a full receive buffer always holds a whole frame |
| `LinkImpl.DeleteStart` | libreactor/buffer.cpp:6-10 | the tail of the buffer ends up at its start |
| `LinkImpl.CopyInto` | libreactor/buffer.h:57-60 | the bytes land at the offset and those before it stay |
| `LinkImpl.Link.constructor` | multilink/multilink_link.cpp:13-35 | a new link is the fresh value |
| `LinkImpl.Link.FormatSendPacket` | multilink/multilink_link.cpp:195-204 | the send buffer holds exactly the encoded frame |
| `LinkImpl.Link.RawSendPacket` | multilink/multilink_link.cpp:190-193 | frame formatted and one write scheduled, nothing else |
| `LinkImpl.Link.SendPing` | multilink/multilink_link.cpp:168-177 | a ping carrying the clock and the last number used |
| `LinkImpl.Link.SendPong` | multilink/multilink_link.cpp:179-188 | the pending request is echoed and cleared |
| `LinkImpl.Link.SendAux` | multilink/multilink_link.cpp:146-162 | equals its function, and reports whether the buffer is busy |
| `LinkImpl.Link.Send` | multilink/multilink_link.cpp:123-140 | equals its function, and reports acceptance |
| `LinkImpl.Link.WriteLoop` | multilink/multilink_link.cpp:86-109 | the stream gets exactly the bytes that leave the buffer, in order |
| `LinkImpl.Link.TransportWriteReady` | multilink/multilink_link.cpp:78-121 | for every way the stream takes bytes: the new state, the stream's bytes, and when the bandwidth estimator's burst runs and ends; it stops only with an empty buffer or a stream without room |
| `LinkImpl.Link.OnSendReadyEdge` | multilink/multilink_link.cpp:29-34 | the edge is raised again and the owner asked exactly when the link is idle |
| `LinkImpl.Link.FlushInFlightQueue` | multilink/multilink_link.cpp:299-308 | exactly the acknowledged prefix leaves and its bytes are subtracted |
| `LinkImpl.Link.BufferbloatCheck` | multilink/multilink_link.cpp:283-297 | the two marks, with the round trip time compared as unsigned |
| `LinkImpl.Link.ParseRecvPacket` | multilink/multilink_link.cpp:247-281 | every frame type, and false exactly when an assertion fails |
| `LinkImpl.Link.TryParseRecvPacket` | multilink/multilink_link.cpp:226-245 | takes exactly one frame when there is one |
| `LinkImpl.Link.TransportReadReady` | multilink/multilink_link.cpp:206-224 | however the stream cuts its bytes, the link ends as if it had read them at once; it stops with room and unread bytes if and only if the buffer was full of parsable input on entry |
| `LinkImpl.Link.Recv` | multilink/multilink_link.cpp:310-331 | the waiting packet is handed over once and a read is scheduled |
| `LinkImpl.Link.MaybeRetransmit` | multilink/multilink_link.cpp:51-68 | equals its function wherever the code is defined |
| `LinkImpl.Link.TimerCallback` | multilink/multilink_link.cpp:41-49 | auxiliary frame first, then the timeout test |
| `LinkImpl.Link.GetPacketsToRetransmit` | multilink/multilink_link.cpp:70-76 | the payloads in flight, oldest first |
| `Heap.TopIsLeast` | multilink/multilink.cpp:168-176 | the top of a heap has the least key |
| `Heap.MakeHeap` | multilink/multilink.cpp:172-176 | a heap over every link index, each once |
| `Heap.PopHeap` | multilink/multilink.cpp:189-192 | the top moves to the end and the rest is a heap |
| `Heap.SiftUp` | multilink/multilink.cpp:205-205 | the last entry joins the heap before it |
| `Scheduling.KeyMonotone` | multilink/multilink.cpp:160-166 | more bytes never lower a link's key |
| `Scheduling.KeyBounds` | multilink/multilink.cpp:160-166 | the key times the bandwidth is twice the round trip time times the bandwidth plus the bytes, up to one key's worth |
| `Scheduling.FasterNeverDearer` | multilink/multilink.cpp:160-166 | more bandwidth never raises a key |
| `Scheduling.FasterCheaper` | multilink/multilink.cpp:160-166 | and lowers it once it makes a difference of one |
| `Scheduling.FasterPreferred` | multilink/multilink.cpp:184-206 | of two links of equal distance and load the slower gets a packet only at a tie |
| `Scheduling.FastGetsPacket` | multilink/multilink.cpp:184-206 | of two links with a thousand bytes in flight the one ten times as fast gets the packet |
| `Scheduling.GreedyBound` | multilink/multilink.cpp:184-206 | a link that received a packet has, without its last packet, a key no larger than any link's final key |
| `Scheduling.OutbidGetsNothing` | multilink/multilink.cpp:132-136 | a link whose key exceeds another's with all drained packets gets none, whichever link asked |
| `Scheduling.LeaderGetsPacket` | multilink/multilink.cpp:184-206 | the link of strictly least key gets the packet, and the link that gets it has the least key |
| `Scheduling.AskerGetsNothing` | multilink/multilink.cpp:132-136 | the only packet goes to the near link, none to the far one |
| `MultilinkImpl.AskerStarves` | multilink/multilink.cpp:132-206 | assignment on behalf of a far idle link leaves its own queue empty |
| `MultilinkImpl.FastServed` | multilink/multilink.cpp:132-206 | assignment over a slow and a fast loaded link serves the fast one |
| `Scheduling.GreedyExists` | multilink/multilink.cpp:184-206 | with a link there are greedy choices for any number of packets |
| `Scheduling.AdditionsPartition` | multilink/multilink.cpp:184-206 | the drained prefix is exactly divided among the links |
| `MultilinkImpl.RekeyPopped` | multilink/multilink.cpp:192-205 | changing the popped link's key leaves the heap before it valid |
| `MultilinkImpl.NextLink` | multilink/multilink.cpp:185-205 | each packet goes to a link of least key and the heap stays valid |
| `MultilinkImpl.Multilink.SendWithOffset` | multilink/multilink.cpp:16-25 | the packet joins the queue; both assertions are its preconditions |
| `MultilinkImpl.Multilink.EstimateSizes` | multilink/multilink.cpp:146-158 | bytes in flight plus bytes assigned, per link |
| `MultilinkImpl.Multilink.AssignLinksUntil` | multilink/multilink.cpp:132-213 | a queue of at most 25 is drained, a longer one to its last half; every own queue grows by its packets in queue order; the choices are greedy; nothing is lost |
| `MultilinkImpl.Multilink.RequestPackets` | multilink/multilink.cpp:114-121 | the queue keeps exactly its undrained rest and no packet is lost |
| `MultilinkImpl.Multilink.HandOver` | multilink/multilink.cpp:106-110 | the front packet moves to the link's log exactly when the link takes it, and then the link takes no other |
| `MultilinkImpl.Multilink.OnSendReady` | multilink/multilink.cpp:93-96 | exactly as many packets as fit the queue move up from the layer above, in order |
| `MultilinkImpl.Multilink.FillOwn` | multilink/multilink.cpp:93-101 | a queue below 30 takes what the layer above has, up to 40; then the front of queue and newcomers is assigned, greedily, if the link has nothing |
| `MultilinkImpl.Multilink.LinkSendReady` | multilink/multilink.cpp:92-111 | terminates; takes packets from the layer above as FillOwn says; sends exactly the first packet assigned to the link, if it accepts, and no other; a lone idle link sends the next packet of the layer above; touches no other link and loses nothing |
| `MultilinkImpl.Multilink.RemoveLink` | multilink/multilink.cpp:66-90 | in-flight, then assigned packets rejoin the queue in order |
| `TransportSpec.PacketRoundTrip` | multilink/transport.cpp:107-113 | channel, number and data of a packet read back |
| `TransportSpec.PacketLayout` | multilink/transport.cpp:107-113 | the wire format: channel at 0, number at 8, data from 16 |
| `TransportSpec.RelSeqExact` | multilink/transport.cpp:180-180 | the wrapped difference is the true one exactly when that fits 64 signed bits |
| `TransportSpec.PlaceRefines` | multilink/transport.cpp:176-214 | placing fails exactly beyond the window, adds that number and no other, never replaces data, ignores duplicates; the last slot stays filled and the size bounded |
| `TransportSpec.ForwardRefines` | multilink/transport.cpp:81-89 | forwarding changes nothing about what has been received |
| `TransportImpl.ForwardManyMeaning` | multilink/transport.cpp:75-91 | n turns forward the first n slots in order |
| `TransportImpl.Transport.AddTarget` | multilink/transport.cpp:49-53 | a new channel takes the id and the one that had it lives on beside the map |
| `TransportImpl.Transport.TargetRecvReadyOnce` | multilink/transport.cpp:101-121 | a packet is read, numbered and sent exactly when the target has one |
| `TransportImpl.Transport.TargetRecvReady` | multilink/transport.cpp:93-99 | reads one channel until the network stream is full or the target empty; no packet lost or reordered, no other channel touched |
| `TransportImpl.Transport.OrphanRecvReadyOnce` | multilink/transport.cpp:101-121 | the same turn on a replaced channel: its packet goes out under its own count |
| `TransportImpl.Transport.OrphanRecvReady` | multilink/transport.cpp:93-99 | the same loop on a replaced channel: what it reads joins the log of its id in order, and it stops only at a full stream or an empty target |
| `TransportImpl.Transport.SendSpecialPacket` | multilink/transport.cpp:144-156 | one announcement goes out exactly when there is one and the stream is ready |
| `TransportImpl.Transport.ReadEachOnce` | multilink/transport.cpp:232-237 | one pass over the channels; if it sent nothing, there was nothing to send |
| `TransportImpl.Transport.NetworkSendReady` | multilink/transport.cpp:216-243 | terminates with the queue within its size unless it was over it before, and stops early only when nothing is left; no packet of any channel is lost or reordered; what joins the queue is what was accepted, in order, and every packet of it genuine; no announcement is lost |
| `TransportImpl.Transport.TargetSendReady` | multilink/transport.cpp:75-91 | forwards filled front slots in order to an open target, and stops only at a hole or a target that takes no more |
| `TransportImpl.Transport.StorePacket` | multilink/transport.cpp:176-208 | equals Place on the channel, created if missing, with the window abort |
| `TransportImpl.Transport.PlacePacket` | multilink/transport.cpp:176-214 | as StorePacket, then forwards only if the packet was the next one |
| `SystemInvariant.CustodyUpdate` | multilink/multilink.cpp:66-112 | changing one port changes the packets in custody by that port's difference |
| `SystemInvariant.DispatchKeeps` | multilink/transport.cpp:158-214 | a genuine packet ends up where the sender's log has it, or the process aborts |
| `SystemInvariant.SendOneKeeps` | multilink/multilink.cpp:106-110 | handing a packet to a link keeps the system invariant |
| `SystemInvariant.RemoveLinkKeeps` | multilink/multilink.cpp:66-90 | removing a timed-out link keeps the system invariant |
| `SystemInvariant.SpreadMeaning` | multilink/multilink.cpp:184-200 | the assignment step appends to every own queue, in queue order, the packets chosen for it |
| `SystemInvariant.AssignKeeps` | multilink/multilink.cpp:98-206 | an assignment, greedy and for a link without packets, keeps the system invariant |
| `SystemInvariant.DeliverKeeps` | multilink/multilink.cpp:31-43 | receiving from any link and dispatching keeps the system invariant |
| `SystemInvariant.ReadKeepsSender` | multilink/transport.cpp:101-121 | a packet read from a target is accepted under the next number, and all accepted packets stay genuine |
| `SystemInvariant.OrphanReadKeepsSender` | multilink/transport.cpp:57-64 | a replaced channel that still reads disturbs no channel but those of its own id |
| `SystemInvariant.TurnKeepsEnd` | multilink/transport.cpp:49-156 | every turn of Transport, on channels present or replaced, keeps what is known of its endpoint |
| `SystemInvariant.StepKeepsInv` | multilink/transport.cpp:49-243 | every step of either endpoint keeps the system invariant |
| `EndToEnd.InOrderExactlyOnce` | multilink/transport.cpp:75-121 | in every state of every run, what was forwarded is a prefix of what was read, for every id not given away in use |
| `EndToEnd.RunMonotone` | multilink/transport.cpp:75-91 | nothing read, and nothing forwarded by a channel that is not replaced, is ever taken back |
| `EndToEnd.NoLoss` | multilink/multilink.h:8-11 | accepted packets equal, with multiplicity, queued, assigned, in-flight and acknowledged ones; each, close packets included, is still held or has been returned by a link of the peer; and unless the peer aborted or replaced its channel, it is then in that channel |
| `EndToEnd.QuiescentComplete` | multilink/multilink.h:8-11 | with a sender's queues empty, forwarded packets and reorder buffer make up the whole channel, without a hole, for every id not given away in use |
| `EndToEnd.NothingLostInRuns` | multilink/multilink.h:8-11 | the same for every state of every run, and completeness |
| `EndToEnd.FilledIffReceived` | multilink/transport.cpp:176-214 | in every run, a channel has packet n, buffered or forwarded, if and only if a link has returned it |
| `EndToEnd.AssertionsHold` | multilink/multilink_link.cpp:129-129 | the assertions of send, of the parser and of the packet reader never fail |
| `EndToEnd.LinksRefine` | multilink/multilink_link.cpp:78-121 | in every run, bytes, frames and packets of every cable are prefixes of what the other end formatted |
| `EndToEnd.AcksSoundInRuns` | multilink/multilink_link.cpp:247-308 | in every run, acknowledged packets have been returned by the peer, and those in flight lie above the acknowledgement |
| `EndToEnd.AcksNeverDecrease` | multilink/multilink_link.cpp:267-274 | along every run, acknowledged numbers never decrease |
| `EndToEnd.FlightOrdered` | multilink/multilink_link.cpp:299-308 | in every run, packets sent by a link are ordered by number and time |
| `RunLaws.TimeoutsInRuns` | multilink/multilink_link.cpp:41-68 | in every run, where the timer callback is defined it times a live link out exactly when some packet is more than eight seconds in flight, and reports it; no other event does; only timed-out links are removed |
| `RunLaws.OwnersTold` | multilink/multilink_link.cpp:251-297 | in every run, a packet that comes in and the end of avoidance are reported |
| `RunLaws.RoundTripsMeasured` | multilink/multilink_link.cpp:261-266 | in every run, the round trip time changes only to the age, on the link's own clock, of a ping it sent |
| `RunLaws.AnswersInRuns` | multilink/multilink_link.cpp:146-188 | in every run, a pong carries back what a ping of the peer carried, and one that is owed is not forgotten |
| `RunLaws.SendingInRuns` | multilink/multilink_link.cpp:123-188 | in every run, exactly when a link takes a packet and when its timer pings |
| `RunLaws.AssignDrains` | multilink/multilink.cpp:178-184 | an assignment drains a queue of at most 25, a longer one to its last half |
| `RunLaws.LoadsInRuns` | multilink/multilink.cpp:146-166 | in every run, an assignment counts the bytes of the packets in flight and assigned, and the measured round trip time |
| `RunLaws.RemovedRests` | multilink/multilink.cpp:79-84 | nothing an endpoint does changes a removed link |
| `RunLaws.RemovedGivesBack` | multilink/multilink.cpp:70-73 | a removed link gives back its packets in flight, oldest first, then its assigned ones |
| `RunLaws.OnlyOpenTargets` | multilink/transport.cpp:75-121 | packets are read from open targets only and forwarded only to the open target that has the id, the next in order, one at a time |
| `RunLaws.ReplacedGoesOn` | multilink/transport.cpp:57-91 | a replaced channel opens and forwards like any other |
| `RunLaws.FailureAnnounced` | multilink/transport.cpp:123-131 | a failed target is gone and the end of its channel waits to be announced |
| `RunLaws.ClosesAnnounced` | multilink/transport.cpp:123-156 | along every run, that announcement waits or has been accepted, and so is not lost |
| `RunLaws.CloseArrives` | multilink/transport.cpp:133-142 | a close packet closes the channel it names if that is open, and changes nothing else |
| `EndToEnd.WakeupsInRuns` | multilink/multilink_link.cpp:86-97 | in every run, the wakeups of both directions are in place |
| `Replacement.ReplacingIsHarmless` | multilink/transport.cpp:49-64 | in every reachable state, replacing a channel keeps packets and numbers in agreement in all continuations if and only if the id was free or reserved, or its channel silent for good |
| `Replacement.ReplacingKeepsOrder` | multilink/transport.cpp:49-64 | after a harmless replacement the peer still delivers a prefix of what is read |
| `Replacement.ReplacingForgetsNothing` | multilink/transport.cpp:49-53 | in every reachable state, a replacing channel has exactly what came in under its id, in all continuations, if and only if the old one had received nothing |
| `Replacement.ReplacingKeepsComplete` | multilink/transport.cpp:49-53 | after such a replacement the channel is complete whenever the sender has nothing left to send |
| `Loss.PacketForgotten` | multilink/transport.cpp:49-53 | a run in which a receiver gives an id away and its channel stays incomplete with nothing left to send |
| `Loss.PacketLost` | multilink/transport.cpp:49-64 | for any two packets, a run in which both are read under one id and acknowledged, nothing is left to send, and only the first is delivered |
| `Stall.ReadingStalls` | multilink/multilink_link.cpp:206-224 | a run to a link with room, no packet waiting, no read scheduled, and unread bytes in the stream |
| `Findings.IdleLinkTurnsUndefined` | multilink/multilink_link.cpp:60-62 | a run to a state in which a live link's next timer callback reads an empty queue |
| `Findings.WindowOverrun` | multilink/transport.cpp:187-190 | on every channel, a run in which the receiver aborts |
| `Findings.OverlappingFieldFails` | terminate/ippacket.cpp:52-118 | a UDP packet with header length 12 that does not verify after the rewrite |
| `Findings.ShortDatagramFails` | terminate/ippacket.cpp:57-57 | a short datagram that verifies before the rewrite and not after it |
| `Witness.PacketArrives` | multilink/transport.cpp:75-214 | for every channel and packet, a run that delivers it |
| `Checksum.FoldAllUnique` | terminate/ippacket.cpp:31-33 | however carries are folded, the result is the one 16-bit number congruent to the sum and zero only with it |
| `Checksum.StepExact` | terminate/ippacket.cpp:37-40 | one fold per added word is exact and keeps the accumulator within 16 bits |
| `Checksum.ByteOrder` | terminate/ippacket.cpp:62-80 | summing in host order gives the byte-swapped sum, also for odd lengths (section 2(B) of RFC 1071) |
| `Checksum.VerifiesEitherOrder` | terminate/ippacket.cpp:62-84 | a string verifies in one byte order exactly when it does in the other |
| `Checksum.ComplementVerifies` | terminate/ippacket.cpp:41-49 | storing the complement makes the sum all ones |
| `IpPacket.Ip4Checksum` | terminate/ippacket.cpp:35-42 | the complement of the one's-complement sum of the words |
| `IpPacket.Ip4FillChecksum` | terminate/ippacket.cpp:44-50 | only the checksum field changes, to that value |
| `IpPacket.IpFilledVerifies` | terminate/ippacket.cpp:44-50 | the header sums to all ones exactly when it holds the field, or summed to a nonzero multiple of 0xFFFF |
| `IpPacket.UdpSum` | terminate/ippacket.cpp:61-80 | the host-order sum of pseudo header and segment |
| `IpPacket.Udp4FillChecksum` | terminate/ippacket.cpp:52-85 | only the checksum field changes; segments under 16 bytes stay |
| `IpPacket.UdpFilledVerifies` | terminate/ippacket.cpp:52-85 | a receiver summing in network order gets all ones, and the field is never zero, except exactly when the field lies among the addresses and the rest does not cancel |
| `IpPacket.SkippedSegment` | terminate/ippacket.cpp:57-57 | a UDP segment that the rewrite skips and that verified before still does exactly when the rewritten bytes have the same sum; with a legal header these are the addresses |
| `IpPacket.PrepareTunPacket` | terminate/ippacket.cpp:87-126 | all outcomes and the whole buffer after each |
| `IpPacket.RewrittenCorrect` | terminate/ippacket.cpp:99-118 | header and filled segment verify together, the address is in place, and nothing else has changed |
| `Statistics.VarianceIdentity` | multilink/multilink_stats.cpp:27-37 | n times the sum of squares is at least the squared sum; the difference is the spread about the mean |
| `Statistics.Stats.Remove` | multilink/multilink_stats.cpp:9-14 | the oldest value leaves and both sums follow |
| `Statistics.Stats.AddAndRemoveBack` | multilink/multilink_stats.cpp:39-43 | after any history the window is its last count values and the sums are theirs |
| `Statistics.Stats.Mean` | multilink/multilink_stats.cpp:22-25 | the mean of the window, zero when empty |
| `Statistics.Stats.Radicand` | multilink/multilink_stats.cpp:27-37 | what stddev takes the root of is never negative and is the variance |
| `Statistics.BandwidthEstimator.DataWritten` | multilink/multilink_stats.cpp:52-81 | in a burst the window is the last 400 samples, and a full one adds exactly one estimate, the bytes a millisecond rounded down; outside a burst the window is emptied and no estimate added |
| `Statistics.WritesWithinOneReading` | multilink/multilink_stats.cpp:68-71 | an estimator whose next write divides by zero |
| `Statistics.BandwidthEstimator.InputQueueEmpty` | multilink/multilink_stats.cpp:91-97 | a running burst ends and its grace period starts |
| `Statistics.BandwidthEstimator.BandwidthMbps` | multilink/multilink_stats.cpp:99-101 | a thousandth of the mean, never below 0.1 |
| `Delay.DelayedStream.Write` | libreactor/throttled.cpp:84-100 | accepts what fits, in order, and starts one timer |
| `Delay.DelayedStream.AfterDelay` | libreactor/throttled.cpp:68-72 | one more piece is ready; buffers, timers and free space keep accounting for each other; the writer is notified as by write_ready |
| `Delay.DelayedStream.WriteReady` | libreactor/throttled.cpp:102-123 | bytes leave in the order accepted, none before its delay, the stream gets exactly those, and it stops only with nothing ready or a stream without room; the writer is notified exactly when there is space, and otherwise a timer or the stream will call again |
| `Delay.PassedOn` | libreactor/throttled.cpp:104-119 | passing part of a ready piece keeps order and delay |

## Left out

- Sockets, epoll, signals, processes, TLS, tun, lwIP, RPC and the Python client: system and foreign code.
- Object lifetime and callbacks that outlive a removed link: steps are taken only by links still present.
- Wall-clock liveness: no result says that a packet arrives in time, only that none is lost.
- What a replaced channel delivers: `Delivered` is what the channel that has the id forwarded; a replaced one forwards to its own target.
- Channel close: buffered data of a closed channel stays in the reorder buffer; what a target does with a close is not modelled. Channel id 2^64 - 3 is reserved for close packets.
- Counters: a channel sends at most 2^63 packets and an endpoint uses at most 2^64 - 1 link numbers; `RelSeqExact` says what the code does past the former, an assertion of `Link::send` stops the latter.
- Targets that call back into Transport from within send or recv: they are taken not to.
- Targets that yield packets larger than MULTILINK_MTU - 16: Multilink asserts against them.
- Several clock readings inside one handler are one reading.
- Which callback makes link_send_ready run: a link may be handed its packet at any time; the runs given hand one over where the code would.
- `FD::read` of an empty slice: libreactor/reactor.cpp:56-62 takes the zero it returns for a shutdown when errno is stale; the stream of the model yields no bytes.
- The bandwidth in the scheduler: it takes each link's value as given, at least 0.1, as `BandwidthMbps` returns it. In the system, link states do not hold the estimator; `LinkImpl.Link` does.
- The reactor's limit of 1000 scheduled functions, an assertion of libreactor/reactor.cpp:119 that every scheduling handler meets.
- Floating point: keys, means and the radicand are exact reals; the square root is not taken. Integer overflow of the statistics' sums is not modelled.
- A negative mean round trip time in the scheduler's key: converting it to unsigned is undefined in the source; the model takes the floor.
- MultilinkImpl.Multilink.LinkSendReady: its links are values, the ones LinkImpl.Link implements, so aliasing between a link object and its owner is not modelled; the layer above is a queue of packets it would send.
- TransportImpl.Transport.TargetSendReady: a target's readiness is the number of packets it still takes; futures that create targets are steps of the system only.
- Statistics.Stats.constructor: a window of at least one value; an empty one would remove from an empty deque.
- IpPacket.PrepareTunPacket: takes the packet's header length to lie within it, where the source fails an assertion otherwise.
- The UDP length field: the code, and the verifier here, use the size of the rest of the packet instead.
- ThrottledStream, PacketQueue, WriteQueue, Piper, ioutil: relays that would only add easy members.
- LengthPacketStream and reorder_stream.cpp: same shapes as Link and Transport; hex_decode is unrelated to the stack.
