# Verification of ENet and clovertun

A Dafny model of the protocols that clovertun's peer-to-peer tunnel rests on, with proofs of what they promise.

1. **ENet's range coder** (`compress.c`): an adaptive order-2 model whose contexts are search trees in one array of
   4096 symbols, and the 32-bit coder it drives. Compressor and decompressor are methods on their arrays, branch by
   branch. Files `RangeCoding` (the coder), `Frequencies`, `Ppm` (the model on values), `Trees`, `Symbols`,
   `Contexts`, `Memory`, `Naming` (the array stands for the model), `RangeLoops`, `ContextWalks`, `Inputs`,
   `Decodable`, `Patching`, `RangeCoder` (the two methods), `RoundTrip`, `Correspondence`; `Histories` (what the model
   is, told by the bytes alone) and `Vectors` (two outputs byte by byte).
2. **ENet's reliable channels** (`peer.c`, `protocol.c`): 16-bit sequence numbers in 16 windows, fragments, the
   receiving and the sending half of a peer in place, and a state machine of both ends over a network that loses,
   repeats and reorders. Files `Windows`, `Bits`, `Inboxes`, `Receivers`, `Fragments`, `Deliveries`, `Transport`,
   `Reassembly`, `Progress`, `LongPackets`, `Outboxes`, `Timeouts`, `Sendings` (which commands a call sends),
   `Senders`.
3. **The rest of ENet's bookkeeping**: the CRC (`Checksums`), unsequenced packets (`Unsequenced`), the population
   counters (`Hosts`) and the bandwidth throttle (`Budgets`, what is fair, and `Bandwidth`).
4. **clovertun**: packets over a TCP stream (`Framing`), one rendezvous session and one client (`Sessions`), and the
   server with any number of hosts and guests: what no run can do (`Rendezvous`), and what every guest that joins can
   come to (`Meetings`).

What the source updates in place is a class or an array here, and each such method is proved against a function or a
predicate about which the lemmas speak. `dafny verify dfyconfig.toml` checks the whole project.

## Findings

Where the code does not keep what a reader would expect of it, the input and the exact condition are proved.

- **A packet of many fragments can be queued twice.** A fragment is recognised as old by the number of its packet's
  first fragment. For a packet whose fragments reach a third window of 4096 numbers, a retransmission that the sender
  may still make comes when that first number already looks new: the packet is queued again under a number that later
  belongs to a new packet, which is then discarded and acknowledged. Input: `LongPackets.EightThousandFragments` (8192
  fragments numbered 1 to 8192; the channel's number is 40960, then 60000), and for every such packet
  `LongPackets.LongPacketCostsAnother`. Condition, which a caller can check before sending:
  `Transport.SendableExactly`. Delivery and acknowledgement are proved for all runs that send only such packets
  (`Transport.DeliverySafety`, `Transport.AckSafety`).
- **A command exactly eight windows behind is never acknowledged.** The receiver's test brings a number eight windows
  behind it eight windows ahead, and leaves it unacknowledged (`Progress.AcknowledgesExactly`). If the acknowledgement
  of a command is lost until the receiver is that far past it, and the next packet ends in a later window, the sender
  waits until it gives the receiver up (`Progress.StuckStays`). Input: `Progress.OneBytePacketIsNeverHandedOn`
  (packets of one byte, and one lost acknowledgement). Condition: the next packet can be handed on exactly when it fits
  into the windows and no such command is in its way (`Progress.HandedOnExactly`).
- **A packet that ends eight windows past its predecessor's last command is never delivered**
  (`Transport.TooLongNeverArrives`; it is the first half of the condition just named): the sender waits for
  acknowledgements that the receiver does not give before the packet is complete.
- **An empty buffer makes the compressor read past it.** It reads a byte of every buffer but the first before it looks
  at the buffer's end. A packet of length 0 makes such a buffer. What is read is what was given exactly when no later
  buffer is empty (`Inputs.TakenExactly`); the round trip holds for what was read, in any case.
- **A packet with Length 0 keeps the TCP receive loop from ending**: it is found again and again. Input:
  `Framing.EightZeroBytes`; condition: `Framing.EndsExactly`. It does not happen between two ends that send packets
  whose Length is their size (`Framing.NextReadProgresses`).
- **The success flags of a session outlive its guest.** With the next guest one report is enough to connect both sides
  (`Sessions.OneReportIsEnoughForSecondGuest`); exactly when both flags are clear at the time the guest joins is one
  report too few (`Sessions.OneReportIsTooFewExactly`).
- **A host may hold a former guest's address for a while.** When a guest leaves, the server sends the host a reset, on
  which the host stops. Until the host has taken it off its link it may be punching or connected with what it was told
  of that guest, although the session already has another one (`Rendezvous.LaterGuestIsNotMet`; a whole run of one host
  and two guests is `Rendezvous.HostPunchesAtFormerGuest`). Condition: exactly when a TPT_START_UDP is still on its
  link and the server has told it of no guest yet or recorded another endpoint (`Rendezvous.HostDisagreesExactly`); when
  it takes that of a later guest it has been stopped (`Rendezvous.LaterGuestMeetsStoppedHost`). In all other states, and
  for a guest in every state, the two sides agree (`Rendezvous.BothSidesAgree`).
- **An old unsequenced packet passes as new** exactly when its distance from the base, counted modulo 65536, is less
  than 32 windows of 1024 groups (`Unsequenced.LooksNewExactly`): at an age of at most one round that is exactly when it
  is more than 32 windows old (`Unsequenced.OldCopyLooksNewExactly`).
- **A peer that names no bandwidth is told that there is no bound**, whatever the host's own bandwidth is
  (`Bandwidth.ToldNoBoundExactly`); the announced bandwidths add up to the host's at most, counting those as 0.
- **The loop over passes in the bandwidth throttle has no effect after the first pass** (`Bandwidth.JudgedOnce`,
  `Bandwidth.OutgoingPasses`).
- A guest that the server refuses with TPT_CONNECT_RESULT does nothing about it: `Sessions.Received` has the branch, as
  the code does.

## Assumptions

- The network delivers a copy of a reliable command only while the receiver is at most eight windows past the copy's
  own number or at most nine past its packet's first (`Transport.Current`, `Transport.InLife`). Everything the sender
  may repeat is within that (`Transport.RepetitionsAreCurrent`). It does not deliver an acknowledgement when the sender
  has transmitted sixteen windows past the acknowledged number; an acknowledgement of anything that may still be
  repeated can be delivered (`Transport.AcknowledgementsAreCurrent`), or may be lost for good.
- An unsequenced packet is at most 32 windows behind the base and less than a round ahead of it (`Unsequenced.InTime`).
- In the bandwidth throttle no 32-bit product wraps, and no epoch is the current time yet (`Bandwidth.InRange`).
- A socket write that succeeds takes at least one byte.
- There is always an unused id for a new TCP link.
- Each client's link to the server is first in, first out; datagrams may be lost, repeated and come from anywhere.

## Model

| member | source | states |
|---|---|---|
| RangeCoding.CutToBoundary | 3rdparty/enet/enet-1.3.15/compress.c:124-132 | the underflow cut puts the upper end of the interval on the multiple of 2^24 that lies inside it, so the interval never grows |
| RangeCoding.SqueezeIsLive | 3rdparty/enet/enet-1.3.15/compress.c:124-136 | one turn of the normalisation loop keeps low and range within 32 bits and makes progress, so the loop ends |
| RangeCoding.ScaleIsLive | 3rdparty/enet/enet-1.3.15/compress.c:121-137 | any step with 0 < count and under + count <= total < 2^16, on any state between two steps, leaves a state the normalisation loop can handle |
| RangeCoding.StreamInInterval | 3rdparty/enet/enet-1.3.15/compress.c:121-146 | for every sequence of steps, the value of the next four bytes that the encoder emits, flush included and padded with zeros, lies in its interval [low, low + range) |
| RangeCoding.ReadFindsStep | 3rdparty/enet/enet-1.3.15/compress.c:352 | on what the encoder emits, the decoder reads a number inside [under, under + count) of the step that was encoded |
| RangeCoding.ShedThenFlush | 3rdparty/enet/enet-1.3.15/compress.c:139-146 | flushing before or after a normalisation gives the same bytes up to trailing zeros |
| RangeCoding.EndReadsAsEscapes | 3rdparty/enet/enet-1.3.15/compress.c:139-146 | the flushed stream followed by zeros is also what encoding any number of further escapes would give: the end needs no marker |
| RangeLoops.Output | 3rdparty/enet/enet-1.3.15/compress.c:114-119 | writes one byte, or refuses exactly when the output buffer is full |
| RangeLoops.EncodeRange | 3rdparty/enet/enet-1.3.15/compress.c:121-137 | appends exactly the bytes of one step and moves low and range on, and refuses exactly when they do not fit |
| RangeLoops.EncodeChoice | 3rdparty/enet/enet-1.3.15/compress.c:300-312 | codes the byte, an escape, or nothing, so that what is written together with the stream of the steps still due stays the whole output; it refuses only when the whole output does not fit |
| RangeLoops.FlushRange | 3rdparty/enet/enet-1.3.15/compress.c:139-146 | appends the bytes of low up to the last one that is not zero, and refuses exactly when they do not fit |
| RangeLoops.SeedRange | 3rdparty/enet/enet-1.3.15/compress.c:344-350 | loads the first four bytes, zeros standing for missing ones |
| RangeLoops.DecodeRange | 3rdparty/enet/enet-1.3.15/compress.c:354-371 | keeps low and range equal to the encoder's and takes in exactly as many bytes as the encoder emitted for the step |
| Frequencies.BumpIsFit | 3rdparty/enet/enet-1.3.15/compress.c:105-112 | counting a byte in a context, rescale included, keeps the context's numbers in proportion: counts in range, total below 2^16, escapes at most five times the counts |
| Ppm.StepsIgnoreLonger | 3rdparty/enet/enet-1.3.15/compress.c:286-316 | what a context learns does not change what shorter contexts code for the same byte, so that coding and learning may alternate |
| Trees.WalkFindsSums | 3rdparty/enet/enet-1.3.15/compress.c:159-199 | the encoder's walk for a byte adds up the counts of all smaller bytes and finds the byte's own count; it runs off the tree exactly when the count is 0 |
| Trees.CodeFindsValue | 3rdparty/enet/enet-1.3.15/compress.c:373-438 | for any code in a byte's interval the decoder's walk takes the encoder's path for that byte and reconstructs the byte and the start and size of its interval |
| Trees.EveryCodeFindsItsByte | 3rdparty/enet/enet-1.3.15/compress.c:373-438 | every code below the context's symbol mass lies in the interval of exactly one byte, in the root (minimum 1) and in other contexts (minimum 0), and the walk finds that byte |
| Contexts.RaiseFits | 3rdparty/enet/enet-1.3.15/compress.c:159-199 | between counting a byte and the rescale no 8- or 16-bit field of the tree or the context overflows |
| Contexts.HalvedIsBalanced | 3rdparty/enet/enet-1.3.15/compress.c:90-112 | after a rescale total is again escapes plus symbol mass, and every node's count is within its bound |
| Memory.WalkKeepsShape | 3rdparty/enet/enet-1.3.15/compress.c:159-199 | after a walk on the array every context still has its tree, the walked one with the byte counted, and no slot outside that tree has changed but for the new symbol and the link to it |
| Memory.AdaptKeepsShape | 3rdparty/enet/enet-1.3.15/compress.c:105-112 | settling a context's totals, with or without a rescale, keeps all trees in place and touches only that context's nodes and totals |
| Naming.FreshName | 3rdparty/enet/enet-1.3.15/compress.c:68-80 | a symbol is only ever created for a context and byte that have no symbol yet |
| Naming.LearntModels | 3rdparty/enet/enet-1.3.15/compress.c:286-329 | when one context has counted a byte, the whole array stands for the model in which just that context has |
| Naming.NumbersAgree | 3rdparty/enet/enet-1.3.15/compress.c:159-199 | what the walk brings back on the array is what the model's table says: escapes, total, count and the sum of smaller bytes |
| Naming.StandingAfter | 3rdparty/enet/enet-1.3.15/compress.c:286-329 | on any input, links, trees and numbers of the array are in order again when a context has been entered and settled |
| Patching.LearningCommutes | 3rdparty/enet/enet-1.3.15/compress.c:598-615 | the order in which two contexts learn the byte does not matter, so the decompressor may let the longer ones learn last |
| Patching.MissedGrowth | 3rdparty/enet/enet-1.3.15/compress.c:598-615 | the byte adds one symbol in every context that missed it, and one in the context that decoded it if it was new there |
| RangeCoder.RangeCoder.CreateSymbol | 3rdparty/enet/enet-1.3.15/compress.c:68-80 | writes a fresh symbol into the next slot and nothing else |
| RangeCoder.RangeCoder.ContextEncode | 3rdparty/enet/enet-1.3.15/compress.c:159-199 | walks for the byte, creating it where it is missing; returns the sum of smaller bytes and the count with the minimum, and leaves every other context as it was |
| RangeCoder.RangeCoder.TryDecode | 3rdparty/enet/enet-1.3.15/compress.c:415-416 | finds the byte whose interval the code lies in, its start and size, or fails exactly when the code's path runs off the tree |
| RangeCoder.RangeCoder.RootDecode | 3rdparty/enet/enet-1.3.15/compress.c:418-438 | in the root, finds the byte or creates the one whose distance from its neighbour the code gives |
| RangeCoder.RangeCoder.SymbolRescale | 3rdparty/enet/enet-1.3.15/compress.c:90-103 | halves every count of a subtree in place, recomputes every under, and returns the new sum |
| RangeCoder.RangeCoder.ContextRescale | 3rdparty/enet/enet-1.3.15/compress.c:105-112 | halves the whole context in place and recomputes escapes and total |
| RangeCoder.RangeCoder.Settle | 3rdparty/enet/enet-1.3.15/compress.c:306-327 | adds the byte (and, after a miss, the escape) to the totals and rescales when a bound is passed; the context is balanced again |
| RangeCoder.RangeCoder.EncodeContext | 3rdparty/enet/enet-1.3.15/compress.c:286-316 | one context of the compressor: codes the byte or an escape, links the symbol to the longer context's, and learns |
| RangeCoder.RangeCoder.EncodeByte | 3rdparty/enet/enet-1.3.15/compress.c:286-329 | all contexts for one byte: what is written plus what is still due is the whole output, and the array stands for the model that has learnt the byte |
| RangeCoder.RangeCoder.NextInput | 3rdparty/enet/enet-1.3.15/compress.c:331-336 | the slot for the next byte is that of the model's next context, which is the last two bytes (`Histories.ModelIsHistory`), and the array is made anew when two more symbols might not fit |
| RangeCoder.RangeCoder.NextByte | 3rdparty/enet/enet-1.3.15/compress.c:275-284 | returns the bytes of the buffers one by one, reading one byte of a later buffer before it looks at its end |
| RangeCoder.RangeCoder.Compress | 3rdparty/enet/enet-1.3.15/compress.c:246-342 | writes exactly the stream of the bytes read, which is the one of the reference coder (`Histories.CompressedIsReference`), or returns 0 exactly when that does not fit, is empty, or there is no input; ends with the array of the model after the last byte |
| RangeCoder.RangeCoder.TryContext | 3rdparty/enet/enet-1.3.15/compress.c:529-568 | a context other than the root: on any input it has nothing to say, decodes a byte, or finds the input malformed; on the compressor's output it decodes exactly what the compressor coded there |
| RangeCoder.RangeCoder.RootContext | 3rdparty/enet/enet-1.3.15/compress.c:570-596 | the root: an escape ends the data, anything else is a byte; on the compressor's output it is the right one |
| RangeCoder.RangeCoder.PatchContexts | 3rdparty/enet/enet-1.3.15/compress.c:598-615 | the contexts that only escaped learn the byte, so that the array stands for the model the compressor has |
| RangeCoder.RangeCoder.DecodeByte | 3rdparty/enet/enet-1.3.15/compress.c:529-615 | one byte: on the compressor's output it is the next byte that was compressed, or the end after the last |
| RangeCoder.RangeCoder.Decompress | 3rdparty/enet/enet-1.3.15/compress.c:498-627 | any input at all is decoded to something that fits or refused, never read or written out of bounds; the compressor's output is decoded to what was compressed, or refused exactly when that does not fit |
| Inputs.TakenExactly | 3rdparty/enet/enet-1.3.15/compress.c:275-284 | what the compressor reads is what it was given exactly when no buffer after the first is empty |
| RoundTrip.CompressedIsEmptyIff | 3rdparty/enet/enet-1.3.15/compress.c:246-342 | the output is empty exactly for empty data, so a result of 0 is never ambiguous |
| RoundTrip.CompressThenDecompress | 3rdparty/enet/enet-1.3.15/compress.c:246-627 | for all buffers, the first and later ones empty or not, and all memory behind them, a decompressor with room makes of the compressor's output exactly the bytes that were read, and stops there; without room it refuses; the two arrays, whatever they held before, correspond after every byte; and the bytes read are the bytes given exactly when no later buffer is empty |
| Histories.ModelIsHistory | 3rdparty/enet/enet-1.3.15/compress.c:286-336 | for all data, resets included: the model is told by the bytes since it was last made anew (when the root and all different pieces of one to three bytes leave fewer than three of the 4096 slots): the next context is the last two of them, every context has the numbers its own lessons give, and the slots in use are the root and those pieces |
| Histories.CompressedIsReference | 3rdparty/enet/enet-1.3.15/compress.c:246-342 | for all data, what the compressor writes is the stream of the steps of a reference coder that is defined by the bytes seen alone: in the longest context of at most two bytes that knows the byte, after an escape in each longer one that knows anything |
| Histories.CountsAreOccurrences | 3rdparty/enet/enet-1.3.15/compress.c:27-36 | as long as a context has not been halved, its count for a byte is 2, in the root 3, for each place in the data where it learnt that byte; its escapes are 5 for each different byte, in the root 1 |
| Histories.NumbersOfFew | 3rdparty/enet/enet-1.3.15/compress.c:27-36 | the same for any list of lessons that is short of the bounds 251 (249 in the root) and 65280, and for the sums: of all counts, and of those below a byte |
| Histories.RootCodes | 3rdparty/enet/enet-1.3.15/compress.c:318-329 | in the root every byte has 1, and 3 for each time it was learnt there, behind 1 for the escapes, out of 257 and 3 for each lesson |
| Histories.ContextCodes | 3rdparty/enet/enet-1.3.15/compress.c:286-316 | in any other context a byte that it knows has 2 for each time, behind 5 for every different byte it knows; for another byte it codes an escape of that size, unless it knows nothing |
| Vectors.CompressedAbabab | 3rdparty/enet/enet-1.3.15/compress.c:246-342 | the six bytes "ababab" become 62 02 CC DF 71 00 8E |
| Vectors.CompressedThree | 3rdparty/enet/enet-1.3.15/compress.c:121-137 | the bytes 0, 20, 115, for which the range is cut to a boundary on the way, become 01 16 FF 57 22 |
| Correspondence.Isomorphic | 3rdparty/enet/enet-1.3.15/compress.c:524-623 | before the first and after every byte the arrays of the two sides, although allocated in different orders, are isomorphic: same names, bytes, numbers, children, first symbols and links |
| Correspondence.ResetTogether | 3rdparty/enet/enet-1.3.15/compress.c:148-157 | both sides make their arrays anew after the same bytes |
| Windows.AcceptsMeans | 3rdparty/enet/enet-1.3.15/peer.c:841-851 | on 16-bit numbers the receiver's test accepts exactly the serials from its current one on in the first seven windows |
| Windows.AcknowledgesMeans | 3rdparty/enet/enet-1.3.15/peer.c:592-603 | what passes the acknowledgement test is acceptable or older than the current number |
| Windows.TakesExactly | 3rdparty/enet/enet-1.3.15/peer.c:592-603 | in numbers: of the serials within sight the receiver takes those from its current one on in seven windows of 4096, and leaves unacknowledged those in the eighth and those eight windows behind or nine |
| Windows.SerialOfWire | 3rdparty/enet/enet-1.3.15/peer.c:847-850 | a serial less than one turn ahead is recovered from its 16 bits |
| Windows.OrderIsDistance | 3rdparty/enet/enet-1.3.15/peer.c:854-884 | the comparison that places a command in the list is the order of distances from the current number |
| Bits.MeetsMeans | 3rdparty/enet/enet-1.3.15/protocol.c:1510-1511 | the sender's shifts and masks on 32-bit words say exactly whether one of the eight windows from the given one on is in use |
| Fragments.CutPacket | 3rdparty/enet/enet-1.3.15/peer.c:127-183 | cuts a packet into (length + unit - 1) / unit pieces, full but for the last, each at its offset |
| Fragments.PiecesTile | 3rdparty/enet/enet-1.3.15/peer.c:127-183 | every byte of the packet lies in exactly one piece |
| Fragments.Reassembled | 3rdparty/enet/enet-1.3.15/protocol.c:611-621 | when every piece is in its place the bytes are the packet that was cut |
| Receivers.Receiver.Dispatch | 3rdparty/enet/enet-1.3.15/peer.c:787-824 | hands on the longest run of complete packets that follow each other, and moves the current number to the last of their fragments |
| Receivers.Receiver.FindPlace | 3rdparty/enet/enet-1.3.15/peer.c:854-884 | finds the pending command with this number, or the place that keeps the list in order of distance |
| Receivers.Receiver.Queue | 3rdparty/enet/enet-1.3.15/peer.c:827-975 | discards a number that is pending, handed on, or out of the windows, refuses for lack of room, or inserts the packet in its place and dispatches |
| Receivers.Receiver.HandleSendReliable | 3rdparty/enet/enet-1.3.15/protocol.c:434-453 | a reliable command as a function of the channel and its 16-bit number; refused, with nothing changed, exactly when it is too long, or there is no room for one that is not to be discarded |
| Receivers.Receiver.HandleSendFragment | 3rdparty/enet/enet-1.3.15/protocol.c:524-630 | a fragment: checks, discards, starts or fills a packet, and dispatches a complete one; when it is refused, as an if-and-only-if, nothing changes |
| Inboxes.FragmentIsTakenExactly | 3rdparty/enet/enet-1.3.15/protocol.c:524-600 | a fragment is refused exactly when it is too long, or is in the receiver's windows and ill-formed, does not fit the packet pending under its number, or finds neither such a packet nor room for one; and then nothing changes |
| Receivers.Receiver.Record | 3rdparty/enet/enet-1.3.15/protocol.c:611-621 | one fragment sets its bit, its bytes and the missing count, at most once |
| Reassembly.FragmentHeld | 3rdparty/enet/enet-1.3.15/protocol.c:559-627 | whatever fragment of the first packet of a channel arrives next, in any order and however often, the receiver accepts it and holds exactly the fragments that have arrived |
| Reassembly.ReceiveFragments | 3rdparty/enet/enet-1.3.15/protocol.c:559-627 | the same through the handler in place: the first packet of a channel is handed on, with the bytes that were sent, exactly when every fragment has arrived; until then fragmentsRemaining is the number that have not, and the bitmap says which |
| Reassembly.ArrivalStoresExactly | 3rdparty/enet/enet-1.3.15/protocol.c:524-630 | for every packet in every run: an arriving fragment that is accepted and in the receiver's windows is there afterwards; nothing that was there is lost, and nothing else comes to be there |
| Reassembly.HandedOnExactlyWhenComplete | 3rdparty/enet/enet-1.3.15/peer.c:787-824 | for every packet in every state of every run: it has been handed on exactly when every fragment of it and of all packets before it is there |
| Reassembly.PendingIsExact | 3rdparty/enet/enet-1.3.15/protocol.c:594-621 | in every state of every run every pending entry is for a packet not handed on yet: its bitmap says exactly which fragments are there, their bytes are in place, and fragmentsRemaining is the number of those that are not |
| Deliveries.ReadyIsNext | 3rdparty/enet/enet-1.3.15/peer.c:787-824 | the pending packet that can be handed on is the next one that was sent, complete, with its bytes |
| Deliveries.DrainKeeps | 3rdparty/enet/enet-1.3.15/peer.c:787-824 | dispatching keeps what the receiver holds consistent with what was sent, and leaves nothing that could be handed on |
| Deliveries.NextIsIncomplete | 3rdparty/enet/enet-1.3.15/peer.c:787-824 | between two commands some fragment of the next packet is still missing |
| Deliveries.FragmentArrives | 3rdparty/enet/enet-1.3.15/protocol.c:524-630 | a fragment within sight of the current number is taken on or refused, and answered truthfully |
| Transport.GateKeepsNear | 3rdparty/enet/enet-1.3.15/protocol.c:1504-1519 | commands that pass the sender's test keep everything outstanding within nine successive windows |
| Transport.GateKeepsBehind | 3rdparty/enet/enet-1.3.15/protocol.c:1504-1519 | the sender never transmits more than seven windows past the receiver's current one, although it knows only its acknowledgements |
| Transport.DeliverySafety | 3rdparty/enet/enet-1.3.15/peer.c:787-824 | in every state of every run, over a network that loses, repeats and reorders, what was handed on is a prefix of the packets sent, each once, whole and in order |
| Transport.AckSafety | 3rdparty/enet/enet-1.3.15/peer.c:592-603 | in every state of every run a command that was acknowledged is in the receiver's hands |
| Transport.ForgottenIsAcknowledged | 3rdparty/enet/enet-1.3.15/protocol.c:198-281 | in every state of every run the sender has stopped waiting only for commands that were acknowledged |
| Transport.OutstandingIsUnambiguous | 3rdparty/enet/enet-1.3.15/protocol.c:1504-1519 | in every state of every run no two outstanding commands share a 16-bit number, and all are within nine windows of each other |
| Transport.RunAcknowledgesRight | 3rdparty/enet/enet-1.3.15/protocol.c:198-281 | in every run an acknowledgement removes the very command it was meant for |
| Transport.RepetitionsAreCurrent | 3rdparty/enet/enet-1.3.15/protocol.c:1432-1480 | in every state of every run a retransmission of anything outstanding is within the lifetime that the network model allows |
| Transport.AcknowledgementsAreCurrent | 3rdparty/enet/enet-1.3.15/protocol.c:198-281 | in every state of every run an acknowledgement of a command that the sender may still repeat can be delivered, and removes that command if it is waited for |
| Transport.SendableExactly | 3rdparty/enet/enet-1.3.15/protocol.c:524-560 | a packet stays clear of being taken for a new one, after it was handed on, exactly when it reaches no third window or is too long to be transmitted at all |
| Transport.TooLongNeverArrives | 3rdparty/enet/enet-1.3.15/protocol.c:1504-1519 | a packet that ends eight or more windows past its predecessor's last command is never handed on, in any run |
| Progress.HandedOnExactly | 3rdparty/enet/enet-1.3.15/protocol.c:1504-1519 | in every state of every run: the next packet can still be handed on, by some further steps, exactly when it fits into the windows and no command exactly eight windows behind the receiver is without an acknowledgement that must come first |
| Progress.AcknowledgesExactly | 3rdparty/enet/enet-1.3.15/peer.c:592-603 | of the commands that may arrive, the receiver leaves unacknowledged exactly those seven or eight windows ahead and those eight behind |
| Progress.StuckStays | 3rdparty/enet/enet-1.3.15/peer.c:592-603 | once such a command blocks the sender, every step leaves it blocked |
| Progress.OneBytePacketIsNeverHandedOn | 3rdparty/enet/enet-1.3.15/peer.c:592-603 | the concrete run: 36864 packets of one byte are sent, and of the first only the acknowledgement is lost; the next packet can never be handed on |
| LongPackets.LongPacketIsQueuedAgain | 3rdparty/enet/enet-1.3.15/protocol.c:524-627 | for every packet that reaches a third window and can be delivered: ten windows on, a repeated copy of its last fragment makes the receiver queue it anew |
| LongPackets.EntryStays | 3rdparty/enet/enet-1.3.15/peer.c:787-824 | whatever packets are handed on in turn, up to its number, the entry stays as it is |
| LongPackets.NewPacketIsLost | 3rdparty/enet/enet-1.3.15/peer.c:854-884 | a new packet whose number such an entry has is discarded and acknowledged |
| LongPackets.LongPacketCostsAnother | 3rdparty/enet/enet-1.3.15/protocol.c:524-627 | the whole course for every such packet: queued again, kept while other packets are handed on, and the packet a turn of numbers later is discarded and acknowledged |
| LongPackets.EightThousandFragments | 3rdparty/enet/enet-1.3.15/protocol.c:524-627 | the concrete input: a packet of 8192 fragments numbered 1 to 8192, one more copy of the last at number 40960, and then the packets from 40961 to 60000 handed on in turn: the second packet with number 1 is lost |
| Outboxes.GateMeans | 3rdparty/enet/enet-1.3.15/protocol.c:1504-1511 | the test on reliableWindows and usedReliableWindows is the one on outstanding serials |
| Outboxes.NumberMeans | 3rdparty/enet/enet-1.3.15/protocol.c:198-233 | on a channel, a 16-bit number names one waiting command at most |
| Senders.Sender.constructor | 3rdparty/enet/enet-1.3.15/protocol.c:352-366 | a new peer's channels have nothing outstanding and start at number 0 |
| Senders.Sender.Queue | 3rdparty/enet/enet-1.3.15/peer.c:619-641 | a command gets the next number of its channel, or of the peer if it is a control command, and goes to the end of the list |
| Senders.Sender.TransmitAt | 3rdparty/enet/enet-1.3.15/protocol.c:1535-1600 | a command moves from the outgoing to the sent list with its time, attempt and timeouts; a first transmission is the next of its channel; the window counters, the used-window bits, the data in transit and the next timeout follow |
| Senders.Sender.SendReliable | 3rdparty/enet/enet-1.3.15/protocol.c:1485-1606 | for any queue: the sent list gets exactly the commands that are eligible and come before the first eligible one that does not fit, in order, and the queue keeps exactly the rest; eligible means that no channel's window test has failed up to it and, for a packet, that no packet so far would have been more in transit than the throttled window; fitting means 32 commands, 65 buffers and the MTU; a ping is possible exactly when nothing is eligible, and the caller is to go on exactly when something did not fit |
| Sendings.OneOutcome | 3rdparty/enet/enet-1.3.15/protocol.c:1485-1606 | what is sent, and where it ends, is determined by the list, the channels, the window and the datagram: no two outcomes satisfy that description |
| Senders.Sender.RemoveSent | 3rdparty/enet/enet-1.3.15/protocol.c:198-281 | an acknowledgement is good for something exactly when a command in either list has this number and channel; then exactly one of them is removed, from the sent list if it is there; counters, bits and data in transit follow |
| Senders.Sender.TimeOut | 3rdparty/enet/enet-1.3.15/protocol.c:1462-1477 | a command goes back before the commands never sent, behind those that timed out before it, with twice its timeout, and stays outstanding |
| Senders.Sender.CheckTimeouts | 3rdparty/enet/enet-1.3.15/protocol.c:1432-1480 | gives the peer up exactly when, at some expired command, the oldest time seen is at least the maximum back, or the minimum if that command has reached its limit: so never before the minimum, and exactly at the maximum if no expired command has reached its limit; else exactly the expired commands go back, in order, with twice their timeout, and the others stay |
| Timeouts.EarliestMeans | 3rdparty/enet/enet-1.3.15/protocol.c:1449-1451 | for any times, earliestTimeout is the oldest of the times of the commands that expired, where an expired command with the time 0 makes the peer start afresh behind it |
| Timeouts.OldestOfAll | 3rdparty/enet/enet-1.3.15/protocol.c:1449-1451 | when no command has the time 0, that is the least time of all expired commands and of earliestTimeout before |
| Timeouts.NotBeforeMinimum | 3rdparty/enet/enet-1.3.15/protocol.c:1453-1460 | with a minimum not above the maximum, a peer is given up only if some command has expired and the oldest time is at least the minimum back |
| Timeouts.NobodyIsLost | 3rdparty/enet/enet-1.3.15/protocol.c:1432-1480 | after a scan every command is in exactly one of the two lists |
| Framing.StreamBuffer.AddData | src/corelib/DataStreamBuf.cpp:36-57 | appends bytes |
| Framing.StreamBuffer.AddDataFront | src/corelib/DataStreamBuf.cpp:161-179 | puts bytes back in front |
| Framing.StreamBuffer.GetData | src/corelib/DataStreamBuf.cpp:113-151 | takes as many bytes from the front as were asked for, or all there are, across any number of blocks |
| Framing.StreamBuffer.GetPacket | include/corelib/packetunit.h:13-43 | takes the first packet when all of it is there, and else leaves the buffer as it was |
| Framing.ExtractedMore | include/corelib/packetunit.h:13-43 | the packets found do not depend on where the stream was cut |
| Framing.OnePacketAndAHalf | include/corelib/packetunit.h:13-43 | on concrete bytes: the length is little-endian and counts the eight bytes of the header |
| Framing.Connection.SendPacket | src/clovertun/TCPBase.cpp:79-85 | appends a packet to the send list |
| Framing.Connection.SendProcess | src/clovertun/TCPBase.cpp:174-225 | writes the first packet of the list to the socket in any number of parts: all of it exactly when the socket takes that much, else as much as it takes, and the connection has failed |
| Framing.Connection.RecvProcess | src/clovertun/TCPBase.cpp:227-263 | one read: the callback gets all packets that are complete then, and the rest stays |
| Framing.PacketsArriveInOrder | src/clovertun/TCPBase.cpp:174-263 | for any two connected ends and any cuts, what the callback got is a prefix of the packets sent, and the buffer holds a proper prefix of the next |
| Framing.NextReadProgresses | src/clovertun/TCPBase.cpp:243-260 | between two such ends the receive loop always ends |
| Framing.EndsExactly | src/clovertun/TCPBase.cpp:243-260 | on any bytes, the receive loop ends exactly when no packet it comes to has Length 0 |
| Framing.EightZeroBytes | src/clovertun/TCPBase.cpp:243-260 | eight zero bytes are an input on which it does not end |
| Sessions.P2PConnection.constructor | src/clovertun/P2PConnection.cpp:5-29 | a session starts listening, without guest, endpoints or reports |
| Sessions.P2PConnection.TCPConnected | src/clovertun/P2PConnection.cpp:129-171 | a guest joins a listening session: both sides are told to send their datagram; any other session refuses |
| Sessions.P2PConnection.UDPListening | src/clovertun/P2PConnection.cpp:173-196 | the host's endpoint is recorded, once |
| Sessions.P2PConnection.UDPConnected | src/clovertun/P2PConnection.cpp:198-226 | the guest's endpoint is recorded and each side is sent the other's |
| Sessions.P2PConnection.SetP2POK | src/clovertun/P2PConnection.cpp:228-270 | a report sets its side's flag; with both flags the session is connected and both sides are told |
| Sessions.P2PConnection.ConnTCPDisconnect | src/clovertun/P2PConnection.cpp:272-297 | the guest leaves: the session listens again, without endpoints, the host is told, and the two flags stay |
| Sessions.P2PConnection.TCPProxyRequest | src/clovertun/P2PConnection.cpp:330-353 | both sides are told to relay, if there is a guest |
| Sessions.TcpRegistry.CreateTCPID | src/clovertun/P2PServer.cpp:186-211 | the id is the first unused one from the counter on, around the end |
| Sessions.P2PClient.HostReceives | src/clovertun/P2PHost.cpp:130-254 | the host's reaction to every packet from the server: status, identity, remote endpoint, answers, and the two events |
| Sessions.P2PClient.GuestReceives | src/clovertun/P2PGuest.cpp:95-200 | the guest's reaction to every packet from the server: status, identity, remote endpoint, answers, and the two events |
| Sessions.P2PClient.Turn | src/clovertun/P2PHost.cpp:57-103 | a turn of the client's loop: a change of status is looked at before the stop event, which ends the loop for good |
| Sessions.P2PClient.KeepAliveReceived | src/clovertun/P2PClient.cpp:526-549 | a keep-alive that names the peer makes a punching client report success |
| Sessions.OneReportIsEnoughForSecondGuest | src/clovertun/P2PConnection.cpp:228-297 | after a connected guest has left, one report connects the session of the next |
| Sessions.OneReportIsTooFewExactly | src/clovertun/P2PConnection.cpp:228-270 | when a guest joins: no single report can connect the session exactly when both flags are clear then |
| Rendezvous.NextKeeps | src/clovertun/P2PServer.cpp:281-468 | every step of any number of clients and the server keeps the invariant that ties sessions, links, reports and clients together |
| Rendezvous.BothSidesAgree | src/clovertun/P2PConnection.cpp:173-226 | in every state of every run and for any guest of a session: a guest that is punching or connected holds the host's id and the endpoint recorded for the host; a host that is holds its own id, and the endpoint recorded for the guest once no TPT_START_UDP is on its link |
| Rendezvous.HostDisagreesExactly | src/clovertun/P2PConnection.cpp:272-297 | a punching or connected host holds something else exactly when a TPT_START_UDP is on its link and it was told of no guest yet or holds another endpoint; then a guest has left, and the host has been told to stop or will be before it takes that packet |
| Rendezvous.LaterGuestMeetsStoppedHost | src/clovertun/P2PHost.cpp:236-247 | whenever a host has taken everything it was told up to the TPT_START_UDP of a later guest, its stop event is set |
| Rendezvous.ConnectedAfterBothReported | src/clovertun/P2PConnection.cpp:228-270 | in every state of every run, as long as a session's guest is its first: a side is connected only when reports of both were received, and both hold each other's endpoint |
| Rendezvous.LaterGuestIsNotMet | src/clovertun/P2PConnection.cpp:272-297 | the disagreement does come about: from every state in which the host is punching or connected and another guest waits, two steps lead to one in which the host still is, with the former guest's endpoint, and TPT_RESET and TPT_START_UDP are on its link |
| Rendezvous.HostPunchesAtFormerGuest | src/clovertun/P2PConnection.cpp:272-297 | the concrete run: from the start, a host, its first guest and a second one come to a state in which the host punches at the first guest's address while the second is its guest, and the two packets are still on its link |
| Meetings.EveryGuestCanBeMet | src/clovertun/P2PConnection.cpp:129-270 | in every run, when a guest has joined a session whose host is not being stopped: for any two endpoints, an explicit list of further steps leads to a world in which session, host and guest are connected, both clients hold the endpoint recorded for the other, and neither has stopped |
| Meetings.EveryGuestCanBeRelayed | src/clovertun/P2PConnection.cpp:330-353 | and another list of steps to one in which both relay |
| Meetings.HostAndGuestMeet | src/clovertun/P2PConnection.cpp:129-270 | the concrete run, step by step: a host and a guest arrive with the same keyword, and in the end both are connected |
| Meetings.ConnectIsAnswered | src/clovertun/P2PServer.cpp:318-350 | in every run a request to connect is refused exactly when there is no session with its keyword or that session is not listening; else the guest joins it and both sides are told |
| Meetings.WaitIsAnswered | src/clovertun/P2PServer.cpp:286-316 | in every run a host is refused exactly when its keyword is in use; else its session is opened |
| Meetings.StopsExactly | src/clovertun/P2PHost.cpp:130-254 | a packet stops a client exactly when it refuses its request to wait or to relay, or is a reset and the client is a host |
| Meetings.RunIsQuiet | src/clovertun/P2PConnection.cpp:129-171 | in every state of every run a host that no guest has joined yet is still waiting for one, or was refused; and no guest stops before it is refused or connected |
| Rendezvous.SessionsAreApart | src/clovertun/P2PServer.cpp:234-253 | in every state of every run a keyword has one session at most and a link is in one at most |
| Checksums.Reflected32At | 3rdparty/enet/enet-1.3.15/packet.c:104-116 | bit i of a reflected word is bit 31 - i of the word |
| Checksums.Reflected8At | 3rdparty/enet/enet-1.3.15/packet.c:104-116 | bit i of a reflected byte is bit 7 - i of the byte |
| Checksums.ReflectCrc | 3rdparty/enet/enet-1.3.15/packet.c:104-116 | the loop, with C's signed shift, reverses the lowest bits of a word |
| Checksums.ByteAtOnce | 3rdparty/enet/enet-1.3.15/packet.c:142-163 | one table look-up does the work of dividing by the generator eight times |
| Checksums.InitializeCrc32 | 3rdparty/enet/enet-1.3.15/packet.c:118-139 | each of the 256 entries is the remainder of its byte |
| Checksums.Crc32 | 3rdparty/enet/enet-1.3.15/packet.c:142-163 | over any buffers, the result is the inverted, reflected remainder of the bits of their bytes by the generator, bit by bit, in network byte order |
| Checksums.CheckValue | 3rdparty/enet/enet-1.3.15/packet.c:142-163 | the digits 1 to 9 have the checksum CBF43926 |
| Checksums.NetworkOrder | 3rdparty/enet/enet-1.3.15/packet.c:162 | on a host of either byte order the highest byte comes first in memory, and changing the order twice changes nothing |
| Checksums.BurstIsDetected | 3rdparty/enet/enet-1.3.15/packet.c:142-163 | any two messages that differ only within 32 successive bits have different checksums |
| Unsequenced.Arrival | 3rdparty/enet/enet-1.3.15/protocol.c:472-489 | the code's comparisons on 16-bit groups mean the comparisons on the groups' true numbers |
| Unsequenced.ReachIs | 3rdparty/enet/enet-1.3.15/protocol.c:479-482 | what is within reach of the base is what is less than 32 windows of 1024 groups past it |
| Unsequenced.LooksNewExactly | 3rdparty/enet/enet-1.3.15/protocol.c:472-482 | any copy passes for one within reach exactly when its distance from the base, modulo 65536, is less than 32768 |
| Unsequenced.Window.HandleSendUnsequenced | 3rdparty/enet/enet-1.3.15/protocol.c:472-496 | a group is queued exactly when it is less than 32 windows past the base, was not queued before, and there is memory: never twice; the base and the bitmap follow |
| Unsequenced.OldCopyLooksNewExactly | 3rdparty/enet/enet-1.3.15/protocol.c:472-482 | a copy from before the base, at most one round of 65536 groups old, passes as new exactly when it is more than 32 windows old |
| Hosts.Host.OnConnect | 3rdparty/enet/enet-1.3.15/peer.c:342-352 | both counters go up by what the peer adds when it becomes live |
| Hosts.Host.OnDisconnect | 3rdparty/enet/enet-1.3.15/peer.c:354-364 | both counters go down by what a live peer added, never below zero |
| Hosts.Host.ChangeState | 3rdparty/enet/enet-1.3.15/protocol.c:36-44 | from any state to any other, connectedPeers and bandwidthLimitedPeers remain the true numbers |
| Hosts.Host.Reset | 3rdparty/enet/enet-1.3.15/peer.c:371-433 | resets the peer to a literal fresh state (throttle 32 of 32, interval 5000, acceleration and deceleration 2) and keeps both counters true |
| Hosts.Host.Connect | 3rdparty/enet/enet-1.3.15/host.c:278-305 | takes the first peer not in use, if there is one |
| Hosts.Host.HandleConnect | 3rdparty/enet/enet-1.3.15/protocol.c:284-338 | refuses exactly for a bad channel count, a connect command that was handled before, no peer not in use, or too many peers of the same host; else takes the first peer not in use, sets its address, connect id and bandwidths while it is not counted, and the same command is refused from then on |
| Hosts.Host.Search | 3rdparty/enet/enet-1.3.15/protocol.c:299-323 | finds the first peer not in use, whether the command was handled before, and the number of peers from the same host |
| Hosts.Host.HandleVerifyConnect | 3rdparty/enet/enet-1.3.15/protocol.c:933-991 | a peer whose request was answered with other values becomes a zombie; else its bandwidths are set before it is counted, and only for a peer that is connecting |
| Hosts.Host.NotifyConnect | 3rdparty/enet/enet-1.3.15/protocol.c:119-134 | a peer is counted only when an event can be delivered, and the limits are to be recalculated |
| Hosts.Host.NotifyDisconnect | 3rdparty/enet/enet-1.3.15/protocol.c:136-159 | a peer is reset or becomes a zombie, the counters stay true, and the limits are to be recalculated from CONNECTION_PENDING on |
| Hosts.Host.HandleDisconnect | 3rdparty/enet/enet-1.3.15/protocol.c:806-833 | in each of the ten states the peer ends in the right one, never live, and the counters stay true |
| Hosts.Host.HandleBandwidthLimit | 3rdparty/enet/enet-1.3.15/protocol.c:759-772 | bandwidthLimitedPeers stays the number of live peers with a bandwidth when one changes |
| Hosts.Host.Disconnect | 3rdparty/enet/enet-1.3.15/peer.c:529-566 | a live peer goes on disconnecting, others are reset; the counters stay true |
| Hosts.Host.DisconnectWhenSent | 3rdparty/enet/enet-1.3.15/peer.c:572-586 | waits for what is queued, and else disconnects; the counters stay true |
| Bandwidth.TooMuchCosts | 3rdparty/enet/enet-1.3.15/host.c:489-510 | a peer that gets a limit of its own costs less than the throttle had in mind for it and less than its data, so the unsigned subtractions of bandwidth and dataTotal never wrap |
| Bandwidth.ThrottleIsLargest | 3rdparty/enet/enet-1.3.15/host.c:473-476 | the throttle is the largest of the levels 0 to 32 at which the data is within the bandwidth |
| Bandwidth.ThrottleFalls | 3rdparty/enet/enet-1.3.15/host.c:469-511 | taking a limited peer's cost from bandwidth and data never raises the throttle |
| Bandwidth.JudgedOnce | 3rdparty/enet/enet-1.3.15/host.c:469-511 | so every pass after the first limits nobody |
| Bandwidth.OutgoingPasses | 3rdparty/enet/enet-1.3.15/host.c:469-511 | the passes end, and come to what the first one does: exactly the peers for which the first throttle is too much get a limit of their own |
| Bandwidth.NobodyGetsTooMuch | 3rdparty/enet/enet-1.3.15/host.c:483-533 | a peer that names a bandwidth is let send no more bytes than that rate gives in the time, unless its limit is the least there is; its counts start anew |
| Budgets.FairToEach | 3rdparty/enet/enet-1.3.15/host.c:483-533 | whatever is fair in the sense in which the throttle is (`Bandwidth.BandwidthThrottle`): the limit of a peer that names a bandwidth is 1, or lets no more of its data through than that rate gives in the time |
| Bandwidth.ShareOutgoing | 3rdparty/enet/enet-1.3.15/host.c:453-537 | every live peer gets exactly its share, in two formulas, of the whole bytes that the host's rate gives in the time (`Budgets.FairAt`) |
| Bandwidth.TotalFits | 3rdparty/enet/enet-1.3.15/host.c:483-533 | no limit, whether a peer's own or the common one, is above the first throttle, so that what is let through is in all at most what the first throttle lets through |
| Bandwidth.ShareIncoming | 3rdparty/enet/enet-1.3.15/host.c:539-575 | exactly the peers below the limit keep their own bandwidth; the limit is an even share of what they leave to the others |
| Bandwidth.ToldNoBoundExactly | 3rdparty/enet/enet-1.3.15/host.c:551-590 | a peer is told 0, which means no bound, exactly when it named no bandwidth itself or the limit is 0 |
| Bandwidth.BandwidthThrottle | 3rdparty/enet/enet-1.3.15/host.c:431-593 | the whole call: nothing before 1000 milliseconds are over; else everybody's limit is the largest number of 32nds for which the data is within the whole bytes of the budget, or, for a peer for which that is too much, within its own (`Budgets.Fair`); 1000 times what is set aside, and also what the limits let through, is at most the host's rate times the time; and, if limits are to be recalculated, one announcement to every live peer, in order, together within the host's bandwidth, under a limit that could not be one more for those it holds back |

## Left out

- Failure of memory allocation, logging, locks, threads and timers; sockets are what they read and write.
- `compress.c` with ENET_CONTEXT_EXCLUSION, which is not defined in this build.
- ENet's linked lists: sequences stand for them, so relinking of nodes and aliasing between lists are not modelled.
- The wrap-around of ENet's 32-bit time, and how round trip, packet throttle and window size are estimated or agreed
  on: their values are parameters of `Senders.Sender.SendReliable` and `Senders.Sender.CheckTimeouts`.
- Unreliable commands and their dispatch; unreliable fragments.
- Encoding and checking of datagram headers and session ids; the choice of connect ids, MTU and window size in a
  connect command, and their exchange.
- The refusal of packets of more than 2^20 fragments by the sender: `Transport` sends them too.
- That control commands have different numbers while they wait: nothing in the code bounds how many may.
- A peer that disconnects once everything has been sent: only its state is modelled, not the moment it goes on.
- The flag that says that the CRC's table has been made.
- Wrap-around of the stream buffer's 32-bit size, and reading the whole of it at once.
- Relaying of payload by the server, and the choice between punching and relaying in the client's threads.
- The error code a client ends with, the event that ends its loop when a connection has been made, and what its owner
  does after the loop.
- Fairness: nothing makes the network deliver. `Progress` says what may still be handed on, and `Meetings` what may
  still be reached, not that it will be.
