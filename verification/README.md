# Verified models of the Go reference implementation

Dafny models of the parts of the Go implementation whose correctness is a property of whole runs:
the framed byte pipeline of the data plane, the two-party commerce protocol with its topics and its
escrow, the delivery channels with their reconnection, and the small incremental structures behind
the operator's displays.  Every property below is proved for all inputs, all interleavings and all
runs of the model.  `dafny verify dfyconfig.toml` checks the whole project.

| file | what it models |
|---|---|
| Framing.dfy | length-prefixed frames over a byte stream: FrameWriter and FrameReader |
| Streams.dfy | SendStream and ReceiveStream, alone and as a concurrent pipeline down to single bytes |
| FileTransfer.dfy | SendFile, SendAsset and ReceiveFile on top of frames |
| Bus.dfy | MemoryBus: topics, replaying subscriptions, unlocked fan-out |
| Tables.dfy, Agreement.dfy | transition tables, the lookup maps built from them, the agreement machine |
| Escrow.dfy | MemoryEscrow: deposits, two-step releases, refunds |
| Commerce.dfy | buyer and seller over two topics and one escrow, as a step system |
| Parties.dfy | the code of the two parties under arbitrary interference, and each run of Commerce as runs of that code |
| Wired.dfy | the parties of Commerce on the topics of Bus, with replay, fan-out and bounded buffers |
| Limits.dfy | runs of Wired beyond a channel's capacity, and with an early clean-up |
| Connection.dfy | the connection state machine (FR-D08) |
| Channels.dfy | the channel registry under interleaved connects, disconnects and reconnections |
| Backoff.dfy | the backoff delays and the reconnection loop |
| Feed.dfy | track state, broadcast, and clients that subscribe and then take a snapshot |
| Rates.dfy | the pruned ring of counter samples and the message rate |
| Focus.dfy | the initial map focus |
| Gate.dfy | payment-gated forwarding with a shared frame limit |
| Mirror.dfy | the mirror-node cursor and the wait for a payload type |
| Reconnect.dfy | one seller's sessions and their supervisor |
| Sessions.dfy | the registry of open sessions |

Code that changes objects in place is modelled by classes and methods with loops, proved against
specification functions.  Where goroutines interleave, a step system cuts the same code at the points
where another goroutine, the bus, the ledger or the transport can come in between, and the theorems
range over all its runs.

What the proofs assume of the outside: JSON coding of metadata is a pair of functions that undo each
other on the metadata in question and give a non-empty frame; SHA-256, keccak-256 and the great-circle
distance are arbitrary functions (the distance of a place to itself is 0); floating point is exact
arithmetic, except for the conversion of a delay to a 64-bit duration; a mirror node answers with a
prefix of its topic, of at most a hundred entries, in ascending order of sequence numbers.

## Where the code does not do what it says

Each of these is a lemma with the failing input and one with the exact condition.

- ReadFrame returns io.EOF also for a stream cut right after a header (`Framing.EofIffCleanOrLoneHeader`),
  and ReceiveStream reports a truncated stream as closed by the peer (`Streams.NilAlsoOnTruncation`).
- SendStream returns nil with records unwritten when the channel was disconnected meanwhile
  (`Streams.NilWithNothingSent`, `Streams.SenderNilIff`).
- ReceiveFile panics on metadata that declare a negative size (`FileTransfer.PanicAndSuccess`).
- CreateTopic can return one locator twice once something was published to a topic nobody created
  (`Bus.CreatedLocatorsCollide`, `Bus.CollisionIff`).
- Publish can send on a channel that a cancelled subscriber's cleanup has closed (`Bus.PanicReachable`,
  `Bus.PanicIff`), live messages ignore FromSequence (`Bus.NoneBelowFromIff`) and can overtake the replay
  (`Bus.LiveCanOvertakeReplay`, `Bus.DisorderIff`, `Bus.OrderIff`).
- A topic with one message more than a channel holds can lose the message that a party waits for
  (`Limits.OneMoreMessageCanBlock`, `Limits.NeverBlocksIff`), and a session by itself can panic when the
  buyer's first subscription is cleaned up too early (`Limits.PlainSessionCanPanic`, `Bus.PanicIff`).
- A seller whose binding is left to its default "evm-escrow" cannot settle over the in-memory escrow
  (`Commerce.SettlesIff`).
- A channel that is disconnected while it reconnects reads DISCONNECTED but can come back to life on a new
  stream (`Channels.MachineGoesDownIff`, `Channels.DisconnectedWhileReconnecting`), and two concurrent
  StartReconnection calls can leave two loops (`Channels.TwoLoopsReachable`, `Channels.OneLoopIff`).
- NextDelay converts before it caps, so from some attempt on the delay can be negative
  (`Backoff.DelayIsCappedIff`, `Backoff.DefaultOverflowsAtAttempt31`), and then the loop need not end
  (`Backoff.OverflowStopsWaiting`, `Backoff.EndsWithinIff`).
- Two tracks of different nodes have one key exactly when the separator occurs in a node id in a way that
  lets one pair of ids hide behind the other (`Feed.KeyCollisionIff`).
- Two ingest connections that write one track can leave a display with the older one
  (`Feed.SharedKeyDiverges`, `Feed.ConvergesIff`).
- FocusFor depends on the order of the tracks when two nodes report one uid
  (`Focus.SharedUidDependsOnOrder`, `Focus.OrderIndependentIffTopsAgree`).
- Admitted streams can together forward more frames than the limit (`Gate.BoundIsReached`,
  `Gate.ForwardsAtMostIff`, `Gate.LimitHoldsIff`).
- The mirror poller never sees past the hundredth entry of a topic or past an entry that is not base64
  (`Mirror.CanSeeIff`), and a message published by the polling process itself is logged twice
  (`Mirror.LocalPublishIsLoggedTwice`, `Mirror.LoggedOnceIff`, `Mirror.StaysLoggedOnceIff`).

## Model

| member | source | states |
|---|---|---|
| Framing.PutUint32Inverts | impl/golang/internal/delivery/framing.go:36-37 | the coding is a bijection between 32-bit numbers and four bytes |
| Framing.BigEndian | impl/golang/internal/delivery/framing.go:36-37 | the most significant byte comes first: the smaller number has the lexicographically earlier prefix, for all pairs; only one bijection does that |
| Framing.ShortPrefix | impl/golang/internal/delivery/framing.go:36-37 | a payload of n < 256 bytes goes out behind 0, 0, 0, n |
| Framing.PrintThenParse | impl/golang/internal/delivery/framing.go:28-103 | cutting the bytes of any records followed by any incomplete bytes gives back exactly those records and those bytes |
| Framing.ParseThenPrint | impl/golang/internal/delivery/framing.go:75-103 | every byte stream whatever is the encoding of its complete frames followed by a leftover that starts no complete frame |
| Framing.ParseAppend | impl/golang/internal/delivery/framing.go:75-103 | parsing is incremental: later bytes only extend the frames, and only the leftover has to be remembered |
| Framing.TruncationYieldsPrefix | impl/golang/internal/delivery/framing.go:75-103 | a stream cut at any byte yields a prefix of the frames and of the payloads, never a partial one |
| Framing.ReadFrameMeaning | impl/golang/internal/delivery/framing.go:75-103 | one call of the specification returns the first non-empty payload of any byte stream and leaves the rest, or fails with the error of the leftover when there is none |
| Framing.ReadAllMeaning | impl/golang/internal/delivery/framing.go:75-103 | reading until it fails returns all non-empty payloads of any byte stream in order, and the error of the bytes left over |
| Framing.WrittenFramesReadBack | impl/golang/internal/delivery/framing.go:28-59 | any mix of WriteFrame and WriteKeepAlive reads back as exactly the non-empty payloads in order, then EOF |
| Framing.ReencodeDropsKeepAlives | impl/golang/internal/delivery/framing.go:75-103 | for an arbitrary byte stream, re-encoding what was read gives the completed frames with the zero prefixes deleted |
| Framing.DropKeepAlivesOfFrames | impl/golang/internal/delivery/framing.go:87-90 | deleting zero prefixes byte by byte is the same as encoding only the non-empty records |
| Framing.EofIffCleanOrLoneHeader | impl/golang/internal/delivery/framing.go:72-103 | io.EOF, documented as "exhausted", comes exactly when the stream ends normally with nothing left over or with a header whose payload never started |
| Framing.EndErrors | impl/golang/internal/delivery/framing.go:72-103 | the error at the end of any stream: FrameTooLarge at a prefix above 4 MiB, otherwise the fault of the stream, otherwise EOF or, within a frame, unexpected EOF |
| Framing.CutAfterHeaderLooksClean | impl/golang/internal/delivery/framing.go:97-100 | for every non-empty record: cut right after its header the stream reads as a clean end although the record is lost |
| Framing.ByteSink.Write | impl/golang/internal/delivery/framing.go:38-47 | the transport takes all of the bytes, or a prefix of them and fails |
| Framing.FrameWriter.WriteFrame | impl/golang/internal/delivery/framing.go:28-50 | refuses exactly the payloads over 4 MiB without writing; success appends exactly prefix and payload, failure leaves a prefix of them |
| Framing.FrameWriter.WriteKeepAlive | impl/golang/internal/delivery/framing.go:53-59 | success appends exactly four zero bytes, which is the encoding of the empty payload |
| Framing.ByteSource.ReadFull | impl/golang/internal/delivery/framing.go:79-81 | io.ReadFull: all n bytes, or the remaining ones with EOF, UnexpectedEOF or the fault |
| Framing.FrameReader.ReadFrame | impl/golang/internal/delivery/framing.go:75-103 | the loop, which consumes at least four bytes a pass, returns and consumes exactly what the specification says |
| Streams.WireIsEncodeAll | impl/golang/internal/delivery/streamframing.go:34-52 | what SendStream has to write for the first n records is the encoding of those that fit into a frame |
| Streams.Send | impl/golang/internal/delivery/libp2p_adapter.go:164-177 | adapter.Send writes one frame or fails: with ChannelClosed exactly when the channel is no longer registered, then without writing, and with FrameTooLarge exactly for an oversized record on a registered one; only the former counts as a closed stream |
| Streams.SendStream | impl/golang/internal/delivery/streamframing.go:23-55 | stops at the first record that is too large, that the transport does not take whole, or that finds the channel gone; nil exactly when every record was written, in order and whole, or the channel was gone when the next one was to be sent |
| Streams.ReceiveStream | impl/golang/internal/delivery/streamframing.go:65-111 | emits every payload the reader yields, in order, until a look-up finds the channel gone, which is nil, or a read fails, which is nil or the error by its classification |
| Streams.NilAlsoOnTruncation | impl/golang/internal/delivery/streamframing.go:90-100 | the documented "peer closed the stream" also covers truncation: on a channel that stays registered nil is returned exactly when the bytes end with EOF and no oversized prefix stands in front of the end |
| Streams.SenderStepKeeps | impl/golang/internal/delivery/streamframing.go:34-52 | sender, also when another goroutine disconnects the channel meanwhile: bytes sent plus bytes pending are always the encoding of the records taken, unless Send failed |
| Streams.PayloadsAfterRead | impl/golang/internal/delivery/framing.go:75-103 | a read that asks for no more than ReadFull does completes at most one frame, and exactly |
| Streams.ReceiverStepKeeps | impl/golang/internal/delivery/streamframing.go:76-111 | receiver: what is out plus what is held, queued or in the goroutine is always the payload sequence of the bytes read |
| Streams.StepKeeps | impl/golang/internal/delivery/streamframing.go:23-111 | every step of writer, transport, reader goroutine and forwarding loop keeps both |
| Streams.EmittedIsPrefixOfSent | impl/golang/internal/delivery/streamframing.go:23-111 | for every interleaving, chunking, failure, disconnection and cancellation: what came out is a prefix of the non-empty records that went in and fit into a frame |
| Streams.SenderNilIff | impl/golang/internal/delivery/streamframing.go:44-50 | over every run: unless cancelled, SendStream has returned nil exactly when every record is written whole or Send failed with an error that counts as closed, and otherwise that error: the failure of the write, a record too large, or the channel gone, when exactly the records before that one are written |
| Streams.NilWithNothingSent | impl/golang/internal/delivery/streamframing.go:16-20 | documented as the end of the input, nil also follows a disconnection by another goroutine, with nothing written, for every non-empty input |
| Streams.ReceiverNilIff | impl/golang/internal/delivery/streamframing.go:96-111 | over every run: once ReceiveStream has returned uncancelled, every payload read is out, and it returned nil exactly when what ended the reading counts as closed, and else that very error: the failure of the transport as it was, or what the bytes read amount to |
| Streams.ClosingErrors | impl/golang/internal/delivery/streamframing.go:112-129 | wrapped by Receive or Send, exactly EOF and unexpected EOF count as closed; a reset, an oversized prefix and a cancellation do not |
| Streams.WrappedErrors | impl/golang/internal/delivery/libp2p_adapter.go:164-205 | Receive and Send report a stream error that mentions a too large frame exactly when there was one, and otherwise keeps the cause |
| Streams.StepWorks | impl/golang/internal/delivery/streamframing.go:23-111 | every step uses up work, so no interleaving goes on for ever |
| Streams.RunsEnd | impl/golang/internal/delivery/streamframing.go:23-111 | the length of every run is bounded by the input |
| Streams.GracefulStepKeeps | impl/golang/internal/delivery/streamframing.go:23-111 | without failures, cancellation or oversized records the loops only stop at the end of the input and of the stream |
| Streams.ProgressUntilComplete | impl/golang/internal/delivery/streamframing.go:23-111 | with a draining consumer there is always a next step until everything has arrived |
| Streams.GracefulRunsDeliverAll | impl/golang/internal/delivery/streamframing.go:23-111 | a graceful run that cannot go on has delivered all non-empty records and both sides returned nil |
| FileTransfer.ChunksPartition | impl/golang/internal/delivery/filetransfer.go:90-105 | the chunks are non-empty, concatenate to the content, and are ceil(size / MaxFrameSize) in number |
| FileTransfer.SendChunks | impl/golang/internal/delivery/filetransfer.go:90-105 | the offset loop writes exactly the chunks as frames and counts them |
| FileTransfer.SendFile | impl/golang/internal/delivery/filetransfer.go:53-113 | writes the metadata frame and the chunks and reports name, size, digest and ceil(size / MaxFrameSize) frames; on a transport that takes all it fails only for metadata over 4 MiB |
| FileTransfer.SendAsset | impl/golang/internal/browserprofile/data_sender.go:73-91 | writes the same wire format as SendFile from an asset in memory |
| FileTransfer.ChunkLengthsSum | impl/golang/internal/browserprofile/data_sender.go:82-89 | the lengths of the data frames sum to the length of what they carry, hence to the declared size |
| FileTransfer.ReceiveFile | impl/golang/internal/delivery/filetransfer.go:121-178 | the loop computes its specification, reading no byte after the last frame it needs |
| FileTransfer.AnyPartitionReassembles | impl/golang/internal/delivery/filetransfer.go:137-161 | reassembly gives the content back from any partition of it into non-empty frames and reads exactly those |
| FileTransfer.TransferRoundTrip | impl/golang/internal/delivery/filetransfer.go:53-178 | for every content, the empty one included, and whatever bytes follow: receiving what SendFile wrote gives the content, the rounded-up frame count, and leaves what follows |
| FileTransfer.BackToBack | impl/golang/internal/delivery/filetransfer.go:53-178 | any number of transfers on one channel are received back to back |
| FileTransfer.SuccessIsDeclared | impl/golang/internal/delivery/filetransfer.go:137-161 | on any payloads: a success has exactly the declared length and digest, starts the data frames, and read no frame too many |
| FileTransfer.PanicAndSuccess | impl/golang/internal/delivery/filetransfer.go:137-161 | panics exactly when readable metadata declares a negative size; succeeds exactly when the size is not negative, enough data follows and the digest fits |
| FileTransfer.RefusalReasons | impl/golang/internal/delivery/filetransfer.go:121-178 | each refusal has its exact cause: unreadable metadata, less content than declared, or a digest that does not match |
| Bus.MemoryBus.CreateTopic | impl/golang/internal/edgeapp/bus.go:37-44 | the locator is numbered by the count of known topics; its log and counter start empty |
| Bus.MemoryBus.PublishLocked | impl/golang/internal/edgeapp/bus.go:48-59 | the message gets the next sequence number, nextSeq stays the log length, and the targets are those listed at that moment |
| Bus.MemoryBus.FanOut | impl/golang/internal/edgeapp/bus.go:67-75 | every target with room gets the number at the end of its buffer, a full one loses it |
| Bus.FanOutReachesEach | impl/golang/internal/edgeapp/bus.go:67-75 | so each listed channel with room gets it exactly once, and no other channel changes |
| Bus.MemoryBus.Publish | impl/golang/internal/edgeapp/bus.go:48-82 | with nobody in between, publishing logs the message and reaches the subscribers listed at its start, all of them open |
| Bus.MemoryBus.SubscribeLocked | impl/golang/internal/edgeapp/bus.go:88-110 | replays exactly the logged numbers from FromSequence on and lists a new channel |
| Bus.MemoryBus.Cleanup | impl/golang/internal/edgeapp/bus.go:113-123 | takes exactly this channel off the list and closes it |
| Bus.CreatedLocatorsDistinct | impl/golang/internal/edgeapp/bus.go:37-44 | when publications only go to created topics the i-th created locator is mem-topic-i |
| Bus.CollisionIff | impl/golang/internal/edgeapp/bus.go:37-59 | over every run of creations and publications: two creations can come to return one locator exactly when a publication goes to an uncreated counted name beyond the next; publications to any other name do no harm |
| Bus.CreatedLocatorsCollide | impl/golang/internal/edgeapp/bus.go:37-52 | publishing to a topic that was never created makes two later creations return one locator |
| Bus.ReplaysMeaning | impl/golang/internal/edgeapp/bus.go:95-108 | the replay holds every wanted logged number exactly once |
| Bus.StepKeeps | impl/golang/internal/edgeapp/bus.go:48-136 | every number meant for a subscriber is in exactly one place: received, buffered, still to be replayed, in flight or dropped |
| Bus.ChannelsAreBounded | impl/golang/internal/edgeapp/bus.go:48-136 | over every run no channel holds more than its 64 messages |
| Bus.ClosedWasCancelled | impl/golang/internal/edgeapp/bus.go:113-123 | over every run a subscription is only cancelled, and its channel only closed, after its subscriber cancelled |
| Bus.AtMostOnce | impl/golang/internal/edgeapp/bus.go:48-136 | in every reachable state no sequence number is received twice, nor one that was neither asked for nor published meanwhile |
| Bus.ExactlyOnce | impl/golang/internal/edgeapp/bus.go:48-136 | a live, drained subscriber whose buffer was never full has received every expected number exactly once; from the start of the log, 1 to its length |
| Bus.NoneBelowFromIff | impl/golang/internal/edgeapp/bus.go:48-110 | live messages ignore FromSequence: over all later runs a subscriber never receives a number below it exactly when it asked for numbers no later than the next one |
| Bus.TimelyRunsDoNotPanic | impl/golang/internal/edgeapp/bus.go:62-75 | no send hits a closed channel as long as no cleanup comes before a send in progress to that channel |
| Bus.EarlyCleanupPanics | impl/golang/internal/edgeapp/bus.go:62-75 | after any cleanup that comes before a send in progress, that send panics |
| Bus.PanicIff | impl/golang/internal/edgeapp/bus.go:62-75 | over every run: no send is about to panic at any point exactly when every cleanup waits for the sends in progress to its channel |
| Bus.PanicReachable | impl/golang/internal/edgeapp/bus.go:48-136 | subscribe, publish, cancel, clean up, send is a run from the empty topic that panics |
| Bus.OrderlyRunsDeliverInOrder | impl/golang/internal/edgeapp/bus.go:48-136 | when every send that enters a buffer does so after the replay and oldest first, every subscriber receives strictly increasing numbers |
| Bus.DisorderIff | impl/golang/internal/edgeapp/bus.go:62-108 | a send into an open channel with room makes some later receipt out of order exactly when a replay is outstanding or an older number is still in flight |
| Bus.OrderIff | impl/golang/internal/edgeapp/bus.go:48-136 | over every run: every subscriber receives strictly increasing numbers, then and in whatever orderly way the run goes on, exactly when every send that entered a buffer came after the replay and oldest first |
| Bus.LiveCanOvertakeReplay | impl/golang/internal/edgeapp/bus.go:85-87 | documented otherwise: in a run from the empty topic a live message overtakes the replay |
| Bus.ShortLogLeavesRoom | impl/golang/internal/edgeapp/bus.go:67-75 | as long as no more was logged than a channel holds, no send finds a full channel |
| Tables.BuildMap | impl/golang/internal/payment/agreement.go:95-103 | the initialiser's nested map answers exactly by the rows of the table |
| Tables.DescribedIsFunctional | impl/golang/internal/payment/agreement.go:64-90 | a table that a rule describes has no two targets for one state and event, so the order of its rows does not matter |
| Tables.TransitionMap | impl/golang/internal/delivery/connection.go:60-70 | the map built from such a table, as by init, answers for every state and event what the rule says |
| Agreement.TableMeaning | impl/golang/internal/payment/agreement.go:64-90 | the table and the rules read off state by state are the same relation |
| Agreement.AgreementStateMachine.Transition | impl/golang/internal/payment/agreement.go:139-156 | an allowed event moves the machine; any other is an error and changes nothing |
| Agreement.AgreementStateMachine.CheckDeadline | impl/golang/internal/payment/agreement.go:160-174 | rejects exactly an open negotiation whose deadline is set and past |
| Agreement.AgreementHistory | impl/golang/internal/payment/agreement.go:64-156 | over every sequence of events: final states are never left, IDLE is never re-entered, and FUNDED or later takes an accepted ESCROW_CREATED |
| Escrow.MemoryEscrow.CreateEscrow | impl/golang/internal/payment/mock_escrow.go:90-113 | opens an empty account under the next id, with the parties, currency, hash and timeout given |
| Escrow.MemoryEscrow.Deposit | impl/golang/internal/payment/mock_escrow.go:117-143 | adds a positive decimal amount to a known account, or is an error and changes nothing |
| Escrow.MemoryEscrow.Available | impl/golang/internal/payment/mock_escrow.go:33-44 | the balance minus what is requested and not yet approved |
| Escrow.MemoryEscrow.GetBalance | impl/golang/internal/payment/mock_escrow.go:147-161 | reports the available amount |
| Escrow.MemoryEscrow.RequestRelease | impl/golang/internal/payment/mock_escrow.go:165-198 | records a request that the available balance covers under a new id, or is an error and changes nothing |
| Escrow.MemoryEscrow.ApproveRelease | impl/golang/internal/payment/mock_escrow.go:202-233 | pays a pending request out of the balance to its recipient and removes it, or is an error and changes nothing |
| Escrow.MemoryEscrow.ClaimRefund | impl/golang/internal/payment/mock_escrow.go:237-258 | from the timeout on, empties the account and drops its requests |
| Escrow.DoSound | impl/golang/internal/payment/mock_escrow.go:90-258 | every operation keeps balances and releases non-negative and pending requests covered by the balance |
| Escrow.RefusalReasons | impl/golang/internal/payment/mock_escrow.go:90-258 | a refused operation leaves with the error of its kind, and with InvalidEscrowRef exactly when the reference names no account of this ledger |
| Escrow.Conservation | impl/golang/internal/payment/mock_escrow.go:90-258 | over every sequence of operations and for every account: deposited equals balance plus released plus refunded, and what is reported as released is what was paid out |
| Escrow.ApprovedOnce | impl/golang/internal/payment/mock_escrow.go:202-233 | after an approval, whatever operations follow, approving the same release again is refused |
| Escrow.RefundIff | impl/golang/internal/payment/mock_escrow.go:237-258 | whatever operations follow a creation, the account keeps its parties, currency, hash and timeout, and a refund from it succeeds exactly when the clock was last set to the timeout or later, and is otherwise the timeout error |
| Escrow.NoRefundBeforeTimeout | impl/golang/internal/payment/mock_escrow.go:237-258 | so before the timeout nothing is given back: the balance is what was deposited less what approvals paid out |
| Escrow.PhaseMeans | impl/golang/internal/payment/mock_escrow.go:106-258 | over every sequence an account is created until something happens to it, funded when only deposits have, and released or refunded only after approvals or refunds |
| Escrow.AmountMeaning | impl/golang/internal/payment/mock_escrow.go:125-127 | amounts are read in base ten: every number printed is read back, with either sign, and "10" is ten |
| Escrow.ReadableIff | impl/golang/internal/payment/mock_escrow.go:125-127 | an unsigned amount is readable exactly when it is digits and not empty |
| Commerce.StepKeeps | impl/golang/internal/edgeapp/commerce.go:107-484 | every step of either party, every delivery in whatever order, time-out, duplicate or foreign message, and every operation on other accounts keeps the invariant of protocol, topics and money |
| Commerce.RunKeeps | impl/golang/internal/edgeapp/commerce.go:107-484 | so it holds in every reachable state |
| Commerce.FundedMeansDeposited | impl/golang/internal/edgeapp/commerce.go:107-209 | a seller in FUNDED or later refers to the buyer's account, which has the configured parties, currency and timeout, into which exactly the price was deposited, and the agreement hash is the same at buyer, seller and escrow |
| Commerce.SettledMeansPaid | impl/golang/internal/edgeapp/commerce.go:407-484 | IssueInvoice returns success only after the buyer's approval paid the whole price to the seller's address |
| Commerce.PaidAtMostOnce | impl/golang/internal/edgeapp/commerce.go:216-289 | at any time the account holds or has paid the price once: deposited equals balance plus released, and at most one release is approved |
| Commerce.TopicsSay | impl/golang/internal/edgeapp/commerce.go:125-484 | in every reachable state every message under the session's request id says what was agreed: price and currency, the buyer's account, the release requested, accept and approved |
| Commerce.RefundableFromTimeout | impl/golang/internal/edgeapp/commerce.go:171-174 | in every reachable state a refund from the buyer's account would succeed exactly from the configured timeout on |
| Commerce.BuyerFailsIff | impl/golang/internal/edgeapp/commerce.go:107-289 | at every step of a buyer whose agreement state fits: it fails exactly by a time-out, by an answer to its request that is not an acceptance, or by a deposit or approval that the ledger has a named reason to refuse |
| Commerce.SellerFailsIff | impl/golang/internal/edgeapp/commerce.go:318-484 | the seller fails exactly by a time-out, by an acknowledgement that does not approve, which also ends the agreement, or by a release request that the ledger has a named reason to refuse |
| Commerce.StepKeepsLive | impl/golang/internal/edgeapp/commerce.go:515-561 | no step discards a message that a present or later wait needs, and none fails without a time-out |
| Commerce.Progress | impl/golang/internal/edgeapp/commerce.go:107-484 | in every such state that is not final one of the two parties can go on |
| Commerce.NoDeadlock | impl/golang/internal/edgeapp/commerce.go:144-156 | although each side publishes before it subscribes and the seller serves two waits from one subscription: without time-outs nobody fails, and somebody can go on until both have settled |
| Commerce.RunsAreBounded | impl/golang/internal/edgeapp/commerce.go:107-484 | a run makes at most 63 steps of the parties plus two for each foreign message |
| Commerce.Finish | impl/golang/internal/edgeapp/commerce.go:107-484 | from every reachable state without time-outs there is a way to settlement |
| Commerce.SettlesIff | impl/golang/internal/edgeapp/commerce.go:380-445 | a run that settles exists exactly when the price is a positive number, the seller has an escrow adapter and an address, and its binding is set to that of the shared escrow |
| Parties.AwaitTypedPayload | impl/golang/internal/edgeapp/commerce.go:515-561 | the first delivery of the type and request id ends the wait, as an error when its body does not parse; everything before it is discarded, and nothing is returned only when nothing matches |
| Parties.BuyerNegotiateAndFund | impl/golang/internal/edgeapp/commerce.go:107-209 | whatever happens to ledger and topics between its calls and whatever its subscription delivers: it meets and leaves them, and ends with machine and session, exactly as the buyer's code does on what it met and heard, also when a step fails; an incomplete configuration is refused before anything is done, and every other error is the one that its last answer or the ledger gave |
| Parties.BuyerSession.Settle | impl/golang/internal/edgeapp/commerce.go:216-289 | the same from FUNDED to settlement, for every environment; nil exactly when it got there, and otherwise the error that its last answer or the ledger gave |
| Parties.SellerObserveAndAccept | impl/golang/internal/edgeapp/commerce.go:318-396 | the same for the seller up to FUNDED, on one subscription for both waits, and for its errors |
| Parties.SellerSession.IssueInvoice | impl/golang/internal/edgeapp/commerce.go:407-484 | the same from FUNDED to settlement: the release is requested before the invoice that names it, and a refused acknowledgement is its error |
| Parties.BuyerIsItsCode | impl/golang/internal/edgeapp/commerce.go:107-289 | projection: in every run of the protocol, interleaved in whatever way with the seller, others and the bus, the buyer is where its code gets to on the ledgers and topics it met and the messages it was delivered, and the run keeps exactly what its code leaves |
| Parties.SellerIsItsCode | impl/golang/internal/edgeapp/commerce.go:318-484 | the same for the seller |
| Parties.BuyerRunsItsCode | impl/golang/internal/edgeapp/commerce.go:107-289 | so in every run from the start the buyer is BuyerNegotiateAndFund followed by Settle |
| Parties.SellerRunsItsCode | impl/golang/internal/edgeapp/commerce.go:318-484 | and the seller is SellerObserveAndAccept followed by IssueInvoice |
| Parties.CodeSettles | impl/golang/internal/edgeapp/commerce.go:107-484 | in every configuration that can settle there is a run in which both pieces of code get through to settlement |
| Wired.StepKeeps | impl/golang/internal/edgeapp/bus.go:48-136 | every step of parties, others and bus keeps the coupling: the topics carry the logs, and a subscription in use has given exactly what its party has seen; each is a step of the protocol or none |
| Wired.BusRunsAreRuns | impl/golang/internal/edgeapp/bus.go:48-136 | every run over the bus, whatever is sent, replayed, delivered, cancelled and cleaned up when, is a run of the protocol and ends in the same world: its safety theorems hold over the bus |
| Wired.NoDeadlockOverTheBus | impl/golang/internal/edgeapp/commerce.go:144-156 | as long as neither topic carries more messages than a channel holds, and without time-outs and early cleanups: nothing needed is dropped, nobody fails, nothing panics, and a party or the bus on its current subscription can go on until both have settled |
| Wired.SettlementStaysInReach | impl/golang/internal/edgeapp/commerce.go:107-484 | after every such run with room for what is still due on the topics, parties and bus alone can bring both sides to settlement |
| Wired.SettlementCannotBeMissed | impl/golang/internal/edgeapp/commerce.go:107-484 | nor can they miss it: they can make only boundedly many steps, and can go no further exactly when both sides have settled |
| Limits.OneMoreMessageCanBlock | impl/golang/internal/edgeapp/bus.go:67-75 | in every configuration that can settle, one message more than a channel holds, on one topic and with nothing at fault, can lose the response, and both sides wait for ever |
| Limits.NeverBlocksIff | impl/golang/internal/edgeapp/bus.go:67-75 | the limit is exact: no run free of faults with at most N messages on either topic blocks if and only if N is at most the capacity of a channel |
| Limits.PlainSessionCanPanic | impl/golang/internal/edgeapp/commerce.go:145-150 | in every configuration that can settle a session without time-outs or anybody else can panic: the invoice is sent to the channel cancelled when BuyerNegotiateAndFund returned, after its cleanup closed it |
| Connection.TableMeaning | impl/golang/internal/delivery/connection.go:42-57 | the FR-D08 table and the rules read off event by event are the same relation |
| Connection.ConnectionStateMachine.Transition | impl/golang/internal/delivery/connection.go:99-121 | an accepted event moves the machine and fires the callback once; a rejected one changes nothing and fires nothing |
| Connection.AcceptedEventsArePath | impl/golang/internal/delivery/connection.go:99-121 | over every sequence of offered events the accepted ones are a path of the table that leads to the same state |
| Connection.NeverReturns | impl/golang/internal/delivery/connection.go:42-57 | DISCONNECTED is never left, IDLE never re-entered, CONNECT never accepted twice |
| Connection.DropsAreRecovered | impl/golang/internal/delivery/connection.go:42-57 | every drop but one still being recovered from was recovered from or given up |
| Channels.Libp2pAdapter.Connect | impl/golang/internal/delivery/libp2p_adapter.go:68-161 | only a dial that reaches the expected peer registers a channel, connected and under an unused id; every other outcome is its error and registers nothing |
| Channels.Libp2pAdapter.HandleIncoming | impl/golang/internal/delivery/libp2p_adapter.go:248-291 | an accepted stream is registered connected, under an unused id |
| Channels.Libp2pAdapter.GetStatus | impl/golang/internal/delivery/libp2p_adapter.go:232-243 | the machine's state, DISCONNECTED for a channel that is not registered |
| Channels.Libp2pAdapter.Disconnect | impl/golang/internal/delivery/libp2p_adapter.go:201-229 | removes exactly this channel, closes its stream, and offers its machine the event, whatever that makes of it |
| Channels.Libp2pAdapter.StartReconnection | impl/golang/internal/delivery/libp2p_adapter.go:296-320 | launches a loop exactly for a registered channel in CONNECTED or RELAYING and leaves it RECONNECTING; touches no other channel |
| Channels.DropsLeadToReconnecting | impl/golang/internal/delivery/libp2p_adapter.go:296-320 | a transport can drop exactly in the states from which the table leads to RECONNECTING |
| Channels.StepKeeps | impl/golang/internal/delivery/libp2p_adapter.go:68-381 | every interleaved step keeps ids in range and channels CONNECTED, RECONNECTING with a loop, or DISCONNECTED |
| Channels.ReachableChannels | impl/golang/internal/delivery/libp2p_adapter.go:68-381 | in every reachable state a channel is in one of the three states, its accepted events are a path of the table, and a RECONNECTING one has a loop that will move it on |
| Channels.IdsAreFresh | impl/golang/internal/delivery/libp2p_adapter.go:134-137 | an id that is handed out was never used before, over all interleavings |
| Channels.DisconnectIsFinal | impl/golang/internal/delivery/libp2p_adapter.go:201-243 | once a disconnect has finished, in every later state the status is DISCONNECTED and sending or receiving fails with channel closed |
| Channels.MachineGoesDownIff | impl/golang/internal/delivery/libp2p_adapter.go:220-226 | the machine of a disconnected channel is and stays DISCONNECTED exactly when it was not RECONNECTING at the event |
| Channels.DisconnectedWhileReconnecting | impl/golang/internal/delivery/libp2p_adapter.go:220-229 | otherwise the loop can bring it back to CONNECTED while its status reads DISCONNECTED |
| Channels.OneLoopWhileReconnecting | impl/golang/internal/delivery/libp2p_adapter.go:296-320 | with StartReconnection atomic a channel has exactly one loop while RECONNECTING and none otherwise |
| Channels.FireKeepsOneLoopIff | impl/golang/internal/delivery/libp2p_adapter.go:302-319 | taken apart, its launch is the only loop exactly when the state is still the one that was checked |
| Channels.OneLoopIff | impl/golang/internal/delivery/libp2p_adapter.go:296-320 | over every run: in each of its states every channel has one loop while RECONNECTING and none otherwise, exactly when every launch finds the state that was checked |
| Channels.TwoLoopsReachable | impl/golang/internal/delivery/libp2p_adapter.go:302-319 | two goroutines that see the same broken stream can leave two loops running |
| Backoff.RawIsPower | impl/golang/internal/delivery/backoff.go:25-31 | the loop's product is initial * factor^attempt |
| Backoff.NextDelay | impl/golang/internal/delivery/backoff.go:27-37 | the loop returns that product converted and capped, never above MaxDelay |
| Backoff.CappedGrows | impl/golang/internal/delivery/backoff.go:25-37 | the intended delay never shrinks and stays between the smaller of initial and maximum delay, and the maximum |
| Backoff.DelayIsCappedIff | impl/golang/internal/delivery/backoff.go:32-36 | the computed delay is the intended one exactly when the product fits in 64 bits, or the machine converts a larger one to at least the cap |
| Backoff.DefaultOverflowsAtAttempt31 | impl/golang/internal/delivery/backoff.go:16-36 | with the default settings the product fits up to attempt 30 and overflows at 31 |
| Backoff.OverflowStopsWaiting | impl/golang/internal/delivery/libp2p_adapter.go:333-366 | past an overflow to a value that is not positive the loop dials without waiting: planned sleep stops growing |
| Backoff.ReconnectionLoop | impl/golang/internal/delivery/libp2p_adapter.go:323-367 | the loop computes its specification and moves the machine at its end and not before: from RECONNECTING to CONNECTED exactly when it reconnected and to DISCONNECTED exactly when it gave up |
| Backoff.LoopOutcome | impl/golang/internal/delivery/libp2p_adapter.go:333-366 | for every trace: it has reconnected exactly when some dial succeeds after only failures, all made before the duration was over, and given up exactly when the duration was over first; dials and planned sleep are those up to there |
| Backoff.PlannedSleepIsBounded | impl/golang/internal/delivery/libp2p_adapter.go:333-342 | planned sleep is at most MaxDuration + MaxDelay, for every configuration and trace |
| Backoff.DialsAreBounded | impl/golang/internal/delivery/libp2p_adapter.go:333-366 | when the sleep planned before dial n exhausts the duration there are at most n dials |
| Backoff.EndsWithinIff | impl/golang/internal/delivery/libp2p_adapter.go:333-366 | for every configuration and conversion: every trace of n passes or more has ended, and none makes more than n dials, exactly when the sleep planned before dial n exhausts the duration |
| Backoff.LoopTerminates | impl/golang/internal/delivery/libp2p_adapter.go:333-366 | with positive delays, a factor of at least 1 and delays that come out as intended for the dials made, the loop ends for every trace, after exactly the dials that the intended delays allow |
| Backoff.DefaultDelaysAreIntended | impl/golang/internal/delivery/backoff.go:16-37 | the default settings are among these, whatever the conversion |
| Backoff.DefaultMakesAtMostTwelveDials | impl/golang/internal/delivery/backoff.go:16-23 | by default at most 12 dials are made, so NextDelay only sees attempts 0 to 11 |
| Backoff.DefaultGivesUpAfterAnHour | impl/golang/internal/delivery/libp2p_adapter.go:333-366 | with the defaults a loop gives up exactly when an unbroken series of failed dials has lasted an hour |
| Backoff.DefaultCanMakeTwelveDials | impl/golang/internal/delivery/backoff.go:16-23 | 12 are made, with 3635 s of planned sleep, when every dial fails at once |
| Feed.State.Apply | impl/golang/cmd/sapient-fid-display/main.go:230-262 | a refused frame changes nothing; an accepted one is stored with the next frame count, and the very track stored is offered to every subscriber |
| Feed.KeyCollisionIff | impl/golang/cmd/sapient-fid-display/main.go:209-217 | two different objects have one key exactly when the separator in a node id lets one hide behind the other |
| Feed.NodesAreApart | impl/golang/cmd/sapient-fid-display/main.go:209-217 | tracks of different nodes with one uid never share a key |
| Feed.DecodeMeaning | impl/golang/cmd/sapient-fid-display/main.go:230-249 | accepted are exactly decodable tracks of the one source with a uid, and each refusal is its error |
| Feed.TracksAreLatest | impl/golang/cmd/sapient-fid-display/main.go:246-262 | over every run and for every object whose key no other takes: its track is the frame stored last, its frame count how many were stored since it was last evicted |
| Feed.MissedIffFull | impl/golang/cmd/sapient-fid-display/main.go:295-304 | an event is missed exactly when 32 are waiting, and otherwise queued last |
| Feed.State.Broadcast | impl/golang/cmd/sapient-fid-display/main.go:295-304 | every subscriber gets the event or, when its buffer is full, loses it; none is blocked |
| Feed.State.Snapshot | impl/golang/cmd/sapient-fid-display/main.go:265-273 | every track, each once |
| Feed.State.Evict | impl/golang/cmd/sapient-fid-display/main.go:277-292 | drops exactly the tracks last seen before the cutoff and counts them; a non-positive age is a no-op |
| Feed.StepKeeps | impl/golang/cmd/sapient-fid-display/main.go:230-313 | for every interleaving of producers, clients and evictions: what a client will have shown once all has arrived is the current track or an evicted one |
| Feed.Convergence | impl/golang/cmd/sapient-fid-display/main.go:786-819 | subscribe-then-snapshot converges: as long as no key is written by two producers, a drained client that missed nothing shows exactly the server's tracks, plus at most tracks evicted meanwhile |
| Feed.SharedKeyDiverges | impl/golang/cmd/sapient-fid-display/main.go:230-262 | for every two producers and tracks with one key: when p stores, then q, and they announce in the other order, the server has the newer track and the drained client, with nothing missed or evicted, the older one |
| Feed.ConvergesIff | impl/golang/cmd/sapient-fid-display/main.go:230-313 | for every rule of who may write what: all drained clients without evictions show the server's tracks, over all runs that keep the rule, exactly when the rule lets no two producers write one key |
| Rates.BaseIffStartsSuffix | impl/golang/cmd/sapient-fid-display/sessions.go:174-179 | the base chosen by the walk is the one index that starts the longest suffix in which the counter never goes down |
| Rates.DifferenceIsGain | impl/golang/cmd/sapient-fid-display/sessions.go:185 | the unsigned subtraction does not wrap around, and is what the counter gained since its last reset |
| Rates.RateIsNotNegative | impl/golang/cmd/sapient-fid-display/sessions.go:153-187 | a rate is never negative |
| Rates.RateMeaning | impl/golang/cmd/sapient-fid-display/sessions.go:180-187 | the rate is the gain since the base over the time since the base |
| Rates.PerSecondMeaning | impl/golang/cmd/sapient-fid-display/sessions.go:180-187 | in messages a second: n in a billion nanoseconds is n |
| Rates.MessageRate | impl/golang/cmd/sapient-fid-display/sessions.go:153-187 | returns what the counter gained since its last reset in the window over the time that took; none without two samples or without elapsed time |
| Rates.SessionsPoller.PollOnce | impl/golang/cmd/sapient-fid-display/sessions.go:82-123 | a successful poll appends its sample and drops the leading samples older than 90 s; a failed one keeps samples and entries and reports the failure |
| Rates.RingIsRecentHistory | impl/golang/cmd/sapient-fid-display/sessions.go:113-122 | the ring is the end of the full history, and what was dropped is older than the window of every later query |
| Rates.RingServesQueries | impl/golang/cmd/sapient-fid-display/sessions.go:113-147 | for every list of polls at whatever times and every query no more than 30 s before any of them, the pruned ring and the full history have the same points |
| Rates.SessionsPoller.RateFor | impl/golang/cmd/sapient-fid-display/sessions.go:142-147 | so the rate read off the ring is the rate over every sample ever taken |
| Rates.RingIsBounded | impl/golang/cmd/sapient-fid-display/sessions.go:113-122 | with a clock that does not go back the ring only holds samples of the last 90 s |
| Focus.FocusFor | impl/golang/cmd/sapient-fid-display/main.go:387-455 | none exactly without candidates; otherwise the area around a candidate with the most neighbours and, among those, the smallest uid, and its count is that number |
| Focus.CandidatesAre | impl/golang/cmd/sapient-fid-display/main.go:387-412 | the candidates are the drones, or the aircraft when no drone is placed, with a valid position |
| Focus.ChooseCentre | impl/golang/cmd/sapient-fid-display/main.go:417-428 | the nested loops find the first of the top candidates |
| Focus.Measure | impl/golang/cmd/sapient-fid-display/main.go:430-454 | the loop computes count, centroid and bounds of the members; the count is at least 1, so the division is safe |
| Focus.BestOfIsBest | impl/golang/cmd/sapient-fid-display/main.go:417-428 | the choice is at least as good as every candidate and better than every earlier one |
| Focus.FoldPermutes | impl/golang/cmd/sapient-fid-display/main.go:430-451 | a loop whose steps commute does not depend on the order |
| Focus.EveryTopIsChosen | impl/golang/cmd/sapient-fid-display/main.go:417-428 | every candidate that ties for the top is chosen for some order of the same tracks |
| Focus.OrderIndependentIffTopsAgree | impl/golang/cmd/sapient-fid-display/main.go:377-381 | documented as deterministic: permuting the tracks leaves the focus alone exactly when the candidates that tie on count and uid lead to the same area |
| Focus.DistinctUidsAreOrderIndependent | impl/golang/cmd/sapient-fid-display/main.go:377-381 | with distinct uids the focus is a function of the set of tracks |
| Focus.SharedUidDependsOnOrder | impl/golang/cmd/sapient-fid-display/main.go:417-428 | for any two drones far apart with one uid, which two nodes can report, the order decides |
| Focus.AircraftAreIgnored | impl/golang/cmd/sapient-fid-display/main.go:403-411 | while a drone is validly placed, aircraft make no difference at all |
| Focus.CentroidInsideBounds | impl/golang/cmd/sapient-fid-display/main.go:430-454 | the centroid and every member of the cluster lie inside the bounds |
| Focus.FocusMeaning | impl/golang/cmd/sapient-fid-display/main.go:430-454 | the focus is the number and the mean of the candidates within 1500 m of a top candidate and the smallest bounds of them and of their pilots that are valid and within 2000 m |
| Focus.SmallerUidFirst | impl/golang/cmd/sapient-fid-display/main.go:424 | ties go to the smaller uid in byte order |
| Gate.AdmissionGate.Open | impl/golang/cmd/sapient-buyer/main.go:217-222 | sets the expected peer, then opens |
| Gate.AdmissionGate.Admit | impl/golang/cmd/sapient-buyer/main.go:226-237 | admits exactly the expected peer at an open gate |
| Gate.ForwardStreamLimited | impl/golang/cmd/sapient-buyer/main.go:472-506 | publishes and counts exactly what the specification says, and signals at its end in every case |
| Gate.ForwardsUpToLimit | impl/golang/cmd/sapient-buyer/main.go:479-505 | a stream on its own forwards what it can publish up to what is left of the limit, but at least one when it can publish any; limit 0 is unlimited |
| Gate.StepKeeps | impl/golang/cmd/sapient-buyer/main.go:355-371 | every interleaving of any number of streams with the opening of the gate keeps guard, counts and signal |
| Gate.EveryStreamIsSomewhere | impl/golang/cmd/sapient-buyer/main.go:355-371 | over every run an accepted stream is in exactly one of three places: held until the gate opens, turned away, or admitted |
| Gate.OnlyTheFundedSeller | impl/golang/cmd/sapient-buyer/main.go:208-237 | no frame is forwarded before the gate opens, and none ever from another peer |
| Gate.ForwardedIsBounded | impl/golang/cmd/sapient-buyer/main.go:472-506 | with a limit and S admitted streams at most limit - 1 + S frames are forwarded; exactly up to the limit for one |
| Gate.BoundIsReached | impl/golang/cmd/sapient-buyer/main.go:499-504 | for every limit and every S some interleaving forwards that many |
| Gate.ForwardsAtMostIff | impl/golang/cmd/sapient-buyer/main.go:472-506 | limit - 1 + S is the exact bound over all runs with at most S admitted streams |
| Gate.LimitHoldsIff | impl/golang/cmd/sapient-buyer/main.go:472-506 | so no run forwards more than the limit exactly when at most one stream is admitted |
| Gate.DoneFiresOnce | impl/golang/cmd/sapient-buyer/main.go:355-371 | the done channel is closed at most once: exactly when a stream has ended, and never before the gate opened |
| Gate.LimitIsReachedFirst | impl/golang/cmd/sapient-buyer/main.go:499-504 | a stream is only stopped by a limit once that many frames were forwarded; without a limit, never |
| Mirror.PollMirrorNodeSince | impl/golang/cmd/buyer-seller-demo/main.go:1209-1266 | returns the decodable messages past the cursor in order and the highest number seen, or fails exactly when the fetch fails or an entry past the cursor is not base64 |
| Mirror.HcsTopicBus.SyncFromMirror | impl/golang/cmd/buyer-seller-demo/main.go:1276-1289 | appends them to the topic's log; a failed poll changes neither log nor cursor, and other topics never change |
| Mirror.HcsTopicBus.Publish | impl/golang/cmd/buyer-seller-demo/main.go:155-174 | a message this process publishes is logged at once |
| Mirror.Scan | impl/golang/cmd/buyer-seller-demo/main.go:1324-1336 | finds the first match from where the last scan ended, or the end |
| Mirror.HcsTopicBus.WaitForPayloadType | impl/golang/cmd/buyer-seller-demo/main.go:1301-1344 | returns the earliest cached message of the type, also one cached before the call, and times out exactly after the first poll that ends past the deadline without one; log and cursor are those after its polls |
| Mirror.StepKeeps | impl/golang/cmd/buyer-seller-demo/main.go:1239-1289 | each poll that sees an arbitrary prefix of the topic extends what has been seen, or changes nothing; a publication of its own is logged and past what has been seen |
| Mirror.AppendedIsLogged | impl/golang/cmd/buyer-seller-demo/main.go:1239-1289 | from every state with fewer than 100 entries, all decodable, a readable entry is the last of the log after the next poll that sees it, and the cursor is its sequence number |
| Mirror.CursorIsExact | impl/golang/cmd/buyer-seller-demo/main.go:1209-1289 | after every run without publications of its own the log is exactly the decodable messages up to the cursor, in order and once each; the cursor never goes back in any run |
| Mirror.CanSeeIff | impl/golang/cmd/buyer-seller-demo/main.go:1213-1218 | an entry can ever be seen exactly when it is among the first hundred of the topic and every entry up to it is base64 |
| Mirror.LoggedOnceIff | impl/golang/cmd/buyer-seller-demo/main.go:1268-1289 | in every reachable state the log holds no message twice exactly when every message this process published itself is still past the cursor |
| Mirror.StaysLoggedOnceIff | impl/golang/cmd/buyer-seller-demo/main.go:1268-1289 | and it stays so over all later runs exactly when none of its own messages can come into sight and no later one could |
| Mirror.WatchingStaysLoggedOnceIff | impl/golang/cmd/buyer-seller-demo/main.go:1268-1289 | over all later runs in which it only polls and others publish: exactly when no poll can ever see one of its own messages |
| Mirror.LocalPublishIsLoggedTwice | impl/golang/cmd/buyer-seller-demo/main.go:1268-1275 | publish, then poll, is a run from the start that logs any message a second time |
| Reconnect.RunSellerSession | impl/golang/cmd/multistream-buyer/main.go:695-777 | emits, in order, the frames there are up to the limit, and returns their number |
| Reconnect.EmittableIsSent | impl/golang/cmd/multistream-buyer/main.go:724-768 | a session goes on past frames it cannot wrap and ends with the first cancellation or read error: it can emit exactly what is handed over before that |
| Reconnect.UpToLimitMeaning | impl/golang/cmd/multistream-buyer/main.go:770-773 | a limit of 0 is none, any other cuts off what comes after that many frames |
| Reconnect.RunSellerSessionWithReconnect | impl/golang/cmd/multistream-buyer/main.go:823-868 | for every trace: waits in closed form, total and attempts; nothing follows a session that reached a positive limit, or a cancellation |
| Reconnect.LastProductiveMeaning | impl/golang/cmd/multistream-buyer/main.go:815-818 | the session the waits are counted from is productive and none after it is |
| Reconnect.WaitAfter | impl/golang/cmd/multistream-buyer/main.go:851-866 | the wait index climbs by one a session up to the last and restarts after a productive one |
| Reconnect.WaitsMeaning | impl/golang/cmd/multistream-buyer/main.go:796-802 | the wait is 1, 2, 5, 10, then 30 seconds, counted from the last productive session or the first one; 30 exactly when the last four sessions, none of them the first, were fruitless |
| Reconnect.ProductiveSessionsKeepWaitsShort | impl/golang/cmd/multistream-buyer/main.go:796-802 | when one of the last four sessions was productive the wait is below its cap |
| Sessions.SessionRegistry.OpenSession | impl/golang/cmd/sapient-buyer/sessions.go:49-63 | a new session under the next id |
| Sessions.SessionRegistry.Observe | impl/golang/cmd/sapient-buyer/sessions.go:67-80 | counts the message in any case and in its session when that is open, whose node id is set only once |
| Sessions.SessionRegistry.CloseSession | impl/golang/cmd/sapient-buyer/sessions.go:83-90 | an open session is removed and counted, any other id ignored |
| Sessions.SessionRegistry.Snapshot | impl/golang/cmd/sapient-buyer/sessions.go:93-102 | the open sessions, each once, by strictly increasing id |
| Sessions.ListingIsUnique | impl/golang/cmd/sapient-buyer/sessions.go:93-102 | that listing is the only one |
| Sessions.Conservation | impl/golang/cmd/sapient-buyer/sessions.go:35-90 | over every call sequence: opened = closed + open = sequence, ids are those handed out, and every message is counted in an open session, in one now closed, or belonged to none |
| Sessions.ClosedForever | impl/golang/cmd/sapient-buyer/sessions.go:83-90 | a closed id is never open again |
| Sessions.SessionHistory | impl/golang/cmd/sapient-buyer/sessions.go:67-80 | while a session is open its node id is the first one observed, its count the number of its messages, and who it is never changes |
| Sessions.SessionLife | impl/golang/cmd/sapient-buyer/sessions.go:49-80 | from its opening on an open session shows the peer, address and time it was opened with, the first node id, the last time and the number of its messages |

## Left out

- Cryptography (ECIES, key derivation, signatures, did:key), libp2p hosts and streams, relays and NAT, HCS, EVM and JSON-RPC clients, HTTP handlers, sockets, logging and display formatting.
- Files: reading, writing, name sanitising (`filepath.Base`) and content types in SendFile and ReceiveFile; the models start from the bytes and the metadata.
- Nil arguments, the checks of objects in validateSellerCfg, and errors of marshalling, signing and publishing, which the modelled bus does not return.
- The arbiter, fee and interval fields of the commerce messages, and their time stamps; a message of the right type and request id whose body does not parse appears only in Parties.dfy.
- Commerce.NoDeadlock: its subscriptions never drop a message; Wired.NoDeadlockOverTheBus says when those of the bus do not.
- Wired.BusRunsAreRuns: only the two stdIn topics. A cancellation may come as soon as its wait is over, which allows more runs than the deferred cancel at the end of the call does.
- Mirror.StaysLoggedOnceIff: a publication of the polling process and its way through the network into the topic are one step.
- Commerce.FundedMeansDeposited: one session per topic pair, so no request of another buyer is on the seller's topic.
- Escrow accounts, connection machines in the step system, and session records are values in maps; sharing of such records is not modelled, and none is handed out by the code.
- The order in which one publication reaches its subscribers is left free, which allows more runs than the loop has.
- Counters that would have to pass 2^64 to wrap around (frames, sessions, sequence numbers), except the total of the reconnect supervisor and the counter difference of the message rate.
- Floating-point rounding in delays, rates, distances and centroids; NaN and infinite coordinates.
- Reconnect.RunSellerSession: the envelope each frame is wrapped in is left out.
- Gate.AdmissionGate.Open: opening a gate twice, which panics, is excluded; the program opens it once.
- Sessions.SessionRegistry.Snapshot: the library sort is replaced by sorted insertion.
- Focus.FocusFor: its choice and its summation are two methods of their own here.
- Command-line programs, configuration and environment handling, evidence files, agent cards, SAPIENT and CoT projections, the session and source views, and the TypeScript scripts: wide but without further properties of this kind.
