# Verified model of the Malachite–Ethereum application

The application sits between the Malachite consensus engine and an Ethereum
execution client. Consensus asks it for values and tells it what was decided;
it has blocks built by the execution client, streams them to its peers,
reassembles what peers stream, keeps everything in a database and moves the
execution client's head when a block is decided. This project models that
application as Dafny programs and proves what it guarantees over every run.

## What is modelled

| module | models |
|---|---|
| `MinHeap`, `Streaming` | the reordering buffer (a binary heap with the reversed comparison), one stream, and the map of streams, as classes proved against functions on `StreamView` |
| `StreamingProperties`, `RoundTrip` | what those functions guarantee over whole runs of deliveries |
| `ProposalStream` | cutting, signing, verifying and assembling a proposal |
| `Store` | the five tables, the key order, write-once inserts, lookups and pruning |
| `Engine` | what is asked of the execution client and what is made of its replies |
| `Node`, `App` | the application: `Node` is its specification as a state machine, `App.State` the mutable object and event loop proved to behave so |
| `NodeRuns`, `TableAgreement`, `Stability` | runs of one node, its tables and its history of decisions |
| `Reception` | a node taking in all messages of one stream |
| `OutOfRound`, `SecondInit` | what happens at a node when two conditions on received proposals fail |
| `ExecutionClient` | the execution client as a machine with validated blocks, pointers and builds, and a node driving it |
| `Agreement`, `Disagreement` | several nodes driven by one consensus, with proposals signed and built by anyone; a run in which they disagree |
| `Network`, `EndToEnd`, `Liveness` | several nodes with their clients, when they build all blocks themselves; a proposal from sender to receiver; that the network moves on |
| `ProposerRotation`, `Codec`, `Spammer` | proposer choice and validator sets, protobuf records, the load generator |

The main results, hardest first:

- **Agreement of nodes** (`Agreement.NodesAgree`). Any number of nodes receive any
  messages in any order and number, from proposers inside or outside the group, with
  blocks built in any way. If consensus gives one certificate per height, one block is
  signed for each (height, round), no forged signature verifies for a proposal that a node
  completes, what is stored has one Init, and a proposal that is stored keeps the slot the node is
  in (it is for that slot, or the slot holds a block already, or has recorded the same
  bytes), then the blocks executed by any two nodes are prefix-related, byte for byte.
  The last guard is exactly what keeps the undecided tables sound
  (`Agreement.StepUndecidedIff`), and in a run that breaks only that guard two nodes
  execute different blocks at one height (`Disagreement.NodesDisagree`).
- **Round trip** (`RoundTrip.BlockRoundTrip`, `EndToEnd.ProposalTravels`). However
  the messages of a block are reordered, repeated and interleaved with other
  streams, exactly the arrival of the last missing one yields a proposal; it
  verifies and carries the block, and the receiver hands its consensus the value
  that the sender's consensus was given.
- **What is executed is what is recorded** (`TableAgreement`). The two tables of
  undecided proposals and blocks agree over a run *if and only if* every proposal that
  is stored is for the round the node is in or finds both slots taken. Then every
  decision executes the recorded value and always advances. Every step that breaks the
  condition makes one of two decisions go wrong (`OutOfRound.OutOfRoundDecisions`), and
  for every configuration and block an allowed run of a fresh node ends with the block
  executed and nothing recorded (`OutOfRound.LateRunStalls`), another with the value
  recorded and the application stopped (`OutOfRound.EarlyRunStops`).
- **Stability** (`Stability`). In every allowed run, with no condition on rounds, an
  undecided entry is held once and unchanged, and a decided height's block is found,
  always in the undecided table, until the height leaves the window.
- **Which verified proposals carry what was signed**
  (`ProposalStream.SignedDataIffOneInit`). Exactly those without a further Init among
  their parts. With one, the signature of a block verifies a proposal that carries
  less, and a node that receives it first keeps the wrong bytes
  (`SecondInit.RecutVerifies`, `SecondInit.RecutIsKept`).
- **Simulation of the execution client** (`ExecutionClient.RunSimulates`), with
  heights, block numbers and timestamps in lockstep.
- **Moving on** (`Liveness.NodesMoveOnTogether`). In every reachable state of the
  network, when a node may propose and another node at its height and round receives
  the published stream, in any order and number, both execute the block and start the
  next height, by a run that meets all hypotheses of the agreement result
  (`Network.NetworkRunIsGroupRun`).

## Reading the code

- Arithmetic is checked: the release profile turns overflow checks on, so an
  overflow stops the application (`Stopped(Panic)`), as `unwrap`, `expect` and the
  assertions do. An error return that leaves the event loop is `Stopped(Error)`.
- A panic inside a blocking database call surfaces as a `JoinError`, which is why an
  absent round in a record to be stored is `Stopped(Error)`.
- Finished streams are never removed from the map of streams: accepting the last
  message clears the Init, so the test at `app/src/streaming.rs:137` is never true.
  The model keeps the branch and `NeverLeftDone` proves it dead.
- Verification hashes every Init it meets, and assembly ignores all of them; nothing
  checks that there is one.
- `commit` records the certificate without comparing its value identifier with the
  value recorded; `RecordedValueIsCertifiedIff` says when the two agree.
- The log line for a received part computes its size before anything else
  (`app/src/app.rs:125-128`), which panics for an Init with an absent round. In the
  model such an Init is buffered. Decoding never yields one, and then nothing received
  stops the application but a sequence number that overflows
  (`EndToEnd.DecodedPartsNeverStop`).
- A received proposal is stored under its own (height, round) and its bytes under
  the (height, round) that the node is in.
- Pruning after a commit keeps six heights, h-5 to h, where the comment says five.
- A commit that finds no proposal reports success and does not advance.
- The comment on `ValidatorSet` says that it is sorted. Building it only removes
  adjacent repetitions (`SortedOnlyIfGivenSorted`).
- The first message of a stream is the one numbered 0, and the last is the
  end-of-stream mark.

Parameters and assumptions:

- Keccak, Ed25519, SipHash, SSZ and the conversion of payloads to blocks are
  functions held in `Crypto` and `Config`. The only laws used are that a genuine
  signature verifies, that decoding undoes encoding of a payload and that a block
  hash identifies a block; each is a named hypothesis of the lemmas that need it.
- Replies of the execution client are part of the message being handled; a lost
  reply is `None`. The client follows the reply rules of `engine_forkchoiceUpdatedV1`,
  Specification item 8, in `src/engine/paris.md` of the Ethereum execution-apis
  specification; it may leave aside a request for a block behind its head, and may
  validate further blocks at any time.
- Consensus is an environment: rounds start at the height last given in StartHeight
  and decisions are for the current height (`NodeRuns.Allowed`).
- Of the messages that reach a node of a group, `Agreement.Sound` assumes four
  separate things: a decision carries the certificate of its height; a block that the
  node itself proposes is the one signed for its slot; no signature that verifies for the
  proposal a message completes is forged (`Unforged`, met by every message when the
  scheme is `Unforgeable`), and what is stored has one Init (`OneInit`). That what is
  stored was signed is derived from the verification (`StoredWasSigned`). The proposals of
  the group's own nodes meet both (`HonestProposalIsSigned`,
  `Liveness.PublishedMayBeReceived`). A `Guarded` run adds `Agreement.KeepsSlot`.
- `Network`, for the clocks, adds that every block is built by a node of the network
  through its own client.

## Model

| member | source | states |
|---|---|---|
| `MinHeap.RootIsGreatest` | app/src/streaming.rs:19-23 | Under the reversed order, the root of the heap has the least sequence number of all buffered messages. |
| `MinHeap.MinHeap.Push` | app/src/streaming.rs:40-42 | Adds exactly one message to the buffered multiset and restores the heap. |
| `MinHeap.MinHeap.Pop` | app/src/streaming.rs:48-56 | Yields nothing exactly when the heap is empty, and otherwise removes one message, whose sequence number is least. |
| `MinHeap.MinHeap.Drain` | app/src/streaming.rs:48-56 | Empties the heap; the parts come from an arrangement of the whole contents by increasing sequence number, end marks skipped. |
| `Streaming.DrainIsSortedPermutation` | app/src/streaming.rs:48-56 | Draining visits every buffered sequence number exactly once, in strictly increasing order. |
| `Streaming.DrainYieldsInOrder` | app/src/streaming.rs:48-56 | Whatever order the messages were pushed in, the drained parts are a function of the buffered contents alone. |
| `Streaming.StreamState.IsDone` | app/src/streaming.rs:69-71 | The count kept by the heap decides completion as the count of buffered sequence numbers does. |
| `Streaming.StreamState.Insert` | app/src/streaming.rs:73-97 | The stream object and its reply follow the specification `StreamInsert`. |
| `Streaming.PartStreamsMap.MarkSeen` | app/src/streaming.rs:130-133 | Tells whether the sequence number is new to that stream, notes it, and changes no other stream. |
| `Streaming.PartStreamsMap.Insert` | app/src/streaming.rs:118-142 | The map of streams and its reply follow the specification `Receive`, whatever other streams the map holds. |
| `StreamingProperties.NeverLeftDone` | app/src/streaming.rs:85-97 | No message leaves a stream complete, so the removal in the map is never reached. |
| `StreamingProperties.ReceiveTouchesOneStream` | app/src/streaming.rs:118-142 | A message changes its own stream only, which then stays in the map. |
| `StreamingProperties.StreamsDoNotInterfere` | app/src/streaming.rs:118-142 | For any interleaving, the state and replies of one stream are those of its own messages alone. |
| `StreamingProperties.StreamReceiveKeepsInvariant` | app/src/streaming.rs:73-97 | Every message, well formed or not, keeps: buffered numbers were seen, a remembered Init is message 0, and the stream is not complete. |
| `StreamingProperties.CompleteStartsWithInit` | app/src/streaming.rs:74-93 | A delivered proposal starts with the Init whose height, round and proposer it is delivered under. |
| `StreamingProperties.StreamDeliversAtMostOnce` | app/src/streaming.rs:73-97 | A stream fed any messages completes at most once. |
| `StreamingProperties.AtMostOneProposalPerStream` | app/src/streaming.rs:118-142 | Over every run, each (peer, stream) yields at most one proposal and no stored stream is complete between calls. |
| `StreamingProperties.KnownStreams` | app/src/streaming.rs:125-139 | The streams stored are exactly those ever heard of. |
| `StreamingProperties.DoneIffAllReceived` | app/src/streaming.rs:69-71 | For a well-formed stream, counting to the total is the same as having every sequence number from 0 to the end mark. |
| `StreamingProperties.InOrderOfRange` | app/src/streaming.rs:48-56 | Draining a full buffer gives the parts in the order in which they were sent. |
| `StreamingProperties.ReceiveNext` | app/src/streaming.rs:73-97 | One more message of a well-formed stream yields the proposal exactly when it was the last one missing. |
| `StreamingProperties.DeliveredAtLastMissing` | app/src/streaming.rs:69-142 | For any order and any repetitions, the i-th arrival yields the proposal exactly when it completes the set of messages. |
| `StreamingProperties.DeliveredOnceAllArrived` | app/src/streaming.rs:69-142 | Exactly one proposal once every message has arrived, none before. |
| `StreamingProperties.CompletesIff` | app/src/streaming.rs:69-142 | For every sequence of messages of a stream, well formed or not: one yields a proposal exactly when after it, for the first time, message 0 is an Init, an end mark has arrived and as many messages have arrived as the latest end mark announces; it holds the parts of all first arrivals in order. |
| `StreamingProperties.OverflowIff` | app/src/streaming.rs:78-81 | The application is stopped exactly by a new end mark numbered 2^64 - 1. |
| `ProposalStream.BigEndianInjective` | app/src/state.rs:343-345 | Fixed-width big-endian bytes determine the number. |
| `ProposalStream.BigEndianValue` | app/src/state.rs:343-345 | The bytes stand for the number, most significant first. |
| `ProposalStream.HeaderLayout` | app/src/state.rs:390-391 | The header is the height in eight bytes and the round in eight, the absent round as minus one. |
| `ProposalStream.StreamIdLayout` | app/src/state.rs:341-348 | An identifier is the height in eight bytes, the round in four and the counter in four. |
| `ProposalStream.SignedBytesInjective` | app/src/state.rs:390-391 | Equal signed bytes mean equal height, round (absent or not) and data. |
| `ProposalStream.StreamIdInjective` | app/src/state.rs:341-348 | Equal stream identifiers mean equal height, round and counter. |
| `ProposalStream.MakeProposalParts` | app/src/state.rs:374-410 | The loop builds an Init, the chunks and a Fin that signs the hash of the header followed by all the data. |
| `ProposalStream.ChunksPartitionData` | app/src/state.rs:396-400 | Chunks concatenate to the data, are never empty, are at most 128 KiB, and are all full but the last. |
| `ProposalStream.HashParts` | app/src/state.rs:423-440 | The traversal hashes headers and data in order and keeps the last signature. |
| `ProposalStream.VerifyProposalSignature` | app/src/state.rs:419-459 | Succeeds exactly when the last Fin's signature verifies, for the hash of the carried bytes, under the key of the first validator with the proposer's address; each failure has its own exact condition. |
| `ProposalStream.AssembleValueFromParts` | app/src/state.rs:465-493 | The data is the concatenation of the Data parts and the value is built from it, under the height, round and proposer of the proposal. |
| `ProposalStream.HashedIsHeaderAndData` | app/src/state.rs:423-440 | The receiver hashes the header followed by exactly the data it assembles if and only if no second Init is among the parts. |
| `ProposalStream.SignedDataIffOneInit` | app/src/state.rs:419-493 | Of a proposal whose hashed bytes were signed for some slot: that slot is the one it names, and its data is the signed data if and only if it has no further Init. |
| `ProposalStream.BuiltPartsVerify` | app/src/state.rs:374-459 | The parts a node builds hash to the signed bytes, carry the block and verify under its key. |
| `RoundTrip.BlockStreamWellFormed` | app/src/state.rs:352-372 | The stream of a block of any size, empty included, is well formed and denotes the parts that were built. |
| `RoundTrip.BlockRoundTrip` | app/src/state.rs:352-493 | Any delivery of the stream, reordered, repeated, interleaved, yields one verified proposal carrying the block, at the last missing message, and nothing otherwise. |
| `SecondInit.RecutVerifies` | app/src/state.rs:419-493 | For every signature scheme, the signature of a block also verifies a proposal with a second Init that carries 16 bytes less. |
| `SecondInit.RecutIsKept` | app/src/state.rs:130-185 | In every allowed run, a node that receives such a proposal first, in any order and number of messages, holds the unsigned bytes for as long as the height is kept, and its slot never holds anything else. |
| `Reception.TakeAll` | app/src/state.rs:130-185 | A node that gets the messages of a stream in any order and number has stored the proposal once all have arrived, and until then nothing, with all else unchanged. |
| `EndToEnd.ProposalTravels` | app/src/app.rs:72-143 | The receiver hands its consensus the value that the sender's consensus was given, at the last missing message. |
| `EndToEnd.DecodedPartsNeverStop` | app/src/state.rs:130-185 | A node that receives only decoded messages stops on none but an end mark whose number overflows: what it reassembles can always be stored. |
| `EndToEnd.StreamsNeverReused` | app/src/state.rs:341-348 | Over a run, no two proposals of a node use the same stream identifier. |
| `NodeRuns.ReceiveAnswers` | app/src/state.rs:130-185 | In every state, consensus is given a value exactly when the part completes a proposal that is not outdated, is authenticated and has a round, and then that proposal's value; otherwise nothing, unless the node stops, and no table changes. |
| `NodeRuns.StoredIsAuthenticated` | app/src/state.rs:156-165 | A received part changes a table only with a proposal whose last signature verifies under the key of the validator it names. |
| `NodeRuns.ProposeAnsweredIff` | app/src/app.rs:72-117 | A request for a value is answered exactly when a block is built for the current slot and its stream can be opened and numbered; the rest panics or fails under exact conditions. |
| `NodeRuns.DecisionGoesThroughIff` | app/src/app.rs:162-267 | A decision goes through exactly when its block is usable and adopted by the client and a recorded proposal leaves a next height; panics have their exact condition. |
| `Store.KeyOrderIsTotal` | app/src/store/keys.rs:41-83 | Keys are strictly and totally ordered by height, then round, the absent round first. |
| `Store.NilBoundIsHeightBound` | app/src/store.rs:273-280 | The range below (height, absent round) holds exactly the keys of smaller height. |
| `Store.PruneKeepsExactlyFrom` | app/src/store.rs:266-304 | While the decided tables agree on heights, pruning keeps exactly the entries at the retained height and above in all five tables. |
| `Store.Db.StoreUndecidedProposal` | app/src/store.rs:196-219 | Writes once under the proposal's own key; fails without change when the round is absent. |
| `Store.Db.StoreUndecidedBlock` | app/src/store.rs:374-398 | Writes once under the given key, and touches no other table. |
| `Store.Db.StoreDecidedValue` | app/src/store.rs:134-161 | Writes value and certificate together, or neither. |
| `Store.Db.StoreDecidedBlock` | app/src/store.rs:400-418 | Writes once under the height. |
| `Store.Db.FindBlockData` | app/src/store.rs:342-372 | Answers from the undecided blocks, else from the decided ones, else not at all. |
| `Store.Db.MinDecidedHeight` | app/src/store.rs:306-318 | The least decided height, or none when nothing is decided. |
| `Store.Db.PruneDecided` | app/src/store.rs:285-296 | Removes from the three decided tables exactly the heights below the bound found in the table of values. |
| `Store.Db.PruneBelow` | app/src/store.rs:266-304 | The removal loops together compute `Prune`. |
| `Engine.SetLatestForkchoiceState` | engine/src/engine.rs:32-65 | Succeeds exactly on a VALID reply that names its latest valid hash and starts no build; panics exactly when a build was started or a VALID reply names no hash; is an error otherwise. |
| `Engine.GenerateBlock` | engine/src/engine.rs:67-116 | Succeeds exactly on a VALID reply for the latest block with a payload identifier and a payload fetched; panics exactly when the reply is for another block or a VALID one starts no build; is an error otherwise. |
| `Engine.CheckCapabilities` | engine/src/engine.rs:24-30 | Succeeds exactly when the client answers and has all three methods. |
| `Engine.LatestBlock` | app/src/app.rs:38-40 | Fails when the request does, panics when there is no block, and is the block otherwise. |
| `App.State.AcceptParts` | app/src/state.rs:142-184 | Outdated or unauthenticated proposals change nothing and are answered by nothing; others are answered by their value, stored under its own slot, the bytes under the node's. |
| `App.State.ReceivedProposalPart` | app/src/state.rs:130-185 | Streams, tables and answer follow the specification. |
| `App.State.GetEarliestHeight` | app/src/state.rs:121-126 | The least decided height, and 1 when there is none. |
| `App.State.Commit` | app/src/state.rs:210-271 | Tables, height and round after the transactions of a commit, with its early exits. |
| `App.State.ProposeValue` | app/src/state.rs:308-339 | Stops off the current height or round; otherwise records the node's own valid proposal. |
| `App.State.NextStreamId` | app/src/state.rs:341-348 | The identifier is made of height, round and counter, and the counter is raised; stops on an absent round or a full counter. |
| `App.State.NumberParts` | app/src/state.rs:361-371 | The messages are the parts numbered from 0, then the end mark, and fail exactly when the numbers do not fit 64 bits. |
| `App.State.StreamProposal` | app/src/state.rs:352-372 | The stream carries the signed parts of the block under a new identifier, with the counter raised. |
| `App.State.OnConsensusReady` | app/src/app.rs:30-53 | Goes on exactly when the client has all three methods and a latest block, which it remembers, and starts the current height. |
| `App.State.OnStartedRound` | app/src/app.rs:57-68 | Takes over height, round and proposer, and nothing else. |
| `App.State.OnGetValue` | app/src/app.rs:72-117 | Builds on the latest block, records proposal and bytes, and streams. |
| `App.State.OnDecided` | app/src/app.rs:162-267 | Checks the parent, hands the block over, moves the head, commits and remembers the new latest block, with every early stop. |
| `App.State.Run` | app/src/app.rs:21-370 | For any sequence of messages, the loop ends in the state in which the run of the node ends, with the reason of the message that stopped it, or with an error when none did. |
| `NodeRuns.CommitTransactionsAgree` | app/src/state.rs:239-264 | After each transaction of a commit, hence after a crash between two, values and certificates have equal heights and decided blocks a subset of them. |
| `NodeRuns.CommitKeepsWindow` | app/src/state.rs:262-268 | Committing h turns the window ending at h-1 into the one ending at h. |
| `NodeRuns.RunKeepsTables` | app/src/state.rs:210-271 | Every allowed run keeps the tables in agreement and the decided heights a window. |
| `NodeRuns.RetentionWindow` | app/src/state.rs:262-268 | After committing h the decided heights are exactly max(h0, h-5) to h, that lower end is the earliest height, and nothing undecided lies below it. |
| `TableAgreement.StepSyncedIff` | app/src/state.rs:181-191 | A step keeps the two undecided tables in agreement if and only if a proposal it stores is for the slot the node is in, or both slots are taken already. |
| `TableAgreement.RunSyncedIff` | app/src/state.rs:181-191 | The tables agree all along a run if and only if every proposal stored is for the slot the node is in or finds both slots taken. |
| `TableAgreement.ExecutedIsRecorded` | app/src/app.rs:172-252 | Then the block a decision executes is the recorded value, its bytes and certificate are recorded under the height, and the branch without a proposal is not taken. |
| `TableAgreement.RunRecordsWhatItExecutes` | app/src/state.rs:220-268 | Over a run there is one executed decision per height passed, and decided values, decided blocks and executed blocks agree at every kept height. |
| `TableAgreement.DecisionOpensNextHeight` | app/src/app.rs:243-252 | A decision that goes through and finds its proposal leaves the node in round 0 of the next height, with the executed block as its latest. |
| `TableAgreement.NextHeightMayComeEarly` | app/src/state.rs:266-268 | Right after a decision, before the next round is started, a round-0 proposal for the next height that completes is in its round and held in both tables. |
| `TableAgreement.StartedRoundOpensSlot` | app/src/app.rs:57-68 | Once a round has started, its proposal is in its round, and a request for its value is answered when the client builds a block. |
| `Stability.UndecidedHeldOnce` | app/src/store.rs:196-219 | Over every allowed run each key of either undecided table is held during one stretch only, with one value: an entry never changes, and once pruned its key never comes back. |
| `Stability.RunHolds` | app/src/store.rs:374-398 | Over every allowed run, a block that a slot holds stays there unchanged for as long as its height is kept. |
| `Stability.RunKeepsSettled` | app/src/store.rs:400-418 | A decided height's bytes never change in later steps, in either table of blocks. |
| `Stability.DecidedBlockStaysAvailable` | app/src/store.rs:342-372 | In every allowed run, from a decision until its height leaves the window, looking up its block gives the executed bytes, and the undecided table answers. |
| `Stability.RecordedBlockStays` | app/src/store.rs:400-418 | When the decision finds its proposal, the decided table holds the executed bytes too for as long. |
| `TableAgreement.CountersAreTotals` | app/src/app.rs:193-200 | The counters are the totals over the executed blocks. |
| `ExecutionClient.GetValueKeepsHead` | engine/src/engine.rs:67-116 | Asking for a block never moves the head, and on success head, safe and finalized coincide. |
| `ExecutionClient.DecidedMovesHead` | app/src/app.rs:185-252 | A decision carried through took a VALID reply and makes its block, one above the old head, the head. |
| `ExecutionClient.RunSimulates` | app/src/app.rs:30-267 | In every reachable state of a running node the client's head is the node's latest block and the adopted blocks form one hash-linked chain from the start block. |
| `ExecutionClient.HeightsAndNumbersInLockstep` | app/src/app.rs:243-252 | With proposals in their rounds, block number and height advance by the same amount. |
| `Agreement.SignedCarriesBlock` | app/src/state.rs:419-493 | A proposal with one Init whose hashed bytes were signed carries the block signed for the slot it names. |
| `Agreement.StoredWasSigned` | app/src/state.rs:442-458 | What a node stores was signed, because it has verified it and no signature that verifies for it is forged. |
| `Agreement.UnforgeableIsUnforged` | app/src/state.rs:453-456 | With an unforgeable scheme every message meets that assumption. |
| `Agreement.HonestProposalIsSigned` | app/src/state.rs:374-410 | Every proposal that comes out of a node's own stream meets both conditions. |
| `Agreement.StepUndecidedIff` | app/src/state.rs:181-191 | One step keeps every undecided block signed and beside its proposal if and only if a proposal it stores keeps the slot the node is in. |
| `Agreement.DecisionExecutesSigned` | app/src/app.rs:162-252 | A decision executes the block that was signed for the decided slot, whoever proposed it, and advances. |
| `Agreement.RunStaysFaithful` | app/src/app.rs:124-267 | Every run of the group keeps the invariants of all its nodes. |
| `Agreement.NodesAgree` | app/src/app.rs:124-267 | The blocks executed by any two nodes are prefix-related, byte for byte and block for block, with proposals signed by anyone. |
| `Disagreement.NodesDisagree` | app/src/state.rs:181-191 | For every world in which round 0 is decided at the first height and every two different blocks signed for round 0 and a later round, a run of the group that breaks only the guard on rounds ends with two nodes having executed different blocks. |
| `Agreement.RecordedValueIsCertifiedIff` | app/src/state.rs:210-241 | At every kept height the recorded value is the one the recorded certificate names if and only if the certificate names the hash of the block signed for the decided slot. |
| `Network.BuiltOnLatest` | engine/src/engine.rs:75-95 | A block built for a node extends its latest block, one time unit later, with the same randomness. |
| `Network.DecisionOnSchedule` | app/src/app.rs:187-191 | When all blocks are built through the nodes' clients, the executed block's timestamp is the heights passed above that of the start block, with its randomness. |
| `Network.ReachableIsOk` | app/src/app.rs:30-267 | When all blocks are built through the nodes' clients, every run keeps the nodes' invariants, the simulation of the clients and the clocks. |
| `Network.NetworkRunIsGroupRun` | app/src/app.rs:21-267 | Every run of the network with clients is a run of the group, so the agreement of nodes holds of it. |
| `Network.ClocksInLockstep` | engine/src/engine.rs:75-95 | Number and timestamp of the latest block are the heights passed above those of the start block; the randomness is constant. |
| `Liveness.ProposeFills` | app/src/app.rs:72-117 | A node asked for a value for a slot nobody has signed, with a client that builds, records the block in both tables and goes on. |
| `Liveness.ReadyExecutes` | app/src/app.rs:162-267 | A node that holds the decided block, with a client that validates it, executes exactly that block and starts the next height. |
| `Liveness.NetworkMovesOn` | app/src/app.rs:72-267 | In every reachable state of the network, a node that may propose executes the block its client builds two permitted moves later and starts the next height. |
| `Liveness.PublishedMayBeReceived` | app/src/state.rs:352-459 | What a node publishes meets, at any node that knows its key, the conditions assumed of received proposals. |
| `Liveness.NodesMoveOnTogether` | app/src/app.rs:72-267 | In every reachable state, a proposer and a node that receives its stream in any order and number both execute its block, byte for byte, and start the next height, by a permitted run. |
| `OutOfRound.StoredOutOfRound` | app/src/state.rs:181-191 | What storing any proposal out of its round leaves: a value without bytes under the slot it names if that was free, bytes without a value under the node's slot if that was free, and one of them was. |
| `OutOfRound.NamedSlotStops` | app/src/app.rs:172-175 | In any state, after a proposal for another slot is stored, a decision for that slot stops the application if it had no block, though its value is recorded. |
| `OutOfRound.CurrentSlotUnrecorded` | app/src/state.rs:220-235 | In any state, after a proposal for another slot is stored, a decision for the node's slot, if that was free, executes the block, records nothing and does not advance. |
| `OutOfRound.OutOfRoundDecisions` | app/src/app.rs:172-252 | Every step that takes the tables out of agreement makes the decision for the named slot stop the application or the decision for the node's slot execute an unrecorded block. |
| `OutOfRound.LateRunStalls` | app/src/state.rs:181-235 | For every configuration with a signature scheme and a codec, every block, round but 0 and delivery: a fresh node in which a proposal for the round completes in round 0 executes the block, records nothing and is told to start the same height again, by a run that breaks no assumption made of consensus. |
| `OutOfRound.EarlyRunStops` | app/src/app.rs:172-175 | Likewise, a fresh node that holds round 0's block when a later round's proposal completes stops when the later round is decided, with its value recorded and nothing executed. |
| `ProposerRotation.SelectorsAgree` | types/src/proposer_selector.rs:31-44 | Both implementations choose the same validator or both stop, and they choose exactly when set, round and sum allow it. |
| `ProposerRotation.RoundsAreFair` | types/src/context.rs:34-53 | Over N consecutive rounds of a height each of the N positions is chosen exactly once. |
| `ProposerRotation.HeightsAreFair` | types/src/context.rs:34-53 | Over N consecutive heights at a round likewise. |
| `ProposerRotation.NewValidatorSet` | types/src/validator_set.rs:61-70 | Fails exactly on an empty list, and otherwise removes adjacent repetitions. |
| `ProposerRotation.DedupKeepsLookups` | types/src/validator_set.rs:78-100 | Building the set changes no lookup by address. |
| `ProposerRotation.DedupKeepsExactly` | types/src/validator_set.rs:87-100 | The set is what was given at exactly the positions that differ from the one before, in order, with no two equal neighbours. |
| `ProposerRotation.SortedOnlyIfGivenSorted` | types/src/validator_set.rs:54-100 | The set is sorted by address if and only if it was given sorted. |
| `Codec.StreamMessageRoundTrip` | types/src/codec/proto/mod.rs:116-154 | Encoding stops exactly on an Init without a round, and every encoded message is recovered, its part through the bytes of its own record. |
| `Codec.DecodedMessageIsRecorded` | types/src/codec/proto/mod.rs:119-138 | A message is decoded only from a record with a content, whose bytes read as the encoding of its part. |
| `Codec.ProposedValueRoundTrip` | types/src/codec/proto/mod.rs:156-192 | Every proposed value with a round is recovered, valid round absent or not. |
| `Codec.DecodedProposedValueEncodes` | types/src/codec/proto/mod.rs:159-178 | A proposed value is decoded only from its own encoding; a record with a missing field is refused. |
| `Codec.CommitSignaturesRoundTrip` | types/src/codec/proto/mod.rs:402-443 | Signature lists are recovered whole and in order. |
| `Codec.CertificateRoundTrip` | types/src/codec/proto/mod.rs:364-400 | Every certificate with a round is recovered. |
| `Codec.DecodedSignaturesEncode` | types/src/codec/proto/mod.rs:402-426 | A signature list is decoded only from its own encoding: one bad entry fails it. |
| `Codec.DecodedCertificateEncodes` | types/src/codec/proto/mod.rs:364-387 | A certificate is decoded only from its own encoding. |
| `Codec.VoteSetRoundTrip` | types/src/codec/proto/mod.rs:464-503 | No vote is lost or reordered, and each comes back without its extension. |
| `Codec.VoteSetRecoveredIff` | types/src/vote.rs:104-134 | A vote set is recovered unchanged if and only if no vote has an extension. |
| `Codec.DecodedVoteEncodes` | types/src/codec/proto/mod.rs:493-503 | A vote is decoded only from its own encoding, without an extension. |
| `Codec.VoteSetSkips` | types/src/codec/proto/mod.rs:483-491 | Each entry of a vote set is decoded or skipped by itself. |
| `Codec.SyncResponseRoundTrip` | types/src/codec/proto/mod.rs:278-362 | Responses can be encoded exactly when their rounds are present, and are then recovered up to vote extensions. |
| `Codec.DecodedSyncResponse` | types/src/codec/proto/mod.rs:278-307 | A value response is decoded only from its own encoding, a vote set response from the entries that can be decoded. |
| `Spammer.SendBatch` | utils/src/spammer.rs:126-157 | A batch sends consecutive nonces, none once the number or the time is reached, and fewer than the rate allows only then. |
| `Spammer.Spam` | utils/src/spammer.rs:115-171 | For any clock readings, each nonce from the latest on is sent once, in order; every tick sends what the limits and its readings allow; and the loop ends exactly after the first tick that reaches the number or the time. Without a time limit, enough ticks finish it, in ceil(transactions / rate) of them. |
| `Spammer.TicksNeeded` | utils/src/spammer.rs:120-171 | Without a time limit the loop is done exactly when its ticks' full batches reach the number, after ceil(transactions / rate) of them. |
| `Spammer.NoLimits` | utils/src/spammer.rs:126-171 | Without any limit the loop never ends and every tick sends what the rate allows. |
| `Spammer.OnlyTimeLimit` | utils/src/spammer.rs:126-171 | With a time limit only, the loop ends exactly after the first tick whose reading reaches it, and a tick whose readings are below it sends what the rate allows. |
| `Spammer.Stats.Add` | utils/src/spammer.rs:254-263 | Adds the counters message by message. |
| `Spammer.Stats.IncrErr` | utils/src/spammer.rs:247-252 | Raises the count of one message and no other. |
| `Spammer.HandleWake` | utils/src/spammer.rs:188-215 | One wake-up keeps the totals those of the results up to the last report and the recent counters those since. |
| `Spammer.Tracker` | utils/src/spammer.rs:177-219 | In every interleaving of results and reports, the totals are of all results up to the last report and the recent counters of all since, per error message. |
| `Spammer.AccountsAddUp` | utils/src/spammer.rs:187-216 | Hence totals plus recent counters account for every result received. |
| `Spammer.ProcessedIsMaximal` | utils/src/spammer.rs:187-216 | What is received is everything up to the first wake-up that stops the tracker. |

## Left out

- Consensus, gossip and value synchronisation inside Malachite are an environment with stated assumptions; after a synchronised value the block lookup of a decision would find nothing, so such values are not part of the runs.
- Messages that only answer from state (validator set, decided value, earliest height, vote extensions, peers joining or leaving) and the set of peers.
- redb, the prost wire format (a pair of functions of which the second undoes the first), SSZ, Keccak, SipHash and Ed25519 themselves, and errors of the database other than records that cannot be encoded.
- HTTP and JSON-RPC clients, JWT, timeouts, channels, metrics and logging; that an answer could not be sent is only logged and has no effect.
- Restarting a node from a store that already has contents; runs start from a fresh store, and a crash is covered by the tables' agreement after each transaction.
- Overflow of block numbers, timestamps, block sizes and counters of transactions, bytes and spammer results, which are unbounded here.
- The order in which pruned heights are returned, and memory limits on the number of streams.
- The array growth and hole-moving tricks of the library's binary heap; the heap here swaps elements of a sequence field.
- `parent_hash` of the latest block is the forkchoice reply's latest valid hash, as in the code; chain linkage is stated on the payload's parent hash.
- Unknown enumeration values and address lengths in protobuf records, and the codecs of status, requests, proposals and vote extensions.
- In the spammer: building and signing transactions, full channels and throughput figures; clock readings are parameters.
- The proxy and cli crates, genesis generation and random block generation.
- Agreement.NodesAgree: assumes that each proposal stored keeps the node's slot, which consensus does not promise and without which nodes can disagree (`Disagreement.NodesDisagree`), and that what is stored has one Init, which the code does not check and without which a node holds bytes that were not signed (`SecondInit.RecutIsKept`).
- ProposerRotation.HeightsAreFair: for sums that fit 64 bits; beyond them the application stops.
