/** The network moves on: whenever a node may propose in a fresh slot that consensus
    then decides, well-behaved clients let it and the nodes that receive its proposal
    execute the block and start the next height. */
module Liveness {
  import opened Types
  import opened Streaming
  import opened StreamingProperties
  import opened ProposalStream
  import opened RoundTrip
  import opened Engine
  import opened Node
  import opened NodeRuns
  import opened Reception
  import opened EndToEnd
  import opened ExecutionClient
  import opened Agreement
  import opened Network

  // ------------------------------------------------------------------ proposing

  /** The node can be asked for a value for a slot that nobody has signed yet and that
      consensus decides, and nothing it counts is about to overflow. */
  ghost predicate MayPropose(setup: Setup, net: Net, n: NodeId) {
    && n in setup.world.cfg && n in net.pairs
    && var p := net.pairs[n].p;
       && !p.halted && p.node.latestBlock.Some? && !p.node.currentRound.Nil?
       && setup.world.certificate(p.node.currentHeight).round == p.node.currentRound
       && (p.node.currentHeight, p.node.currentRound) !in net.proposals
       && p.node.currentHeight + 1 < U64_LIMIT && p.node.streamNonce + 1 < U32_LIMIT
  }

  /** A block the client can build for the node: a new authentic child of the latest one. */
  ghost predicate Buildable(setup: Setup, cfg: Config, pair: Pair, block: Payload) {
    && pair.p.node.latestBlock.Some?
    && var latest := pair.p.node.latestBlock.value;
       && setup.chain.authentic(block)
       && block.parentHash == latest.blockHash && block.blockNumber == latest.blockNumber + 1
       && block.timestamp == latest.timestamp + 1 && block.prevRandao == latest.prevRandao
       && block.blockHash !in pair.el.blocks && block.blockHash != setup.chain.genesis.parentHash
       && cfg.blobHashes(block).Some? && |cfg.encode(block)| <= MAX_BUFFER
  }

  /** The status with which a client accepts a block. */
  function Approval(hash: Hash): PayloadStatus {
    PayloadStatus(Valid, Some(hash))
  }

  /** The request for a value, answered by a client that has head, safe and finalized
      name the latest block and starts the build `id`, which yields `block`. */
  ghost function ProposeMove(pair: Pair, block: Payload, id: PayloadId): Move
    requires pair.p.node.latestBlock.Some?
  {
    var s := pair.p.node;
    var latest := s.latestBlock.value;
    var building := pair.el.(pointers := ForkchoiceFor(latest.blockHash),
                             builds := pair.el.builds[id := (latest.blockHash, AttributesFor(latest))]);
    Move(GetValue(s.currentHeight, s.currentRound,
                  Some(ForkchoiceUpdated(Approval(latest.blockHash), Some(id))), Some(block)),
         building, building)
  }

  /** The client's side of the request. */
  lemma ProposeServed(setup: Setup, cfg: Config, pair: Pair, block: Payload, id: PayloadId)
    requires Simulates(setup.chain, setup.start, pair) && !pair.p.halted && Buildable(setup, cfg, pair, block)
    requires id !in pair.el.builds
    ensures Served(setup.chain, cfg, pair, ProposeMove(pair, block, id))
    ensures WellFormedEl(setup.chain, ProposeMove(pair, block, id).after)
  {
  }

  /** The node's side of the request: it records the block and goes on. */
  lemma ProposeStep(cfg: Config, s: NodeState, block: Payload, id: PayloadId, event: Event)
    requires s.latestBlock.Some? && !s.currentRound.Nil? && s.streamNonce + 1 < U32_LIMIT
    requires |cfg.encode(block)| <= MAX_BUFFER
    requires event == GetValue(s.currentHeight, s.currentRound,
                               Some(ForkchoiceUpdated(Approval(s.latestBlock.value.blockHash), Some(id))), Some(block))
    ensures BuiltBlock(s, event) == Some(block)
    ensures Step(cfg, s, event).1.Done? && Step(cfg, s, event).1.value.Proposed?
  {
    BlockStreamWellFormed(cfg.crypto, cfg.key, cfg.address, s.currentHeight, s.currentRound, cfg.encode(block));
  }

  /** What a node holds when its slot has just been filled with `data`, the encoding of `block`. */
  ghost predicate SlotFilled(s: NodeState, data: Bytes, block: Payload) {
    var slot := (s.currentHeight, s.currentRound);
    && !s.currentRound.Nil? && s.currentHeight + 1 < U64_LIMIT
    && slot in s.store.undecidedProposals
    && slot in s.store.undecidedBlocks && s.store.undecidedBlocks[slot] == data
    && s.latestBlock.Some? && s.latestBlock.value.blockHash == block.parentHash
  }

  /** Two points of a run at the same height, round, latest block and history, both running. */
  ghost predicate SameStand(p: Progress, q: Progress) {
    && !p.halted && !q.halted && q.decided == p.decided
    && q.node.currentHeight == p.node.currentHeight && q.node.currentRound == p.node.currentRound
    && q.node.latestBlock == p.node.latestBlock
  }

  /** A slot nobody has signed is free in the tables of every node. */
  lemma SlotIsFree(setup: Setup, net: Net, n: NodeId, slot: RoundKey)
    requires NetOk(setup, net) && n in setup.world.cfg && slot !in net.proposals
    ensures slot !in net.pairs[n].p.node.store.undecidedProposals
    ensures slot !in net.pairs[n].p.node.store.undecidedBlocks
  {
    assert PlaceOk(setup, net, n);
    assert slot !in net.pairs[n].p.node.store.undecidedBlocks;
  }

  lemma ProposeAdvances(cfg: Config, p: Progress, block: Payload, event: Event)
    requires !p.halted && event.GetValue? && BuiltBlock(p.node, event) == Some(block)
    requires Step(cfg, p.node, event).1.Done? && Step(cfg, p.node, event).1.value.Proposed?
    requires (p.node.currentHeight, p.node.currentRound) !in p.node.store.undecidedProposals
    requires (p.node.currentHeight, p.node.currentRound) !in p.node.store.undecidedBlocks
    requires p.node.currentHeight + 1 < U64_LIMIT && p.node.latestBlock.value.blockHash == block.parentHash
    ensures SameStand(p, Advance(cfg, p, event))
    ensures SlotFilled(Advance(cfg, p, event).node, cfg.encode(block), block)
  {
    ProposeOutcomes(cfg, p.node, event);
  }

  lemma ProposePermitted(setup: Setup, proposals: map<RoundKey, Bytes>, cfg: Config, pair: Pair,
                         block: Payload, id: PayloadId)
    requires pair.p.node.latestBlock.Some? && !pair.p.halted
    requires Served(setup.chain, cfg, pair, ProposeMove(pair, block, id))
    requires (pair.p.node.currentHeight, pair.p.node.currentRound) !in proposals
    ensures Permitted(setup, proposals, cfg, pair, ProposeMove(pair, block, id))
  {
  }

  lemma ProposeSigns(setup: Setup, proposals: map<RoundKey, Bytes>, cfg: Config, pair: Pair,
                     block: Payload, id: PayloadId)
    requires pair.p.node.latestBlock.Some? && !pair.p.halted
    requires BuiltBlock(pair.p.node, ProposeMove(pair, block, id).event) == Some(block)
    ensures Signed(proposals, cfg, pair, ProposeMove(pair, block, id).event) ==
            proposals[(pair.p.node.currentHeight, pair.p.node.currentRound) := cfg.encode(block)]
  {
  }

  /** A node asked for a value in a fresh slot, with a client that builds, fills the slot. */
  lemma ProposeFills(setup: Setup, net: Net, n: NodeId, block: Payload, id: PayloadId)
    requires SetupOk(setup) && NetOk(setup, net) && MayPropose(setup, net, n)
    requires Buildable(setup, setup.world.cfg[n], net.pairs[n], block) && id !in net.pairs[n].el.builds
    ensures var pair, cfg := net.pairs[n], setup.world.cfg[n];
            var move := ProposeMove(pair, block, id);
            && Permitted(setup, net.proposals, cfg, pair, move)
            && SameStand(pair.p, Advance(cfg, pair.p, move.event))
            && SlotFilled(Advance(cfg, pair.p, move.event).node, cfg.encode(block), block)
            && Signed(net.proposals, cfg, pair, move.event) ==
               net.proposals[(pair.p.node.currentHeight, pair.p.node.currentRound) := cfg.encode(block)]
  {
    var pair, cfg := net.pairs[n], setup.world.cfg[n];
    var move := ProposeMove(pair, block, id);
    assert PlaceOk(setup, net, n);
    SlotIsFree(setup, net, n, (pair.p.node.currentHeight, pair.p.node.currentRound));
    ProposeServed(setup, cfg, pair, block, id);
    ProposePermitted(setup, net.proposals, cfg, pair, block, id);
    ProposeStep(cfg, pair.p.node, block, id, move.event);
    ProposeAdvances(cfg, pair.p, block, move.event);
    ProposeSigns(setup, net.proposals, cfg, pair, block, id);
  }

  // ------------------------------------------------------------------- deciding

  /** The decision, answered by a client that validates the block and makes it the head. */
  ghost function DecideMove(pair: Pair, certificate: CommitCertificate, block: Payload): Move {
    var status := Approval(block.blockHash);
    var known := pair.el.(blocks := pair.el.blocks[block.blockHash := block]);
    Move(Decided(certificate, Some(status), Some(ForkchoiceUpdated(status, None))),
         known, known.(pointers := ForkchoiceFor(block.blockHash)))
  }

  /** The block is a new authentic child of a block the client knows. */
  ghost predicate Adoptable(setup: Setup, el: El, block: Payload) {
    && setup.chain.authentic(block)
    && block.parentHash in el.blocks && Follows(block, el.blocks[block.parentHash])
    && block.blockHash !in el.blocks && block.blockHash != setup.chain.genesis.parentHash
  }

  lemma AdoptedIsWellFormed(setup: Setup, el: El, block: Payload)
    requires WellFormedEl(setup.chain, el) && Adoptable(setup, el, block)
    ensures var known := el.(blocks := el.blocks[block.blockHash := block]);
            && Imports(setup.chain, el, known)
            && Grows(setup.chain, known, known.(pointers := ForkchoiceFor(block.blockHash)))
  {
  }

  /** The client's side of the decision. */
  lemma DecideServed(setup: Setup, cfg: Config, pair: Pair, certificate: CommitCertificate, block: Payload)
    requires WellFormedEl(setup.chain, pair.el) && Adoptable(setup, pair.el, block)
    requires !pair.p.halted && certificate.height == pair.p.node.currentHeight
    requires DecidedBlock(cfg, pair.p.node, certificate).Some?
    requires DecidedBlock(cfg, pair.p.node, certificate).value.1 == block && cfg.blobHashes(block).Some?
    ensures Served(setup.chain, cfg, pair, DecideMove(pair, certificate, block))
  {
    AdoptedIsWellFormed(setup, pair.el, block);
  }

  /** The node's side of the decision. */
  lemma DecideStep(cfg: Config, s: NodeState, certificate: CommitCertificate, data: Bytes, block: Payload,
                   status: NewPayloadReply, head: ForkchoiceReply)
    requires SlotFilled(s, data, block) && cfg.decode(data) == Some(block) && cfg.blobHashes(block).Some?
    requires certificate.height == s.currentHeight && certificate.round == s.currentRound
    requires status.Some? && status.value.status == Valid && SetLatestForkchoiceState(head).Done?
    ensures DecidedBlock(cfg, s, certificate) == Some((data, block))
    ensures Decide(cfg, s, certificate, status, head).1 == Done(StartHeight(s.currentHeight + 1))
  {
    DecideOutcomes(cfg, s, certificate, status, head);
  }

  /** From `p` to `q` the node has executed `block` at its height and has been told to start the next. */
  ghost predicate Executes(p: Progress, q: Progress, data: Bytes, block: Payload) {
    && !q.halted && q.lastStart.Some? && q.lastStart.value == p.node.currentHeight + 1
    && q.decided == p.decided + [Decision(p.node.currentHeight, p.node.currentRound, data, block)]
  }

  lemma DecideAdvances(cfg: Config, p: Progress, certificate: CommitCertificate, data: Bytes, block: Payload,
                       status: NewPayloadReply, head: ForkchoiceReply)
    requires !p.halted && p.node.currentHeight + 1 < U64_LIMIT
    requires certificate.height == p.node.currentHeight && certificate.round == p.node.currentRound
    requires DecidedBlock(cfg, p.node, certificate) == Some((data, block))
    requires Decide(cfg, p.node, certificate, status, head).1 == Done(StartHeight(p.node.currentHeight + 1))
    ensures Executes(p, Advance(cfg, p, Decided(certificate, status, head)), data, block)
  {
  }

  lemma DecidePermitted(setup: Setup, proposals: map<RoundKey, Bytes>, cfg: Config, pair: Pair,
                        certificate: CommitCertificate, data: Bytes, block: Payload)
    requires WellFormedEl(setup.chain, pair.el) && Adoptable(setup, pair.el, block)
    requires !pair.p.halted && certificate.height == pair.p.node.currentHeight
    requires DecidedBlock(cfg, pair.p.node, certificate) == Some((data, block)) && cfg.blobHashes(block).Some?
    requires certificate == setup.world.certificate(certificate.height)
    ensures Permitted(setup, proposals, cfg, pair, DecideMove(pair, certificate, block))
  {
    DecideServed(setup, cfg, pair, certificate, block);
  }

  /** The node's slot is filled with the block and everything is ready to decide it. */
  ghost predicate Ready(setup: Setup, cfg: Config, pair: Pair, data: Bytes, block: Payload) {
    && !pair.p.halted && SlotFilled(pair.p.node, data, block)
    && WellFormedEl(setup.chain, pair.el) && Adoptable(setup, pair.el, block)
    && cfg.decode(data) == Some(block) && cfg.blobHashes(block).Some?
    && setup.world.certificate(pair.p.node.currentHeight).round == pair.p.node.currentRound
  }

  ghost function DecisionFor(setup: Setup, pair: Pair, block: Payload): Move {
    DecideMove(pair, setup.world.certificate(pair.p.node.currentHeight), block)
  }

  lemma ReadyPermits(setup: Setup, proposals: map<RoundKey, Bytes>, cfg: Config, pair: Pair,
                     data: Bytes, block: Payload)
    requires WorldOk(setup.world) && Ready(setup, cfg, pair, data, block)
    ensures Permitted(setup, proposals, cfg, pair, DecisionFor(setup, pair, block))
  {
    var certificate := setup.world.certificate(pair.p.node.currentHeight);
    var status := Approval(block.blockHash);
    DecideStep(cfg, pair.p.node, certificate, data, block, Some(status), Some(ForkchoiceUpdated(status, None)));
    DecidePermitted(setup, proposals, cfg, pair, certificate, data, block);
  }

  /** A node that holds the decided block, with a client that validates it, executes it. */
  lemma ReadyExecutes(setup: Setup, cfg: Config, pair: Pair, data: Bytes, block: Payload)
    requires WorldOk(setup.world) && Ready(setup, cfg, pair, data, block)
    ensures Executes(pair.p, Apply(cfg, pair, DecisionFor(setup, pair, block)).p, data, block)
  {
    var certificate := setup.world.certificate(pair.p.node.currentHeight);
    var status := Approval(block.blockHash);
    var head := Some(ForkchoiceUpdated(status, None));
    DecideStep(cfg, pair.p.node, certificate, data, block, Some(status), head);
    DecideAdvances(cfg, pair.p, certificate, data, block, Some(status), head);
  }

  // ------------------------------------------------------------ joining moves up

  lemma {:induction false} ReachesNext(setup: Setup, first: Net, moves: seq<NetMove>, mid: Net, n: NodeId, move: Move)
    requires Reaches(setup, first, moves, mid) && n in setup.world.cfg && n in mid.pairs
    requires Permitted(setup, mid.proposals, setup.world.cfg[n], mid.pairs[n], move)
    ensures Reaches(setup, first, moves + [(n, move)], Proceed(setup, mid, n, move))
    decreases |moves|
  {
    var all: seq<NetMove> := moves + [(n, move)];
    if moves == [] {
      assert all[1..] == [];
    } else {
      assert all[1..] == moves[1..] + [(n, move)];
      ReachesNext(setup, Proceed(setup, first, moves[0].0, moves[0].1), moves[1..], mid, n, move);
    }
  }

  /** The moves by which node m receives parts while its client does nothing. */
  ghost function PartMoves(m: NodeId, el: El, events: seq<Event>): seq<NetMove> {
    seq(|events|, i requires 0 <= i < |events| => (m, Move(events[i], el, el)))
  }

  /** The network after node m has received `events`, none of which makes it propose. */
  ghost function NetWith(setup: Setup, net: Net, m: NodeId, events: seq<Event>): Net
    requires m in setup.world.cfg && m in net.pairs
  {
    net.(pairs := net.pairs[m := Pair(After(setup.world.cfg[m], net.pairs[m].p, events), net.pairs[m].el)])
  }

  // ------------------------------------------------------------------ following

  /** Node m can receive `data` for its current slot: the proposal is for the slot, would
      be stored, and is the one signed for it. */
  ghost predicate MayReceive(setup: Setup, net: Net, m: NodeId, peer: PeerId, id: StreamId,
                             contents: seq<StreamContent>)
  {
    && m in setup.world.cfg && m in net.pairs && WellFormed(contents)
    && var pair, proposal := net.pairs[m], Proposal(contents);
       && !pair.p.halted && WellFormedEl(setup.chain, pair.el)
       && Lookup(pair.p.node.streams, (peer, id)) == EMPTY_STREAM
       && Welcome(setup.world.cfg[m], pair.p.node, proposal)
       && (proposal.height, proposal.round) == (pair.p.node.currentHeight, pair.p.node.currentRound)
       && WasSigned(net.proposals, proposal) && OneInit(proposal)
  }

  lemma PartServed(chain: Chain, cfg: Config, pair: Pair, event: Event)
    requires WellFormedEl(chain, pair.el) && event.ReceivedProposalPart?
    ensures Served(chain, cfg, pair, Move(event, pair.el, pair.el))
  {
  }

  lemma PartSound(world: World, signed: map<RoundKey, Bytes>, cfg: Config, s: NodeState, event: Event)
    requires event.ReceivedProposalPart?
    requires var reply := Receive(s.streams, event.from, event.part).1;
             reply.Complete? ==>
               && (reply.parts.height, reply.parts.round) == (s.currentHeight, s.currentRound)
               && WasSigned(signed, reply.parts) && OneInit(reply.parts)
    ensures Sound(world, signed, cfg, s, event) && KeepsSlot(cfg, s, event)
  {
  }

  /** The next part is permitted, whether or not it completes the proposal. */
  lemma PartPermitted(setup: Setup, net: Net, m: NodeId, peer: PeerId, id: StreamId, contents: seq<StreamContent>,
                      earlier: seq<u64>, k: u64, q: Progress)
    requires MayReceive(setup, net, m, peer, id, contents) && k < |contents|
    requires forall j :: j in earlier ==> j < |contents|
    requires HasTaken(setup.world.cfg[m], net.pairs[m].p, q, peer, id, contents, earlier)
    ensures var el := net.pairs[m].el;
            Permitted(setup, net.proposals, setup.world.cfg[m], Pair(q, el),
                      Move(PartEvent(peer, id, contents, k), el, el))
  {
    var cfg, pair, event := setup.world.cfg[m], Pair(q, net.pairs[m].el), PartEvent(peer, id, contents, k);
    TakeNext(cfg, net.pairs[m].p, q, peer, id, contents, earlier, k);
    PartServed(setup.chain, cfg, pair, event);
    PartSound(setup.world, net.proposals, cfg, q.node, event);
    assert Signed(net.proposals, cfg, pair, event) == net.proposals;
  }

  lemma PartProceeds(setup: Setup, net: Net, m: NodeId, events: seq<Event>, event: Event)
    requires m in setup.world.cfg && m in net.pairs && event.ReceivedProposalPart?
    requires !After(setup.world.cfg[m], net.pairs[m].p, events).halted
    ensures Proceed(setup, NetWith(setup, net, m, events), m, Move(event, net.pairs[m].el, net.pairs[m].el)) ==
            NetWith(setup, net, m, events + [event])
  {
    AfterNext(setup.world.cfg[m], net.pairs[m].p, events, event);
    var el := net.pairs[m].el;
    var before, after := NetWith(setup, net, m, events), NetWith(setup, net, m, events + [event]);
    assert Proceed(setup, before, m, Move(event, el, el)).pairs == after.pairs;
  }

  lemma PartMovesNext(m: NodeId, el: El, events: seq<Event>, event: Event)
    ensures PartMoves(m, el, events + [event]) == PartMoves(m, el, events) + [(m, Move(event, el, el))]
  {
  }

  lemma EventReaches(setup: Setup, net: Net, m: NodeId, events: seq<Event>, event: Event)
    requires m in setup.world.cfg && m in net.pairs && event.ReceivedProposalPart?
    requires Reaches(setup, net, PartMoves(m, net.pairs[m].el, events), NetWith(setup, net, m, events))
    requires var q, el := After(setup.world.cfg[m], net.pairs[m].p, events), net.pairs[m].el;
             !q.halted && Permitted(setup, net.proposals, setup.world.cfg[m], Pair(q, el), Move(event, el, el))
    ensures var longer := events + [event];
            Reaches(setup, net, PartMoves(m, net.pairs[m].el, longer), NetWith(setup, net, m, longer))
  {
    var el := net.pairs[m].el;
    ReachesNext(setup, net, PartMoves(m, el, events), NetWith(setup, net, m, events), m, Move(event, el, el));
    PartProceeds(setup, net, m, events, event);
    PartMovesNext(m, el, events, event);
  }

  lemma PartsReachNext(setup: Setup, net: Net, m: NodeId, peer: PeerId, id: StreamId,
                       contents: seq<StreamContent>, earlier: seq<u64>, k: u64)
    requires MayReceive(setup, net, m, peer, id, contents) && k < |contents|
    requires forall j :: j in earlier ==> j < |contents|
    requires var events := PartEvents(peer, id, contents, earlier);
             Reaches(setup, net, PartMoves(m, net.pairs[m].el, events), NetWith(setup, net, m, events))
    ensures forall j :: j in earlier + [k] ==> j < |contents|
    ensures var events := PartEvents(peer, id, contents, earlier + [k]);
            Reaches(setup, net, PartMoves(m, net.pairs[m].el, events), NetWith(setup, net, m, events))
  {
    var p, cfg := net.pairs[m].p, setup.world.cfg[m];
    var events, event := PartEvents(peer, id, contents, earlier), PartEvent(peer, id, contents, k);
    TakeAll(cfg, p, peer, id, contents, earlier);
    PartPermitted(setup, net, m, peer, id, contents, earlier, k, After(cfg, p, events));
    EventReaches(setup, net, m, events, event);
    PartEventsNext(peer, id, contents, earlier, k);
  }

  lemma NothingReaches(setup: Setup, net: Net, m: NodeId, events: seq<Event>)
    requires m in setup.world.cfg && m in net.pairs && events == []
    ensures Reaches(setup, net, PartMoves(m, net.pairs[m].el, events), NetWith(setup, net, m, events))
  {
    assert net.pairs[m := Pair(net.pairs[m].p, net.pairs[m].el)] == net.pairs;
  }

  /** Receiving the parts in any order and number is a permitted run of the network. */
  lemma {:induction false} PartsReach(setup: Setup, net: Net, m: NodeId, peer: PeerId, id: StreamId,
                                      contents: seq<StreamContent>, arrivals: seq<u64>)
    requires MayReceive(setup, net, m, peer, id, contents) && forall k :: k in arrivals ==> k < |contents|
    ensures var events := PartEvents(peer, id, contents, arrivals);
            Reaches(setup, net, PartMoves(m, net.pairs[m].el, events), NetWith(setup, net, m, events))
  {
    if arrivals == [] {
      NothingReaches(setup, net, m, PartEvents(peer, id, contents, arrivals));
    } else {
      var n := |arrivals| - 1;
      var earlier, k := arrivals[..n], arrivals[n];
      assert arrivals == earlier + [k] && k in arrivals;
      assert forall j :: j in earlier ==> j in arrivals;
      PartsReach(setup, net, m, peer, id, contents, earlier);
      PartsReachNext(setup, net, m, peer, id, contents, earlier, k);
    }
  }

  /** Once all parts have arrived, the slot of the receiver is filled with the block. */
  lemma PartsFill(cfg: Config, p: Progress, peer: PeerId, id: StreamId, contents: seq<StreamContent>,
                  arrivals: seq<u64>, data: Bytes, block: Payload)
    requires WellFormed(contents) && (forall k :: k in arrivals ==> k < |contents|) && AllArrived(contents, arrivals)
    requires !p.halted && Lookup(p.node.streams, (peer, id)) == EMPTY_STREAM
    requires var proposal := Proposal(contents);
             && Welcome(cfg, p.node, proposal) && DataOf(proposal.parts) == data
             && (proposal.height, proposal.round) == (p.node.currentHeight, p.node.currentRound)
    requires (p.node.currentHeight, p.node.currentRound) !in p.node.store.undecidedBlocks
    requires p.node.currentHeight + 1 < U64_LIMIT
    requires p.node.latestBlock.Some? && p.node.latestBlock.value.blockHash == block.parentHash
    ensures var q := After(cfg, p, PartEvents(peer, id, contents, arrivals));
            SameStand(p, q) && SlotFilled(q.node, data, block)
  {
    TakeAll(cfg, p, peer, id, contents, arrivals);
  }

  // ------------------------------------------------------------ moving on together

  /** Node m stands where the proposer n stands, knows its key, has not heard of the
      stream, and has a client that does not know the block yet. */
  ghost predicate MayFollow(setup: Setup, net: Net, n: NodeId, m: NodeId, peer: PeerId, block: Payload)
    requires MayPropose(setup, net, n)
  {
    && m in setup.world.cfg && m in net.pairs && m != n
    && var cfg, sender := setup.world.cfg[m], setup.world.cfg[n];
       var p, q := net.pairs[n].p, net.pairs[m].p;
       && !q.halted && q.node.latestBlock.Some?
       && q.node.currentHeight == p.node.currentHeight && q.node.currentRound == p.node.currentRound
       && Lookup(q.node.streams, (peer, StreamFor(p.node))) == EMPTY_STREAM
       && block.blockHash !in net.pairs[m].el.blocks && cfg.blobHashes(block).Some?
       && cfg.crypto == sender.crypto && SignaturesVerify(cfg.crypto)
       && GetByAddress(cfg.validators, sender.address).Some?
       && GetByAddress(cfg.validators, sender.address).value.publicKey == cfg.crypto.publicKey(sender.key)
  }

  /** The stream that a node opens for its next proposal. */
  function StreamFor(s: NodeState): StreamId
    requires !s.currentRound.Nil?
  {
    StreamIdOf(s.currentHeight, s.currentRound.number, s.streamNonce)
  }

  ghost function StreamOf(setup: Setup, net: Net, n: NodeId, block: Payload): seq<StreamContent>
    requires n in setup.world.cfg && n in net.pairs
  {
    ContentsFor(setup.world.cfg[n], net.pairs[n].p.node.currentHeight, net.pairs[n].p.node.currentRound, block)
  }

  /** Running nodes at the same height have the same latest block, up to the parent hash. */
  lemma SameHeightSameLatest(setup: Setup, net: Net, n: NodeId, m: NodeId)
    requires SetupOk(setup) && NetOk(setup, net) && n in setup.world.cfg && m in setup.world.cfg
    requires var p, q := net.pairs[n].p, net.pairs[m].p;
             && !p.halted && !q.halted && p.node.currentHeight == q.node.currentHeight
             && p.node.latestBlock.Some? && q.node.latestBlock.Some?
    ensures net.pairs[n].p.node.latestBlock.value.blockHash == net.pairs[m].p.node.latestBlock.value.blockHash
  {
    assert PlaceOk(setup, net, n) && PlaceOk(setup, net, m);
    var x, y := net.pairs[n].p.decided, net.pairs[m].p.decided;
    HistoriesAgree(setup.world, net.proposals, n, m, x, y);
    SameTip(setup.start.blockHash, x, y);
  }

  lemma SameTip(start: Hash, x: seq<Decision>, y: seq<Decision>)
    requires |x| == |y| && BlocksExecuted(x) <= BlocksExecuted(y)
    ensures Tip(start, x) == Tip(start, y)
  {
    if x != [] {
      assert BlocksExecuted(x)[|x| - 1] == BlocksExecuted(y)[|x| - 1];
    }
  }

  lemma BuildableIsAdoptable(setup: Setup, cfg: Config, pair: Pair, block: Payload)
    requires Simulates(setup.chain, setup.start, pair) && !pair.p.halted && Buildable(setup, cfg, pair, block)
    ensures Adoptable(setup, pair.el, block)
  {
  }

  /** A block built on one node's latest block can be adopted by the client of another
      node at the same height. */
  lemma FollowerAdopts(setup: Setup, net: Net, n: NodeId, m: NodeId, block: Payload)
    requires SetupOk(setup) && NetOk(setup, net) && n in setup.world.cfg && m in setup.world.cfg
    requires var p, q := net.pairs[n].p, net.pairs[m].p;
             && !p.halted && !q.halted && p.node.currentHeight == q.node.currentHeight
             && p.node.latestBlock.Some? && q.node.latestBlock.Some?
    requires Buildable(setup, setup.world.cfg[n], net.pairs[n], block)
    requires block.blockHash !in net.pairs[m].el.blocks
    ensures Adoptable(setup, net.pairs[m].el, block)
    ensures net.pairs[m].p.node.latestBlock.value.blockHash == block.parentHash
  {
    SameHeightSameLatest(setup, net, n, m);
    assert PlaceOk(setup, net, n) && PlaceOk(setup, net, m);
  }

  /** The network after the proposal, and after the proposal and its reception. */
  ghost function AfterProposal(setup: Setup, net: Net, n: NodeId, block: Payload, id: PayloadId): Net
    requires MayPropose(setup, net, n)
  {
    Proceed(setup, net, n, ProposeMove(net.pairs[n], block, id))
  }

  ghost function EventsFor(setup: Setup, net: Net, n: NodeId, peer: PeerId, block: Payload, arrivals: seq<u64>)
    : seq<Event>
    requires MayPropose(setup, net, n)
    requires forall k :: k in arrivals ==> k < |StreamOf(setup, net, n, block)|
  {
    PartEvents(peer, StreamFor(net.pairs[n].p.node), StreamOf(setup, net, n, block), arrivals)
  }

  /** A published stream, at a node that knows the proposer's key. */
  lemma PublishedIsSigned(sender: Config, cfg: Config, height: Height, round: Round, block: Payload,
                          signed: map<RoundKey, Bytes>)
    requires cfg.crypto == sender.crypto && SignaturesVerify(cfg.crypto) && |sender.encode(block)| <= MAX_BUFFER
    requires GetByAddress(cfg.validators, sender.address).Some?
    requires GetByAddress(cfg.validators, sender.address).value.publicKey == cfg.crypto.publicKey(sender.key)
    requires (height, round) in signed && signed[(height, round)] == sender.encode(block)
    ensures var contents := ContentsFor(sender, height, round, block);
            && WellFormed(contents)
            && var proposal := Proposal(contents);
               && proposal.height == height && proposal.round == round
               && Verify(cfg.crypto, cfg.validators, proposal) == Verified
               && DataOf(proposal.parts) == sender.encode(block)
               && WasSigned(signed, proposal) && OneInit(proposal)
  {
    var data := sender.encode(block);
    BlockProposalCarries(cfg.crypto, sender.key, sender.address, cfg.validators, height, round, data);
    HonestProposalIsSigned(cfg.crypto, cfg.validators, Proposal(ContentsFor(sender, height, round, block)),
                           height, round, sender.address, data, signed);
  }

  /** Node m is in the slot for which `sender` has signed `block`, knows its key and has
      not heard of the stream. */
  ghost predicate CanTake(setup: Setup, next: Net, sender: Config, m: NodeId, peer: PeerId, id: StreamId,
                          slot: RoundKey, block: Payload)
  {
    && m in setup.world.cfg && m in next.pairs
    && var cfg, pair := setup.world.cfg[m], next.pairs[m];
       && (pair.p.node.currentHeight, pair.p.node.currentRound) == slot && !slot.1.Nil?
       && !pair.p.halted && WellFormedEl(setup.chain, pair.el)
       && Lookup(pair.p.node.streams, (peer, id)) == EMPTY_STREAM
       && cfg.crypto == sender.crypto && SignaturesVerify(cfg.crypto) && |sender.encode(block)| <= MAX_BUFFER
       && GetByAddress(cfg.validators, sender.address).Some?
       && GetByAddress(cfg.validators, sender.address).value.publicKey == cfg.crypto.publicKey(sender.key)
       && slot in next.proposals && next.proposals[slot] == sender.encode(block)
  }

  lemma SignedMayBeReceived(setup: Setup, next: Net, sender: Config, m: NodeId, peer: PeerId, id: StreamId,
                            slot: RoundKey, block: Payload)
    requires CanTake(setup, next, sender, m, peer, id, slot, block)
    ensures var contents := ContentsFor(sender, slot.0, slot.1, block);
            && MayReceive(setup, next, m, peer, id, contents)
            && DataOf(Proposal(contents).parts) == sender.encode(block)
  {
    PublishedIsSigned(sender, setup.world.cfg[m], slot.0, slot.1, block, next.proposals);
  }

  /** Only the proposer and the signed blocks have changed. */
  lemma AfterProposalAt(setup: Setup, net: Net, n: NodeId, m: NodeId, block: Payload, id: PayloadId)
    requires SetupOk(setup) && NetOk(setup, net) && MayPropose(setup, net, n)
    requires Buildable(setup, setup.world.cfg[n], net.pairs[n], block) && id !in net.pairs[n].el.builds
    requires m in net.pairs && m != n
    ensures var next := AfterProposal(setup, net, n, block, id);
            var s := net.pairs[n].p.node;
            && m in next.pairs && next.pairs[m] == net.pairs[m]
            && next.proposals ==
               net.proposals[(s.currentHeight, s.currentRound) := setup.world.cfg[n].encode(block)]
  {
    ProposeFills(setup, net, n, block, id);
  }

  lemma FollowerTakes(setup: Setup, net: Net, n: NodeId, m: NodeId, peer: PeerId, block: Payload, next: Net)
    requires MayPropose(setup, net, n) && MayFollow(setup, net, n, m, peer, block)
    requires |setup.world.cfg[n].encode(block)| <= MAX_BUFFER && WellFormedEl(setup.chain, net.pairs[m].el)
    requires m in next.pairs && next.pairs[m] == net.pairs[m]
    requires var s := net.pairs[n].p.node;
             next.proposals == net.proposals[(s.currentHeight, s.currentRound) := setup.world.cfg[n].encode(block)]
    ensures var s := net.pairs[n].p.node;
            CanTake(setup, next, setup.world.cfg[n], m, peer, StreamFor(s), (s.currentHeight, s.currentRound), block)
  {
  }

  lemma FollowerCanTake(setup: Setup, net: Net, n: NodeId, m: NodeId, peer: PeerId, block: Payload, id: PayloadId)
    requires SetupOk(setup) && NetOk(setup, net) && MayPropose(setup, net, n)
    requires Buildable(setup, setup.world.cfg[n], net.pairs[n], block) && id !in net.pairs[n].el.builds
    requires MayFollow(setup, net, n, m, peer, block)
    ensures var s := net.pairs[n].p.node;
            CanTake(setup, AfterProposal(setup, net, n, block, id), setup.world.cfg[n], m, peer, StreamFor(s),
                    (s.currentHeight, s.currentRound), block)
  {
    AfterProposalAt(setup, net, n, m, block, id);
    assert PlaceOk(setup, net, m);
    FollowerTakes(setup, net, n, m, peer, block, AfterProposal(setup, net, n, block, id));
  }

  /** What is published is what node m may receive: the assumption made of received
      proposals is met by the proposals of the network's own nodes. */
  lemma PublishedMayBeReceived(setup: Setup, net: Net, n: NodeId, m: NodeId, peer: PeerId, block: Payload,
                               id: PayloadId)
    requires SetupOk(setup) && NetOk(setup, net) && MayPropose(setup, net, n)
    requires Buildable(setup, setup.world.cfg[n], net.pairs[n], block) && id !in net.pairs[n].el.builds
    requires MayFollow(setup, net, n, m, peer, block)
    ensures MayReceive(setup, AfterProposal(setup, net, n, block, id), m, peer, StreamFor(net.pairs[n].p.node),
                       StreamOf(setup, net, n, block))
    ensures DataOf(Proposal(StreamOf(setup, net, n, block)).parts) == setup.world.cfg[n].encode(block)
  {
    var s := net.pairs[n].p.node;
    FollowerCanTake(setup, net, n, m, peer, block, id);
    SignedMayBeReceived(setup, AfterProposal(setup, net, n, block, id), setup.world.cfg[n], m, peer,
                        StreamFor(s), (s.currentHeight, s.currentRound), block);
  }

  lemma ProposerReady(setup: Setup, net: Net, n: NodeId, block: Payload, id: PayloadId)
    requires SetupOk(setup) && NetOk(setup, net) && MayPropose(setup, net, n)
    requires Buildable(setup, setup.world.cfg[n], net.pairs[n], block) && id !in net.pairs[n].el.builds
    ensures var next := AfterProposal(setup, net, n, block, id).pairs[n];
            && SameStand(net.pairs[n].p, next.p)
            && Ready(setup, setup.world.cfg[n], next, setup.world.cfg[n].encode(block), block)
  {
    var pair, cfg := net.pairs[n], setup.world.cfg[n];
    assert PlaceOk(setup, net, n);
    ProposeFills(setup, net, n, block, id);
    ProposeServed(setup, cfg, pair, block, id);
    BuildableIsAdoptable(setup, cfg, pair, block);
  }

  lemma FollowerReady(setup: Setup, net: Net, n: NodeId, m: NodeId, peer: PeerId, block: Payload, id: PayloadId,
                      arrivals: seq<u64>)
    requires SetupOk(setup) && NetOk(setup, net) && MayPropose(setup, net, n)
    requires Buildable(setup, setup.world.cfg[n], net.pairs[n], block) && id !in net.pairs[n].el.builds
    requires MayFollow(setup, net, n, m, peer, block)
    requires forall k :: k in arrivals ==> k < |StreamOf(setup, net, n, block)|
    requires AllArrived(StreamOf(setup, net, n, block), arrivals)
    ensures var next := Pair(After(setup.world.cfg[m], net.pairs[m].p, EventsFor(setup, net, n, peer, block, arrivals)),
                             net.pairs[m].el);
            && SameStand(net.pairs[m].p, next.p)
            && Ready(setup, setup.world.cfg[m], next, setup.world.cfg[n].encode(block), block)
  {
    var s := net.pairs[n].p.node;
    var data := setup.world.cfg[n].encode(block);
    PublishedMayBeReceived(setup, net, n, m, peer, block, id);
    FollowerAdopts(setup, net, n, m, block);
    SlotIsFree(setup, net, m, (s.currentHeight, s.currentRound));
    PartsFill(setup.world.cfg[m], net.pairs[m].p, peer, StreamFor(s), StreamOf(setup, net, n, block), arrivals,
              data, block);
    assert setup.world.cfg[m].decode(data) == setup.world.cfg[n].decode(data);
    assert PlaceOk(setup, net, m);
  }

  /** The whole run: n proposes, m receives the stream, n decides, m decides. */
  ghost function TogetherMoves(setup: Setup, net: Net, n: NodeId, m: NodeId, peer: PeerId, block: Payload,
                               id: PayloadId, arrivals: seq<u64>): seq<NetMove>
    requires MayPropose(setup, net, n) && m in setup.world.cfg && m in net.pairs
    requires forall k :: k in arrivals ==> k < |StreamOf(setup, net, n, block)|
  {
    var received := AfterReception(setup, net, n, m, peer, block, id, arrivals);
    [(n, ProposeMove(net.pairs[n], block, id))]
    + PartMoves(m, net.pairs[m].el, EventsFor(setup, net, n, peer, block, arrivals))
    + [(n, DecisionFor(setup, received.pairs[n], block))] + [(m, DecisionFor(setup, received.pairs[m], block))]
  }

  ghost function AfterReception(setup: Setup, net: Net, n: NodeId, m: NodeId, peer: PeerId, block: Payload,
                          id: PayloadId, arrivals: seq<u64>): Net
    requires MayPropose(setup, net, n) && m in setup.world.cfg && m in net.pairs
    requires forall k :: k in arrivals ==> k < |StreamOf(setup, net, n, block)|
  {
    NetWith(setup, AfterProposal(setup, net, n, block, id), m, EventsFor(setup, net, n, peer, block, arrivals))
  }

  ghost function Together(setup: Setup, net: Net, n: NodeId, m: NodeId, peer: PeerId, block: Payload,
                          id: PayloadId, arrivals: seq<u64>): Net
    requires MayPropose(setup, net, n) && m in setup.world.cfg && m in net.pairs
    requires forall k :: k in arrivals ==> k < |StreamOf(setup, net, n, block)|
  {
    var received := AfterReception(setup, net, n, m, peer, block, id, arrivals);
    Proceed(setup, Proceed(setup, received, n, DecisionFor(setup, received.pairs[n], block)), m,
            DecisionFor(setup, received.pairs[m], block))
  }

  lemma ReachesAfterFirst(setup: Setup, net: Net, n: NodeId, move: Move, moves: seq<NetMove>, last: Net)
    requires n in setup.world.cfg && n in net.pairs
    requires Permitted(setup, net.proposals, setup.world.cfg[n], net.pairs[n], move)
    requires Reaches(setup, Proceed(setup, net, n, move), moves, last)
    ensures Reaches(setup, net, [(n, move)] + moves, last)
  {
    var all: seq<NetMove> := [(n, move)] + moves;
    assert all[1..] == moves;
  }

  lemma ReceptionReaches(setup: Setup, net: Net, n: NodeId, m: NodeId, peer: PeerId, block: Payload,
                         id: PayloadId, arrivals: seq<u64>)
    requires SetupOk(setup) && NetOk(setup, net) && MayPropose(setup, net, n)
    requires Buildable(setup, setup.world.cfg[n], net.pairs[n], block) && id !in net.pairs[n].el.builds
    requires MayFollow(setup, net, n, m, peer, block)
    requires forall k :: k in arrivals ==> k < |StreamOf(setup, net, n, block)|
    ensures Reaches(setup, net,
                    [(n, ProposeMove(net.pairs[n], block, id))]
                    + PartMoves(m, net.pairs[m].el, EventsFor(setup, net, n, peer, block, arrivals)),
                    AfterReception(setup, net, n, m, peer, block, id, arrivals))
  {
    ProposeFills(setup, net, n, block, id);
    PublishedMayBeReceived(setup, net, n, m, peer, block, id);
    PartsReach(setup, AfterProposal(setup, net, n, block, id), m, peer, StreamFor(net.pairs[n].p.node),
               StreamOf(setup, net, n, block), arrivals);
    ReachesAfterFirst(setup, net, n, ProposeMove(net.pairs[n], block, id),
                      PartMoves(m, net.pairs[m].el, EventsFor(setup, net, n, peer, block, arrivals)),
                      AfterReception(setup, net, n, m, peer, block, id, arrivals));
  }

  /** A node that is ready executes the block by one more permitted move. */
  lemma OneDecides(setup: Setup, net: Net, moves: seq<NetMove>, mid: Net, n: NodeId, data: Bytes, block: Payload)
    requires WorldOk(setup.world) && Reaches(setup, net, moves, mid) && n in setup.world.cfg && n in mid.pairs
    requires Ready(setup, setup.world.cfg[n], mid.pairs[n], data, block)
    ensures var move := DecisionFor(setup, mid.pairs[n], block);
            && Reaches(setup, net, moves + [(n, move)], Proceed(setup, mid, n, move))
            && Executes(mid.pairs[n].p, Proceed(setup, mid, n, move).pairs[n].p, data, block)
  {
    ReadyPermits(setup, mid.proposals, setup.world.cfg[n], mid.pairs[n], data, block);
    ReadyExecutes(setup, setup.world.cfg[n], mid.pairs[n], data, block);
    ReachesNext(setup, net, moves, mid, n, DecisionFor(setup, mid.pairs[n], block));
  }

  lemma TwoDecide(setup: Setup, net: Net, moves: seq<NetMove>, received: Net, n: NodeId, m: NodeId,
                  data: Bytes, block: Payload)
    requires WorldOk(setup.world) && Reaches(setup, net, moves, received) && n != m
    requires n in setup.world.cfg && n in received.pairs && m in setup.world.cfg && m in received.pairs
    requires Ready(setup, setup.world.cfg[n], received.pairs[n], data, block)
    requires Ready(setup, setup.world.cfg[m], received.pairs[m], data, block)
    ensures var first := DecisionFor(setup, received.pairs[n], block);
            var second := DecisionFor(setup, received.pairs[m], block);
            var last := Proceed(setup, Proceed(setup, received, n, first), m, second);
            && Reaches(setup, net, moves + [(n, first)] + [(m, second)], last)
            && Executes(received.pairs[n].p, last.pairs[n].p, data, block)
            && Executes(received.pairs[m].p, last.pairs[m].p, data, block)
  {
    var first := DecisionFor(setup, received.pairs[n], block);
    var mid := Proceed(setup, received, n, first);
    OneDecides(setup, net, moves, received, n, data, block);
    assert mid.pairs[m] == received.pairs[m];
    OneDecides(setup, net, moves + [(n, first)], mid, m, data, block);
  }

  lemma ExecutesFrom(p: Progress, mid: Progress, q: Progress, data: Bytes, block: Payload)
    requires SameStand(p, mid) && Executes(mid, q, data, block)
    ensures Executes(p, q, data, block)
  {
  }

  lemma OneReaches(setup: Setup, net: Net, n: NodeId, move: Move, next: Net)
    requires n in setup.world.cfg && n in net.pairs && next == Proceed(setup, net, n, move)
    requires Permitted(setup, net.proposals, setup.world.cfg[n], net.pairs[n], move)
    ensures Reaches(setup, net, [(n, move)], next)
  {
    var moves: seq<NetMove> := [(n, move)];
    assert moves[1..] == [];
  }

  lemma ProposalReaches(setup: Setup, net: Net, n: NodeId, block: Payload, id: PayloadId)
    requires SetupOk(setup) && NetOk(setup, net) && MayPropose(setup, net, n)
    requires Buildable(setup, setup.world.cfg[n], net.pairs[n], block) && id !in net.pairs[n].el.builds
    ensures Reaches(setup, net, [(n, ProposeMove(net.pairs[n], block, id))], AfterProposal(setup, net, n, block, id))
  {
    ProposeFills(setup, net, n, block, id);
    OneReaches(setup, net, n, ProposeMove(net.pairs[n], block, id), AfterProposal(setup, net, n, block, id));
  }

  /** In every reachable state of the network, a node that may propose executes the block
      its client builds two permitted moves later and starts the next height. */
  lemma NetworkMovesOn(setup: Setup, net: Net, n: NodeId, block: Payload, id: PayloadId)
    requires SetupOk(setup) && NetOk(setup, net) && MayPropose(setup, net, n)
    requires Buildable(setup, setup.world.cfg[n], net.pairs[n], block) && id !in net.pairs[n].el.builds
    ensures var first := ProposeMove(net.pairs[n], block, id);
            var mid := AfterProposal(setup, net, n, block, id);
            var second := DecisionFor(setup, mid.pairs[n], block);
            && Reaches(setup, net, [(n, first)] + [(n, second)], Proceed(setup, mid, n, second))
            && Executes(net.pairs[n].p, Proceed(setup, mid, n, second).pairs[n].p,
                        setup.world.cfg[n].encode(block), block)
  {
    var data := setup.world.cfg[n].encode(block);
    var first, mid := ProposeMove(net.pairs[n], block, id), AfterProposal(setup, net, n, block, id);
    var second := DecisionFor(setup, mid.pairs[n], block);
    ProposalReaches(setup, net, n, block, id);
    ProposerReady(setup, net, n, block, id);
    OneDecides(setup, net, [(n, first)], mid, n, data, block);
    ExecutesFrom(net.pairs[n].p, mid.pairs[n].p, Proceed(setup, mid, n, second).pairs[n].p, data, block);
  }

  /** In every reachable state of the network, when a node may propose and another node
      at its height and round receives the published stream, in any order and number,
      both execute the proposer's block, byte for byte, and are told to start the next
      height, by a permitted run. */
  lemma NodesMoveOnTogether(setup: Setup, net: Net, n: NodeId, m: NodeId, peer: PeerId, block: Payload,
                            id: PayloadId, arrivals: seq<u64>)
    requires SetupOk(setup) && NetOk(setup, net) && MayPropose(setup, net, n)
    requires Buildable(setup, setup.world.cfg[n], net.pairs[n], block) && id !in net.pairs[n].el.builds
    requires MayFollow(setup, net, n, m, peer, block)
    requires forall k :: k in arrivals ==> k < |StreamOf(setup, net, n, block)|
    requires AllArrived(StreamOf(setup, net, n, block), arrivals)
    ensures var last := Together(setup, net, n, m, peer, block, id, arrivals);
            var data := setup.world.cfg[n].encode(block);
            && Reaches(setup, net, TogetherMoves(setup, net, n, m, peer, block, id, arrivals), last)
            && Executes(net.pairs[n].p, last.pairs[n].p, data, block)
            && Executes(net.pairs[m].p, last.pairs[m].p, data, block)
  {
    var received := AfterReception(setup, net, n, m, peer, block, id, arrivals);
    var last := Together(setup, net, n, m, peer, block, id, arrivals);
    var data := setup.world.cfg[n].encode(block);
    var moves := [(n, ProposeMove(net.pairs[n], block, id))]
                 + PartMoves(m, net.pairs[m].el, EventsFor(setup, net, n, peer, block, arrivals));
    ReceptionReaches(setup, net, n, m, peer, block, id, arrivals);
    ProposerReady(setup, net, n, block, id);
    FollowerReady(setup, net, n, m, peer, block, id, arrivals);
    TwoDecide(setup, net, moves, received, n, m, data, block);
    ExecutesFrom(net.pairs[n].p, received.pairs[n].p, last.pairs[n].p, data, block);
    ExecutesFrom(net.pairs[m].p, received.pairs[m].p, last.pairs[m].p, data, block);
  }
}
