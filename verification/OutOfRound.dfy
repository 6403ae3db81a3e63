/** What happens when a proposal completes in a round it is not for: its value is
    stored under its own slot and its bytes under the slot the node is in. */
module OutOfRound {
  import opened Types
  import opened Streaming
  import opened StreamingProperties
  import opened ProposalStream
  import opened RoundTrip
  import opened Store
  import opened Engine
  import opened Node
  import opened NodeRuns
  import opened TableAgreement
  import opened Reception

  /** The replies with which a decision goes through at the execution client. */
  ghost predicate Adopts(cfg: Config, s: NodeState, block: Payload, status: NewPayloadReply, head: ForkchoiceReply) {
    && s.latestBlock.Some? && s.latestBlock.value.blockHash == block.parentHash
    && cfg.blobHashes(block).Some?
    && status.Some? && status.value.status != Invalid
    && SetLatestForkchoiceState(head).Done?
  }

  /** A decision whose block is found but whose proposal is not goes through without
      recording anything: the node's latest block moves and its height does not. */
  lemma UnrecordedDecision(cfg: Config, s: NodeState, certificate: CommitCertificate, data: Bytes, block: Payload,
                           status: NewPayloadReply, head: ForkchoiceReply)
    requires (certificate.height, certificate.round) !in s.store.undecidedProposals
    requires GetBlockData(s.store, certificate.height, certificate.round) == Some(data)
    requires cfg.decode(data) == Some(block) && Adopts(cfg, s, block, status, head)
    ensures var (s', outcome) := Decide(cfg, s, certificate, status, head);
            && outcome == Done(StartHeight(s.currentHeight))
            && s'.store == s.store && s'.currentHeight == s.currentHeight
            && s'.latestBlock.Some? && s'.latestBlock.value.blockHash == block.blockHash
  {
  }

  lemma StoringStep(cfg: Config, s: NodeState, event: Event)
    requires StoredProposal(cfg, s, event).Some?
    ensures var p := StoredProposal(cfg, s, event).value;
            var s' := Step(cfg, s, event).0;
            && s'.currentHeight == s.currentHeight && s'.latestBlock == s.latestBlock
            && s'.store == InsertUndecidedBlock(InsertUndecidedProposal(s.store, Assemble(cfg.crypto, p)),
                                                s.currentHeight, s.currentRound, DataOf(p.parts))
  {
    ReceiveOutcomes(cfg, s, event.from, event.part);
  }

  /** What storing any proposal out of its round leaves in the tables: under each of the
      two slots that was free, the entry of one table without that of the other. */
  lemma StoredOutOfRound(cfg: Config, s: NodeState, event: Event)
    requires Synced(s.store) && StoredProposal(cfg, s, event).Some? && !InItsRound(cfg, s, event)
    ensures var p := StoredProposal(cfg, s, event).value;
            var s' := Step(cfg, s, event).0;
            var slot, current := (p.height, p.round), (s.currentHeight, s.currentRound);
            && !Synced(s'.store)
            && (slot !in s.store.undecidedProposals || current !in s.store.undecidedBlocks)
            && (slot !in s.store.undecidedProposals ==>
                  && slot in s'.store.undecidedProposals && slot !in s'.store.undecidedBlocks
                  && s'.store.undecidedProposals[slot].value.extensions == DataOf(p.parts))
            && (current !in s.store.undecidedBlocks ==>
                  && current !in s'.store.undecidedProposals && current in s'.store.undecidedBlocks
                  && s'.store.undecidedBlocks[current] == DataOf(p.parts))
  {
    StepSyncedIff(cfg, s, event);
    StoringStep(cfg, s, event);
  }

  /** A decision without a block stops the application. */
  lemma NoBlockStops(cfg: Config, s: NodeState, certificate: CommitCertificate,
                     status: NewPayloadReply, head: ForkchoiceReply)
    requires GetBlockData(s.store, certificate.height, certificate.round).None?
    ensures Decide(cfg, s, certificate, status, head) == (s, Stopped(Panic))
  {
  }

  /** After a step that stores a proposal out of its round, in any state: when the slot
      that the proposal names has no block, a decision for it stops the application,
      although the value is recorded. */
  lemma NamedSlotStops(cfg: Config, s: NodeState, event: Event, valueId: u64, signatures: seq<CommitSignature>,
                       status: NewPayloadReply, head: ForkchoiceReply)
    requires StoredProposal(cfg, s, event).Some?
    requires var p := StoredProposal(cfg, s, event).value;
             && (p.height, p.round) != (s.currentHeight, s.currentRound)
             && (p.height, p.round) !in s.store.undecidedBlocks && p.height !in s.store.decidedBlocks
    ensures var p := StoredProposal(cfg, s, event).value;
            var s' := Step(cfg, s, event).0;
            && (p.height, p.round) in s'.store.undecidedProposals
            && Decide(cfg, s', CommitCertificate(p.height, p.round, valueId, signatures), status, head).1
               == Stopped(Panic)
  {
    var p := StoredProposal(cfg, s, event).value;
    StoringStep(cfg, s, event);
    NoBlockStops(cfg, Step(cfg, s, event).0, CommitCertificate(p.height, p.round, valueId, signatures), status, head);
  }

  /** After such a step, in any state: when the slot the node is in was free, a decision
      for it executes the block without recording anything or moving to the next height. */
  lemma CurrentSlotUnrecorded(cfg: Config, s: NodeState, event: Event, valueId: u64, signatures: seq<CommitSignature>,
                              block: Payload, status: NewPayloadReply, head: ForkchoiceReply)
    requires StoredProposal(cfg, s, event).Some?
    requires var p := StoredProposal(cfg, s, event).value;
             var current := (s.currentHeight, s.currentRound);
             && (p.height, p.round) != current
             && current !in s.store.undecidedBlocks && current !in s.store.undecidedProposals
             && cfg.decode(DataOf(p.parts)) == Some(block) && Adopts(cfg, s, block, status, head)
    ensures var s' := Step(cfg, s, event).0;
            var here := CommitCertificate(s.currentHeight, s.currentRound, valueId, signatures);
            var (s'', outcome) := Decide(cfg, s', here, status, head);
            && outcome == Done(StartHeight(s.currentHeight))
            && s''.store == s'.store && s''.currentHeight == s.currentHeight
            && s''.latestBlock.Some? && s''.latestBlock.value.blockHash == block.blockHash
  {
    var p := StoredProposal(cfg, s, event).value;
    StoringStep(cfg, s, event);
    UnrecordedDecision(cfg, Step(cfg, s, event).0,
                       CommitCertificate(s.currentHeight, s.currentRound, valueId, signatures),
                       DataOf(p.parts), block, status, head);
  }

  /** Every step of a running node that takes the tables out of agreement makes one of
      two decisions go wrong: the one for the slot the proposal names stops the
      application, or the one for the slot the node is in executes an unrecorded block. */
  lemma OutOfRoundDecisions(cfg: Config, h0: Height, p: Progress, event: Event, valueId: u64,
                            signatures: seq<CommitSignature>, block: Payload,
                            status: NewPayloadReply, head: ForkchoiceReply)
    requires TablesInvariant(h0, p) && !p.halted && Synced(p.node.store)
    requires StoredProposal(cfg, p.node, event).Some? && !InItsRound(cfg, p.node, event)
    requires cfg.decode(DataOf(StoredProposal(cfg, p.node, event).value.parts)) == Some(block)
    requires Adopts(cfg, p.node, block, status, head)
    ensures var s, proposal := p.node, StoredProposal(cfg, p.node, event).value;
            var s' := Step(cfg, s, event).0;
            var named := CommitCertificate(proposal.height, proposal.round, valueId, signatures);
            var here := CommitCertificate(s.currentHeight, s.currentRound, valueId, signatures);
            || Decide(cfg, s', named, status, head).1 == Stopped(Panic)
            || (var (s'', outcome) := Decide(cfg, s', here, status, head);
                outcome == Done(StartHeight(s.currentHeight)) && s''.store == s'.store)
  {
    var s, proposal := p.node, StoredProposal(cfg, p.node, event).value;
    ReceiveOutcomes(cfg, s, event.from, event.part);
    if (proposal.height, proposal.round) !in s.store.undecidedProposals {
      assert proposal.height !in s.store.decidedValues.Keys;
      NamedSlotStops(cfg, s, event, valueId, signatures, status, head);
    } else {
      CurrentSlotUnrecorded(cfg, s, event, valueId, signatures, block, status, head);
    }
  }

  // ------------------------------------------------------ proposals as streamed

  /** A block that a validator has proposed for a round of the first height, and its
      delivery to a node, in any order and number of messages. */
  datatype Offer = Offer(
    round: Round,
    key: PrivateKey,
    address: Address,
    block: Payload,
    peer: PeerId,
    id: StreamId,
    arrivals: seq<u64>)

  function ContentsOf(cfg: Config, h: Height, offer: Offer): seq<StreamContent> {
    BlockContents(cfg.crypto, offer.key, offer.address, h, offer.round, cfg.encode(offer.block))
  }

  /** The proposer signs with the key that its validators know, its block survives
      encoding, and all parts arrive. */
  ghost predicate Plausible(cfg: Config, h: Height, offer: Offer) {
    && SignaturesVerify(cfg.crypto) && !offer.round.Nil?
    && GetByAddress(cfg.validators, offer.address).Some?
    && GetByAddress(cfg.validators, offer.address).value.publicKey == cfg.crypto.publicKey(offer.key)
    && |cfg.encode(offer.block)| <= MAX_BUFFER && cfg.decode(cfg.encode(offer.block)) == Some(offer.block)
    && (forall k :: k in offer.arrivals ==> k < |ContentsOf(cfg, h, offer)|)
    && AllArrived(ContentsOf(cfg, h, offer), offer.arrivals)
  }

  ghost function OfferEvents(cfg: Config, h: Height, offer: Offer): seq<Event>
    requires Plausible(cfg, h, offer)
  {
    PartEvents(offer.peer, offer.id, ContentsOf(cfg, h, offer), offer.arrivals)
  }

  function OfferedValue(cfg: Config, h: Height, offer: Offer): ProposedValue {
    ProposedValue(h, offer.round, Nil, offer.address, NewValue(cfg.crypto, cfg.encode(offer.block)), true)
  }

  /** From `p` to `q` the node has only stored the offered block. */
  ghost predicate HasStored(cfg: Config, p: Progress, q: Progress, offer: Offer) {
    && q == p.(node := p.node.(
              streams := q.node.streams,
              store := InsertUndecidedBlock(
                         InsertUndecidedProposal(p.node.store, OfferedValue(cfg, p.node.currentHeight, offer)),
                         p.node.currentHeight, p.node.currentRound, cfg.encode(offer.block))))
    && OthersUntouched(p.node.streams, q.node.streams, (offer.peer, offer.id))
  }

  lemma OfferIsStored(cfg: Config, p: Progress, offer: Offer)
    requires !p.halted && Plausible(cfg, p.node.currentHeight, offer)
    requires Lookup(p.node.streams, (offer.peer, offer.id)) == EMPTY_STREAM
    ensures var events := OfferEvents(cfg, p.node.currentHeight, offer);
            Leads(cfg, p, events, After(cfg, p, events)) && HasStored(cfg, p, After(cfg, p, events), offer)
  {
    var h := p.node.currentHeight;
    BlockProposalCarries(cfg.crypto, offer.key, offer.address, cfg.validators, h, offer.round, cfg.encode(offer.block));
    TakeAll(cfg, p, offer.peer, offer.id, ContentsOf(cfg, h, offer), offer.arrivals);
    PartsAllowed(cfg, p, offer.peer, offer.id, ContentsOf(cfg, h, offer), offer.arrivals);
  }

  // --------------------------------------------- runs of a node in round 0

  /** Round 0 of the first height starts at a fresh node. */
  function Opening(h0: Height, latest: ExecutionBlock, proposer: Address): seq<Event> {
    [ConsensusReady(Some(Capabilities(true, true, true)), Some(Some(latest))), StartedRound(h0, At(0), proposer)]
  }

  function Opened(h0: Height, latest: ExecutionBlock, proposer: Address): Progress {
    Progress(InitialState(h0).(latestBlock := Some(latest), currentProposer := Some(proposer)), Some(h0), false, [])
  }

  lemma OpeningLeads(cfg: Config, h0: Height, latest: ExecutionBlock, proposer: Address)
    ensures Leads(cfg, Begin(h0), Opening(h0, latest, proposer), Opened(h0, latest, proposer))
  {
    var ready := ConsensusReady(Some(Capabilities(true, true, true)), Some(Some(latest)));
    var started := StartedRound(h0, At(0), proposer);
    var mid := Advance(cfg, Begin(h0), ready);
    LeadsOne(cfg, Begin(h0), ready);
    LeadsOne(cfg, mid, started);
    LeadsAppend(cfg, Begin(h0), [ready], mid, [started], Advance(cfg, mid, started));
    assert [ready] + [started] == Opening(h0, latest, proposer);
  }

  /** A fresh node in round 0 receives one proposal, and round 0 is decided. */
  datatype Script = Script(
    h0: Height,
    latest: ExecutionBlock,
    proposer: Address,
    offer: Offer,
    valueId: u64,
    signatures: seq<CommitSignature>,
    status: NewPayloadReply,
    head: ForkchoiceReply)

  /** The block can be built on the latest one and the client accepts it. */
  ghost predicate Playable(cfg: Config, script: Script) {
    && Plausible(cfg, script.h0, script.offer)
    && cfg.blobHashes(script.offer.block).Some?
    && script.offer.block.parentHash == script.latest.blockHash
    && script.status.Some? && script.status.value.status != Invalid && SetLatestForkchoiceState(script.head).Done?
    && script.h0 + 1 < U64_LIMIT
  }

  function DecisionEvent(script: Script): Event {
    Decided(CommitCertificate(script.h0, At(0), script.valueId, script.signatures), script.status, script.head)
  }

  ghost function RunOf(cfg: Config, script: Script): seq<Event>
    requires Playable(cfg, script)
  {
    Opening(script.h0, script.latest, script.proposer) + OfferEvents(cfg, script.h0, script.offer)
    + [DecisionEvent(script)]
  }

  /** The node before the decision. */
  ghost function Offered(cfg: Config, script: Script): Progress
    requires Playable(cfg, script)
  {
    After(cfg, Opened(script.h0, script.latest, script.proposer), OfferEvents(cfg, script.h0, script.offer))
  }

  lemma ScriptLeads(cfg: Config, script: Script)
    requires Playable(cfg, script)
    ensures HasStored(cfg, Opened(script.h0, script.latest, script.proposer), Offered(cfg, script), script.offer)
    ensures Leads(cfg, Begin(script.h0), RunOf(cfg, script), Advance(cfg, Offered(cfg, script), DecisionEvent(script)))
  {
    var opening, ready := Opening(script.h0, script.latest, script.proposer),
                           Opened(script.h0, script.latest, script.proposer);
    var events, offered := OfferEvents(cfg, script.h0, script.offer), Offered(cfg, script);
    OpeningLeads(cfg, script.h0, script.latest, script.proposer);
    OfferIsStored(cfg, ready, script.offer);
    LeadsAppend(cfg, Begin(script.h0), opening, ready, events, offered);
    LeadsOne(cfg, offered, DecisionEvent(script));
    LeadsAppend(cfg, Begin(script.h0), opening + events, offered, [DecisionEvent(script)],
                Advance(cfg, offered, DecisionEvent(script)));
  }

  function ExecutedIn(cfg: Config, script: Script): Decision {
    Decision(script.h0, At(0), cfg.encode(script.offer.block), script.offer.block)
  }

  /** Whatever round the proposal was for, its block is what the node executes. */
  lemma ScriptExecutes(cfg: Config, script: Script, p: Progress)
    requires Playable(cfg, script)
    requires HasStored(cfg, Opened(script.h0, script.latest, script.proposer), p, script.offer)
    ensures var q := Advance(cfg, p, DecisionEvent(script));
            && !q.halted && q.decided == [ExecutedIn(cfg, script)]
            && q.node.latestBlock.Some? && q.node.latestBlock.value.blockHash == script.offer.block.blockHash
  {
    var event := DecisionEvent(script);
    assert DecidedBlock(cfg, p.node, event.certificate) == Some((cfg.encode(script.offer.block), script.offer.block));
    assert Step(cfg, p.node, event).1.Done?;
  }

  /** For every configuration, block, round but 0, delivery and reply that meets the
      project's other hypotheses: a fresh node in which a proposal for the round completes
      in round 0, and round 0 is then decided, executes a block that it never records,
      and is told to start the same height again while its client is one block ahead.
      The run breaks none of the assumptions made of consensus. */
  lemma LateRunStalls(cfg: Config, script: Script)
    requires Playable(cfg, script) && script.offer.round != At(0)
    ensures AllowedRun(cfg, Begin(script.h0), RunOf(cfg, script))
    ensures var p := After(cfg, Begin(script.h0), RunOf(cfg, script));
            && !p.halted && p.decided == [ExecutedIn(cfg, script)]
            && p.node.latestBlock.Some? && p.node.latestBlock.value.blockHash == script.offer.block.blockHash
            && p.node.currentHeight == script.h0 && p.lastStart == Some(script.h0)
            && p.node.store.decidedValues == map[] && p.node.store.decidedBlocks == map[]
  {
    var event := DecisionEvent(script);
    ScriptLeads(cfg, script);
    ScriptExecutes(cfg, script, Offered(cfg, script));
    UnrecordedDecision(cfg, Offered(cfg, script).node, event.certificate, cfg.encode(script.offer.block),
                       script.offer.block, event.status, event.head);
  }

  // ------------------------------------------------ a later round, too early

  /** In round 0 a fresh node receives the proposal of that round, then that of a later
      round; the later round starts and is decided. */
  ghost function EarlyRun(cfg: Config, h0: Height, latest: ExecutionBlock, proposer: Address, first: Offer,
                          second: Offer, certificate: CommitCertificate, status: NewPayloadReply,
                          head: ForkchoiceReply): seq<Event>
    requires Plausible(cfg, h0, first) && Plausible(cfg, h0, second)
  {
    Opening(h0, latest, proposer) + OfferEvents(cfg, h0, first) + OfferEvents(cfg, h0, second)
    + [StartedRound(h0, second.round, second.address)] + [Decided(certificate, status, head)]
  }

  /** A node that holds its current block when a proposal for a later round completes has
      recorded that proposal's value without its block, and stops when it is decided. */
  lemma EarlyDecisionStops(cfg: Config, ready: Progress, held: Progress, early: Progress, first: Offer, second: Offer,
                           certificate: CommitCertificate, status: NewPayloadReply, head: ForkchoiceReply)
    requires !ready.halted && ready.node.store == EMPTY_TABLES && ready.node.currentRound == At(0)
    requires first.round == At(0) && second.round != At(0) && ready.lastStart == Some(ready.node.currentHeight)
    requires HasStored(cfg, ready, held, first) && HasStored(cfg, held, early, second)
    requires certificate.height == ready.node.currentHeight && certificate.round == second.round
    ensures var started := Advance(cfg, early, StartedRound(certificate.height, second.round, second.address));
            var q := Advance(cfg, started, Decided(certificate, status, head));
            && Allowed(early, StartedRound(certificate.height, second.round, second.address))
            && Allowed(started, Decided(certificate, status, head))
            && q.halted && q.decided == ready.decided
            && (certificate.height, certificate.round) in q.node.store.undecidedProposals
            && q.node.store.undecidedProposals[(certificate.height, certificate.round)].value
               == NewValue(cfg.crypto, cfg.encode(second.block))
  {
    var started := Advance(cfg, early, StartedRound(certificate.height, second.round, second.address));
    assert (certificate.height, certificate.round) !in early.node.store.undecidedBlocks;
    NoBlockStops(cfg, started.node, certificate, status, head);
  }

  /** For every configuration, pair of blocks and delivery: a fresh node that receives the
      proposal of round 0 and then, still in round 0, that of a later round, stops when
      the later round is decided, with the decided value recorded and nothing executed.
      The run breaks none of the assumptions made of consensus. */
  lemma EarlyRunStops(cfg: Config, h0: Height, latest: ExecutionBlock, proposer: Address, first: Offer, second: Offer,
                      certificate: CommitCertificate, status: NewPayloadReply, head: ForkchoiceReply)
    requires Plausible(cfg, h0, first) && Plausible(cfg, h0, second)
    requires first.round == At(0) && second.round != At(0) && (first.peer, first.id) != (second.peer, second.id)
    requires certificate.height == h0 && certificate.round == second.round
    ensures var events := EarlyRun(cfg, h0, latest, proposer, first, second, certificate, status, head);
            var q := After(cfg, Begin(h0), events);
            && AllowedRun(cfg, Begin(h0), events)
            && q.halted && q.decided == []
            && (h0, second.round) in q.node.store.undecidedProposals
            && q.node.store.undecidedProposals[(h0, second.round)].value
               == NewValue(cfg.crypto, cfg.encode(second.block))
  {
    var opening, ready := Opening(h0, latest, proposer), Opened(h0, latest, proposer);
    var e1, e2 := OfferEvents(cfg, h0, first), OfferEvents(cfg, h0, second);
    var held := After(cfg, ready, e1);
    var start, decide := StartedRound(h0, second.round, second.address), Decided(certificate, status, head);
    OpeningLeads(cfg, h0, latest, proposer);
    OfferIsStored(cfg, ready, first);
    LeadsAppend(cfg, Begin(h0), opening, ready, e1, held);
    OfferIsStored(cfg, held, second);
    var early := After(cfg, held, e2);
    LeadsAppend(cfg, Begin(h0), opening + e1, held, e2, early);
    EarlyDecisionStops(cfg, ready, held, early, first, second, certificate, status, head);
    LeadsOne(cfg, early, start);
    LeadsAppend(cfg, Begin(h0), opening + e1 + e2, early, [start], Advance(cfg, early, start));
    LeadsOne(cfg, Advance(cfg, early, start), decide);
    LeadsAppend(cfg, Begin(h0), opening + e1 + e2 + [start], Advance(cfg, early, start), [decide],
                Advance(cfg, Advance(cfg, early, start), decide));
  }
}
