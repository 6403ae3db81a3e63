/** Several nodes driven by one consensus: whatever messages each of them receives,
    they execute the same blocks. Blocks may be signed by anyone, inside or outside
    the group of nodes, and built in any way. */
module Agreement {
  import opened Types
  import opened Streaming
  import opened StreamingProperties
  import opened ProposalStream
  import opened RoundTrip
  import opened Store
  import opened Engine
  import opened Node
  import opened NodeRuns
  import opened TableAgreement

  type NodeId = nat

  /** What the nodes have in common: the height at which they start, the certificate
      that consensus reaches at each height, and their configurations. */
  datatype World = World(h0: Height, certificate: Height -> CommitCertificate, cfg: map<NodeId, Config>)

  ghost predicate WorldOk(world: World) {
    && (forall h: Height :: world.certificate(h).height == h)
    && (forall n, m, data :: n in world.cfg && m in world.cfg ==>
          world.cfg[n].decode(data) == world.cfg[m].decode(data))
  }

  /** What the parts hash to was signed for some slot; `signed` is the one block signed
      for each slot, by whichever proposer. */
  ghost predicate WasSigned(signed: map<RoundKey, Bytes>, p: ProposalParts) {
    exists k :: k in signed && HashedBytes(p.parts) == Header(k.0, k.1) + signed[k]
  }

  /** The proposal contains no Init beside its first part. */
  predicate OneInit(p: ProposalParts) {
    InitCount(p.parts) == 1
  }

  /** No signature verifies, under a key of the set, for bytes that were not signed. */
  ghost predicate Unforgeable(crypto: Crypto, validators: seq<Validator>, signed: map<RoundKey, Bytes>) {
    forall v: Validator, bytes: Bytes, signature: Signature ::
      v in validators && crypto.verify(crypto.keccak(bytes), signature, v.publicKey) ==>
        exists k :: k in signed && bytes == Header(k.0, k.1) + signed[k]
  }

  /** The same, of the one verification that a message brings about, if it completes a
      proposal: should any signature verify for the proposal's bytes, they were signed. */
  ghost predicate Unforged(signed: map<RoundKey, Bytes>, cfg: Config, s: NodeState, event: Event) {
    event.ReceivedProposalPart? ==>
      var reply := Receive(s.streams, event.from, event.part).1;
      reply.Complete? && Accepts(cfg, reply.parts) ==> WasSigned(signed, reply.parts)
  }

  /** Some signature verifies for the proposal's bytes under some key of the set. */
  ghost predicate Accepts(cfg: Config, p: ProposalParts) {
    exists v: Validator, signature: Signature ::
      v in cfg.validators && cfg.crypto.verify(cfg.crypto.keccak(HashedBytes(p.parts)), signature, v.publicKey)
  }

  /** With an unforgeable scheme every message meets the assumption. */
  lemma UnforgeableIsUnforged(signed: map<RoundKey, Bytes>, cfg: Config, s: NodeState, event: Event)
    requires Unforgeable(cfg.crypto, cfg.validators, signed)
    ensures Unforged(signed, cfg, s, event)
  {
    if event.ReceivedProposalPart? {
      var reply := Receive(s.streams, event.from, event.part).1;
      if reply.Complete? && Accepts(cfg, reply.parts) {
        var v: Validator, signature: Signature :| v in cfg.validators &&
          cfg.crypto.verify(cfg.crypto.keccak(HashedBytes(reply.parts.parts)), signature, v.publicKey);
      }
    }
  }

  /** What a node stores was signed: it has verified it. */
  lemma StoredWasSigned(signed: map<RoundKey, Bytes>, cfg: Config, s: NodeState, event: Event)
    requires Unforged(signed, cfg, s, event) && StoredProposal(cfg, s, event).Some?
    ensures WasSigned(signed, StoredProposal(cfg, s, event).value)
  {
    var p := StoredProposal(cfg, s, event).value;
    VerifyIff(cfg.crypto, cfg.validators, p);
    var i: nat, j: nat :| LastFinAt(p.parts, i) && FirstAt(cfg.validators, p.proposer, j) &&
      cfg.crypto.verify(cfg.crypto.keccak(HashedBytes(p.parts)), p.parts[i].signature, cfg.validators[j].publicKey);
    assert cfg.validators[j] in cfg.validators;
  }

  /** Assumed of one message at one node: the block it makes the node propose is the one
      signed for the slot, a decision carries the certificate of its height, no signature
      that verifies for the proposal it completes is forged, and what is stored has one Init. */
  ghost predicate Sound(world: World, signed: map<RoundKey, Bytes>, cfg: Config, s: NodeState, event: Event) {
    var built := BuiltBlock(s, event);
    var stored := StoredProposal(cfg, s, event);
    && (built.Some? ==>
          (event.height, event.round) in signed && signed[(event.height, event.round)] == cfg.encode(built.value))
    && (event.Decided? ==> event.certificate == world.certificate(event.certificate.height))
    && Unforged(signed, cfg, s, event)
    && (stored.Some? ==> OneInit(stored.value))
  }

  /** A proposal that is stored is for the slot the node is in, or that slot holds a block
      already, or it has recorded the very bytes that the proposal carries. */
  ghost predicate KeepsSlot(cfg: Config, s: NodeState, event: Event) {
    var stored := StoredProposal(cfg, s, event);
    var current := (s.currentHeight, s.currentRound);
    stored.Some? ==>
      || (stored.value.height, stored.value.round) == current
      || current in s.store.undecidedBlocks
      || (current in s.store.undecidedProposals &&
          s.store.undecidedProposals[current].value.extensions == DataOf(stored.value.parts))
  }

  // --------------------------------------------------------------- invariant

  ghost predicate BlocksSigned(signed: map<RoundKey, Bytes>, blocks: map<RoundKey, Bytes>) {
    forall k :: k in blocks ==> k in signed && blocks[k] == signed[k]
  }

  ghost predicate StreamsOk(streams: map<StreamKey, StreamView>) {
    forall k :: k in streams ==> StreamInvariant(streams[k])
  }

  function SlotAt(world: World, h: Height): RoundKey {
    (h, world.certificate(h).round)
  }

  /** A decision executed the block signed for the slot that consensus decided at its height. */
  ghost predicate ExecutedSigned(world: World, signed: map<RoundKey, Bytes>, cfg: Config, d: Decision) {
    && SlotAt(world, d.height) in signed && d.data == signed[SlotAt(world, d.height)]
    && cfg.decode(d.data) == Some(d.block)
  }

  ghost predicate HistoryOk(world: World, signed: map<RoundKey, Bytes>, cfg: Config, decided: seq<Decision>) {
    forall i :: 0 <= i < |decided| ==>
      decided[i].height == world.h0 + i && ExecutedSigned(world, signed, cfg, decided[i])
  }

  /** Every proposal recorded is of the block signed for its slot. */
  ghost predicate ProposalsSigned(crypto: Crypto, signed: map<RoundKey, Bytes>,
                                  proposals: map<RoundKey, ProposedValue>)
  {
    forall k :: k in proposals ==> k in signed && proposals[k].value == NewValue(crypto, signed[k])
  }

  /** The undecided blocks are signed, and each has its proposal beside it. */
  ghost predicate BlocksOk(signed: map<RoundKey, Bytes>, t: Tables) {
    BlocksSigned(signed, t.undecidedBlocks) && t.undecidedBlocks.Keys <= t.undecidedProposals.Keys
  }

  /** Every recorded decision is of the block signed for the decided slot, with the
      certificate of its height. */
  ghost predicate DecisionsOk(world: World, crypto: Crypto, signed: map<RoundKey, Bytes>, t: Tables) {
    && (forall h :: h in t.decidedValues ==>
          SlotAt(world, h) in signed && t.decidedValues[h] == NewValue(crypto, signed[SlotAt(world, h)]))
    && (forall h :: h in t.certificates ==> t.certificates[h] == world.certificate(h))
  }

  /** What holds of each node in every run. */
  ghost predicate Faithful(world: World, signed: map<RoundKey, Bytes>, cfg: Config, p: Progress) {
    && TablesInvariant(world.h0, p)
    && StreamsOk(p.node.streams)
    && ProposalsSigned(cfg.crypto, signed, p.node.store.undecidedProposals)
    && BlocksOk(signed, p.node.store)
    && DecisionsOk(world, cfg.crypto, signed, p.node.store)
    && HistoryOk(world, signed, cfg, p.decided)
    && (!p.halted ==> |p.decided| == p.node.currentHeight - world.h0)
  }

  // ------------------------------------------------------- what is reassembled

  /** A proposal with one Init whose hashed bytes were signed carries exactly the block
      signed for the slot it names. */
  lemma SignedCarriesBlock(signed: map<RoundKey, Bytes>, p: ProposalParts)
    requires WasSigned(signed, p) && OneInit(p) && StartsWithInit(p)
    ensures (p.height, p.round) in signed && DataOf(p.parts) == signed[(p.height, p.round)]
  {
    var k :| k in signed && HashedBytes(p.parts) == Header(k.0, k.1) + signed[k];
    SignedDataIffOneInit(p, k.0, k.1, signed[k]);
  }

  /** A block stream opened by a node, received in any way, meets both conditions. */
  lemma HonestProposalIsSigned(crypto: Crypto, validators: seq<Validator>, p: ProposalParts,
                               height: Height, round: Round, address: Address, data: Bytes,
                               signed: map<RoundKey, Bytes>)
    requires CarriesBlock(crypto, validators, p, height, round, address, data)
    requires (height, round) in signed && signed[(height, round)] == data
    ensures WasSigned(signed, p) && OneInit(p)
  {
    assert HashedBytes(p.parts) == Header((height, round).0, (height, round).1) + signed[(height, round)];
  }

  lemma StoredStartsWithInit(cfg: Config, s: NodeState, event: Event)
    requires StreamsOk(s.streams) && StoredProposal(cfg, s, event).Some?
    ensures StartsWithInit(StoredProposal(cfg, s, event).value)
  {
    var key := (event.from, event.part.streamId);
    ReceiveTouchesOneStream(s.streams, event.from, event.part);
    CompleteStartsWithInit(Lookup(s.streams, key), event.part.sequence, event.part.content);
  }

  lemma DecideKeepsStreams(cfg: Config, s: NodeState, event: Event)
    requires event.Decided?
    ensures Step(cfg, s, event).0.streams == s.streams
  {
  }

  lemma StreamUpdateOk(streams: map<StreamKey, StreamView>, key: StreamKey, v: StreamView)
    requires StreamsOk(streams) && StreamInvariant(v)
    ensures StreamsOk(streams[key := v])
  {
  }

  lemma MapReceiveOk(streams: map<StreamKey, StreamView>, peer: PeerId, msg: StreamMessage)
    requires StreamsOk(streams)
    ensures StreamsOk(Receive(streams, peer, msg).0)
  {
    var v := Lookup(streams, (peer, msg.streamId));
    ReceiveTouchesOneStream(streams, peer, msg);
    StreamReceiveKeepsInvariant(v, msg.sequence, msg.content);
    StreamUpdateOk(streams, (peer, msg.streamId), StreamReceive(v, msg.sequence, msg.content).0);
  }

  lemma ReceiveKeepsStreamsOk(cfg: Config, s: NodeState, event: Event)
    requires StreamsOk(s.streams) && event.ReceivedProposalPart?
    ensures StreamsOk(Step(cfg, s, event).0.streams)
  {
    ReceiveOutcomes(cfg, s, event.from, event.part);
    ReceivedStep(cfg, s, event.from, event.part);
    MapReceiveOk(s.streams, event.from, event.part);
  }

  lemma StreamsStayOk(cfg: Config, s: NodeState, event: Event)
    requires StreamsOk(s.streams)
    ensures StreamsOk(Step(cfg, s, event).0.streams)
  {
    match event {
      case ConsensusReady(_, _) =>
      case StartedRound(_, _, _) =>
      case GetValue(_, _, _, _) => ProposeOutcomes(cfg, s, event);
      case ReceivedProposalPart(_, _) => ReceiveKeepsStreamsOk(cfg, s, event);
      case Decided(_, _, _) => DecideKeepsStreams(cfg, s, event);
    }
  }

  // ------------------------------------------------------- the undecided tables

  lemma InsertKeepsProposals(crypto: Crypto, signed: map<RoundKey, Bytes>, t: Tables, p: ProposedValue)
    requires ProposalsSigned(crypto, signed, t.undecidedProposals)
    requires (p.height, p.round) in signed && p.value == NewValue(crypto, signed[(p.height, p.round)])
    ensures ProposalsSigned(crypto, signed, InsertUndecidedProposal(t, p).undecidedProposals)
  {
  }

  /** What storing a signed proposal leaves in the undecided tables, exactly. */
  lemma InsertBlocksOkIff(crypto: Crypto, signed: map<RoundKey, Bytes>, t: Tables, p: ProposedValue,
                          current: RoundKey)
    requires ProposalsSigned(crypto, signed, t.undecidedProposals) && BlocksOk(signed, t)
    requires (p.height, p.round) in signed && p.value == NewValue(crypto, signed[(p.height, p.round)])
    ensures BlocksOk(signed, InsertUndecidedBlock(InsertUndecidedProposal(t, p), current.0, current.1,
                                                  p.value.extensions)) <==>
            || (p.height, p.round) == current
            || current in t.undecidedBlocks
            || (current in t.undecidedProposals &&
                t.undecidedProposals[current].value.extensions == p.value.extensions)
  {
    var t' := InsertUndecidedBlock(InsertUndecidedProposal(t, p), current.0, current.1, p.value.extensions);
    if current !in t.undecidedBlocks {
      assert current in t'.undecidedBlocks && t'.undecidedBlocks[current] == p.value.extensions;
    }
  }

  /** What a message makes a node store is the block signed for the slot it names. */
  lemma StoredIsSigned(world: World, signed: map<RoundKey, Bytes>, cfg: Config, s: NodeState, event: Event)
    requires StreamsOk(s.streams) && Sound(world, signed, cfg, s, event) && StoredProposal(cfg, s, event).Some?
    ensures var p := StoredProposal(cfg, s, event).value;
            && (p.height, p.round) in signed && DataOf(p.parts) == signed[(p.height, p.round)]
            && Assemble(cfg.crypto, p).value == NewValue(cfg.crypto, signed[(p.height, p.round)])
  {
    StoredStartsWithInit(cfg, s, event);
    StoredWasSigned(signed, cfg, s, event);
    SignedCarriesBlock(signed, StoredProposal(cfg, s, event).value);
  }

  /** The undecided tables between two steps. */
  ghost predicate UndecidedOk(signed: map<RoundKey, Bytes>, cfg: Config, t: Tables) {
    ProposalsSigned(cfg.crypto, signed, t.undecidedProposals) && BlocksOk(signed, t)
  }

  lemma ReceiveUndecidedIff(world: World, signed: map<RoundKey, Bytes>, cfg: Config, s: NodeState, event: Event)
    requires StreamsOk(s.streams) && UndecidedOk(signed, cfg, s.store)
    requires event.ReceivedProposalPart? && Sound(world, signed, cfg, s, event)
    ensures UndecidedOk(signed, cfg, Step(cfg, s, event).0.store) <==> KeepsSlot(cfg, s, event)
  {
    ReceiveOutcomes(cfg, s, event.from, event.part);
    ReceivedStep(cfg, s, event.from, event.part);
    if StoredProposal(cfg, s, event).Some? {
      StoredIsSigned(world, signed, cfg, s, event);
      var value := Assemble(cfg.crypto, StoredProposal(cfg, s, event).value);
      InsertKeepsProposals(cfg.crypto, signed, s.store, value);
      InsertBlocksOkIff(cfg.crypto, signed, s.store, value, (s.currentHeight, s.currentRound));
    }
  }

  lemma ProposeKeepsUndecided(world: World, signed: map<RoundKey, Bytes>, cfg: Config, s: NodeState, event: Event)
    requires UndecidedOk(signed, cfg, s.store) && event.GetValue? && Sound(world, signed, cfg, s, event)
    ensures UndecidedOk(signed, cfg, Step(cfg, s, event).0.store)
  {
    ProposeOutcomes(cfg, s, event);
    var block := BuiltBlock(s, event);
    if block.Some? {
      var value := OwnProposal(cfg, event.height, event.round, block.value);
      InsertKeepsProposals(cfg.crypto, signed, s.store, value);
      InsertBlocksOkIff(cfg.crypto, signed, s.store, value, (event.height, event.round));
    }
  }

  lemma CommitKeepsUndecidedOk(signed: map<RoundKey, Bytes>, cfg: Config, s: NodeState, certificate: CommitCertificate)
    requires UndecidedOk(signed, cfg, s.store)
    ensures UndecidedOk(signed, cfg, Commit(s, certificate).0.store)
  {
  }

  lemma DecideKeepsUndecided(signed: map<RoundKey, Bytes>, cfg: Config, s: NodeState, event: Event)
    requires UndecidedOk(signed, cfg, s.store) && event.Decided?
    ensures UndecidedOk(signed, cfg, Step(cfg, s, event).0.store)
  {
    DecideOutcomes(cfg, s, event.certificate, event.status, event.head);
    var found := DecidedBlock(cfg, s, event.certificate);
    if found.Some? {
      CommitKeepsUndecidedOk(signed, cfg, Counted(s, found.value.0, found.value.1), event.certificate);
    }
  }

  /** One step keeps every undecided block signed and beside its proposal if and only if a
      proposal it stores keeps the slot the node is in. */
  lemma StepUndecidedIff(world: World, signed: map<RoundKey, Bytes>, cfg: Config, s: NodeState, event: Event)
    requires StreamsOk(s.streams) && UndecidedOk(signed, cfg, s.store) && Sound(world, signed, cfg, s, event)
    ensures UndecidedOk(signed, cfg, Step(cfg, s, event).0.store) <==> KeepsSlot(cfg, s, event)
  {
    match event {
      case ConsensusReady(_, _) =>
      case StartedRound(_, _, _) =>
      case GetValue(_, _, _, _) => ProposeKeepsUndecided(world, signed, cfg, s, event);
      case ReceivedProposalPart(_, _) => ReceiveUndecidedIff(world, signed, cfg, s, event);
      case Decided(_, _, _) => DecideKeepsUndecided(signed, cfg, s, event);
    }
  }

  // ------------------------------------------------- decisions and the history

  lemma TransactionsKeepDecisions(world: World, signed: map<RoundKey, Bytes>, crypto: Crypto, t: Tables, value: Value,
                                  certificate: CommitCertificate)
    requires DecisionsOk(world, crypto, signed, t) && certificate == world.certificate(certificate.height)
    requires var slot := SlotAt(world, certificate.height);
             slot in signed && value == NewValue(crypto, signed[slot])
    ensures DecisionsOk(world, crypto, signed, CommitTransactions(t, value, certificate)[2])
  {
    var ts := CommitTransactions(t, value, certificate);
    assert DecisionsOk(world, crypto, signed, ts[0]);
    assert DecisionsOk(world, crypto, signed, ts[1]);
    PruneKeepsDecisions(world, signed, crypto, ts[1], SaturatingSub(certificate.height, 5));
  }

  lemma PruneKeepsDecisions(world: World, signed: map<RoundKey, Bytes>, crypto: Crypto, t: Tables, retain: Height)
    requires DecisionsOk(world, crypto, signed, t)
    ensures DecisionsOk(world, crypto, signed, Prune(t, retain))
  {
  }

  lemma CommitKeepsDecisions(world: World, signed: map<RoundKey, Bytes>, cfg: Config, s: NodeState,
                             certificate: CommitCertificate)
    requires DecisionsOk(world, cfg.crypto, signed, s.store)
    requires ProposalsSigned(cfg.crypto, signed, s.store.undecidedProposals)
    requires certificate == world.certificate(certificate.height)
    ensures DecisionsOk(world, cfg.crypto, signed, Commit(s, certificate).0.store)
  {
    var slot := (certificate.height, certificate.round);
    if slot in s.store.undecidedProposals {
      assert slot == SlotAt(world, certificate.height);
      TransactionsKeepDecisions(world, signed, cfg.crypto, s.store, s.store.undecidedProposals[slot].value,
                                certificate);
    }
  }

  lemma DecisionsStayOk(world: World, signed: map<RoundKey, Bytes>, cfg: Config, s: NodeState, event: Event)
    requires DecisionsOk(world, cfg.crypto, signed, s.store)
    requires ProposalsSigned(cfg.crypto, signed, s.store.undecidedProposals)
    requires event.Decided? ==> event.certificate == world.certificate(event.certificate.height)
    ensures DecisionsOk(world, cfg.crypto, signed, Step(cfg, s, event).0.store)
  {
    match event {
      case ConsensusReady(_, _) =>
      case StartedRound(_, _, _) =>
      case GetValue(_, _, _, _) => ProposeOutcomes(cfg, s, event);
      case ReceivedProposalPart(from, part) => ReceiveOutcomes(cfg, s, from, part);
      case Decided(certificate, status, head) =>
        DecideOutcomes(cfg, s, certificate, status, head);
        var found := DecidedBlock(cfg, s, certificate);
        if found.Some? {
          CommitKeepsDecisions(world, signed, cfg, Counted(s, found.value.0, found.value.1), certificate);
        }
    }
  }

  /** A decision that is carried through executes the block that was signed for the
      decided slot, whoever proposed it, records it, and advances. */
  lemma DecisionExecutesSigned(world: World, signed: map<RoundKey, Bytes>, cfg: Config, p: Progress, event: Event)
    requires WorldOk(world) && Faithful(world, signed, cfg, p)
    requires !p.halted && Allowed(p, event) && Sound(world, signed, cfg, p.node, event)
    requires event.Decided? && Step(cfg, p.node, event).1.Done?
    ensures var d := DecisionOf(cfg, p.node, event.certificate);
            var q := Advance(cfg, p, event);
            && d.height == p.node.currentHeight
            && ExecutedSigned(world, signed, cfg, d)
            && q.decided == p.decided + [d] && q.node.currentHeight == p.node.currentHeight + 1
  {
    DecideOutcomes(cfg, p.node, event.certificate, event.status, event.head);
    var slot := (event.certificate.height, event.certificate.round);
    assert slot == SlotAt(world, event.certificate.height);
    assert event.certificate.height !in p.node.store.decidedBlocks;
    assert slot in p.node.store.undecidedBlocks && slot in p.node.store.undecidedProposals;
  }

  lemma HistoryNext(world: World, signed: map<RoundKey, Bytes>, cfg: Config, decided: seq<Decision>, d: Decision)
    requires HistoryOk(world, signed, cfg, decided) && ExecutedSigned(world, signed, cfg, d)
    requires d.height == world.h0 + |decided|
    ensures HistoryOk(world, signed, cfg, decided + [d])
  {
  }

  lemma HistoryStaysOk(world: World, signed: map<RoundKey, Bytes>, cfg: Config, p: Progress, event: Event)
    requires WorldOk(world) && Faithful(world, signed, cfg, p)
    requires !p.halted && Allowed(p, event) && Sound(world, signed, cfg, p.node, event)
    ensures var q := Advance(cfg, p, event);
            && HistoryOk(world, signed, cfg, q.decided)
            && (!q.halted ==> |q.decided| == q.node.currentHeight - world.h0)
  {
    if Step(cfg, p.node, event).1.Done? {
      if event.Decided? {
        DecisionExecutesSigned(world, signed, cfg, p, event);
        HistoryNext(world, signed, cfg, p.decided, DecisionOf(cfg, p.node, event.certificate));
      } else {
        HeightOnlyMovesOnDecisions(cfg, world.h0, p, event);
      }
    }
  }

  lemma AdvanceKeepsFaithful(world: World, signed: map<RoundKey, Bytes>, cfg: Config, p: Progress, event: Event)
    requires WorldOk(world) && Faithful(world, signed, cfg, p)
    requires !p.halted ==>
               Allowed(p, event) && Sound(world, signed, cfg, p.node, event) && KeepsSlot(cfg, p.node, event)
    ensures Faithful(world, signed, cfg, Advance(cfg, p, event))
  {
    if !p.halted {
      AdvanceKeepsTables(cfg, world.h0, p, event);
      StreamsStayOk(cfg, p.node, event);
      StepUndecidedIff(world, signed, cfg, p.node, event);
      DecisionsStayOk(world, signed, cfg, p.node, event);
      HistoryStaysOk(world, signed, cfg, p, event);
    }
  }

  // ------------------------------------------------------------- runs of the group

  type Group = map<NodeId, Progress>
  type GroupEvent = (NodeId, Event)

  /** Whether every proposal stored must keep the slot of the node that stores it. */
  datatype Guard = Guarded | Unguarded

  /** The message may reach node n now. */
  ghost predicate MayReach(world: World, signed: map<RoundKey, Bytes>, guard: Guard, group: Group, n: NodeId,
                           event: Event)
  {
    && n in world.cfg && n in group
    && (!group[n].halted ==>
          && Allowed(group[n], event)
          && Sound(world, signed, world.cfg[n], group[n].node, event)
          && (guard.Guarded? ==> KeepsSlot(world.cfg[n], group[n].node, event)))
  }

  ghost function Arrive(world: World, group: Group, n: NodeId, event: Event): Group
    requires n in world.cfg && n in group
  {
    group[n := Advance(world.cfg[n], group[n], event)]
  }

  /** `last` is reached from `first` by delivering `events`, each to its node. */
  ghost predicate RunsTo(world: World, signed: map<RoundKey, Bytes>, guard: Guard, first: Group,
                         events: seq<GroupEvent>, last: Group)
    decreases |events|
  {
    if events == [] then last == first
    else
      var (n, event) := events[0];
      && MayReach(world, signed, guard, first, n, event)
      && RunsTo(world, signed, guard, Arrive(world, first, n, event), events[1..], last)
  }

  ghost predicate Fresh(world: World, group: Group) {
    group.Keys == world.cfg.Keys && forall n :: n in group ==> group[n] == Begin(world.h0)
  }

  ghost predicate MemberFaithful(world: World, signed: map<RoundKey, Bytes>, group: Group, n: NodeId)
    requires n in world.cfg && n in group
  {
    Faithful(world, signed, world.cfg[n], group[n])
  }

  ghost predicate AllFaithful(world: World, signed: map<RoundKey, Bytes>, group: Group) {
    && group.Keys == world.cfg.Keys
    && forall n {:trigger MemberFaithful(world, signed, group, n)} :: n in world.cfg ==>
         MemberFaithful(world, signed, group, n)
  }

  lemma BeginIsFaithful(world: World, signed: map<RoundKey, Bytes>, cfg: Config)
    ensures Faithful(world, signed, cfg, Begin(world.h0))
  {
  }

  lemma MemberStaysFaithful(world: World, signed: map<RoundKey, Bytes>, group: Group, n: NodeId, event: Event,
                            m: NodeId)
    requires WorldOk(world) && AllFaithful(world, signed, group) && MayReach(world, signed, Guarded, group, n, event)
    requires m in world.cfg
    ensures MemberFaithful(world, signed, Arrive(world, group, n, event), m)
  {
    assert MemberFaithful(world, signed, group, m);
    if m == n {
      AdvanceKeepsFaithful(world, signed, world.cfg[n], group[n], event);
    }
  }

  lemma ArriveKeepsFaithful(world: World, signed: map<RoundKey, Bytes>, group: Group, n: NodeId, event: Event)
    requires WorldOk(world) && AllFaithful(world, signed, group) && MayReach(world, signed, Guarded, group, n, event)
    ensures AllFaithful(world, signed, Arrive(world, group, n, event))
  {
    assert Arrive(world, group, n, event).Keys == world.cfg.Keys;
    forall m | m in world.cfg {
      MemberStaysFaithful(world, signed, group, n, event, m);
    }
  }

  lemma {:induction false} RunStaysFaithful(world: World, signed: map<RoundKey, Bytes>, first: Group,
                                            events: seq<GroupEvent>, last: Group)
    requires WorldOk(world) && AllFaithful(world, signed, first) && RunsTo(world, signed, Guarded, first, events, last)
    ensures AllFaithful(world, signed, last)
    decreases |events|
  {
    if events != [] {
      var (n, event) := events[0];
      ArriveKeepsFaithful(world, signed, first, n, event);
      RunStaysFaithful(world, signed, Arrive(world, first, n, event), events[1..], last);
    }
  }

  lemma FreshIsFaithful(world: World, signed: map<RoundKey, Bytes>, group: Group)
    requires Fresh(world, group)
    ensures AllFaithful(world, signed, group)
  {
    forall n | n in world.cfg ensures MemberFaithful(world, signed, group, n) {
      BeginIsFaithful(world, signed, world.cfg[n]);
    }
  }

  function Executed(decided: seq<Decision>): seq<Bytes> {
    seq(|decided|, i requires 0 <= i < |decided| => decided[i].data)
  }

  function BlocksExecuted(decided: seq<Decision>): seq<Payload> {
    seq(|decided|, i requires 0 <= i < |decided| => decided[i].block)
  }

  lemma HistoriesAgree(world: World, signed: map<RoundKey, Bytes>, a: NodeId, b: NodeId,
                       shorter: seq<Decision>, longer: seq<Decision>)
    requires WorldOk(world) && a in world.cfg && b in world.cfg && |shorter| <= |longer|
    requires HistoryOk(world, signed, world.cfg[a], shorter) && HistoryOk(world, signed, world.cfg[b], longer)
    ensures Executed(shorter) <= Executed(longer) && BlocksExecuted(shorter) <= BlocksExecuted(longer)
  {
    forall i | 0 <= i < |shorter| ensures shorter[i].data == longer[i].data && shorter[i].block == longer[i].block {
      var d, e := shorter[i], longer[i];
      assert d.height == e.height;
      assert world.cfg[a].decode(d.data) == world.cfg[b].decode(d.data);
    }
  }

  /** Whatever messages each node has received, in whatever order and number, from
      proposers inside or outside the group, the blocks executed by any two nodes,
      running or stopped, agree height by height: the one that is behind has executed a
      prefix of what the other has, byte for byte. */
  lemma NodesAgree(world: World, signed: map<RoundKey, Bytes>, first: Group, events: seq<GroupEvent>, last: Group,
                   a: NodeId, b: NodeId)
    requires WorldOk(world) && Fresh(world, first) && RunsTo(world, signed, Guarded, first, events, last)
    requires a in last && b in last && |last[a].decided| <= |last[b].decided|
    ensures Executed(last[a].decided) <= Executed(last[b].decided)
    ensures BlocksExecuted(last[a].decided) <= BlocksExecuted(last[b].decided)
  {
    FreshIsFaithful(world, signed, first);
    RunStaysFaithful(world, signed, first, events, last);
    assert MemberFaithful(world, signed, last, a) && MemberFaithful(world, signed, last, b);
    HistoriesAgree(world, signed, a, b, last[a].decided, last[b].decided);
  }

  /** At every kept height of a node, the recorded value is the one that the
      recorded certificate names if and only if the certificate of that height names
      the hash of the block signed for the decided slot. */
  lemma RecordedValueIsCertifiedIff(world: World, signed: map<RoundKey, Bytes>, first: Group, events: seq<GroupEvent>,
                                    last: Group, n: NodeId, h: Height)
    requires WorldOk(world) && Fresh(world, first) && RunsTo(world, signed, Guarded, first, events, last)
    requires n in last && h in last[n].node.store.decidedValues
    ensures n in world.cfg && SlotAt(world, h) in signed && h in last[n].node.store.certificates
    ensures var t := last[n].node.store;
            t.decidedValues[h].value == t.certificates[h].valueId <==>
            world.certificate(h).valueId == world.cfg[n].crypto.sipHash(signed[SlotAt(world, h)])
  {
    FreshIsFaithful(world, signed, first);
    RunStaysFaithful(world, signed, first, events, last);
    assert MemberFaithful(world, signed, last, n);
    RecordedIsSigned(world, signed, world.cfg[n], last[n], h);
  }

  lemma RecordedIsSigned(world: World, signed: map<RoundKey, Bytes>, cfg: Config, p: Progress, h: Height)
    requires Faithful(world, signed, cfg, p) && h in p.node.store.decidedValues
    ensures SlotAt(world, h) in signed && h in p.node.store.certificates
    ensures p.node.store.decidedValues[h].value == cfg.crypto.sipHash(signed[SlotAt(world, h)])
    ensures p.node.store.certificates[h] == world.certificate(h)
  {
    assert h in p.node.store.decidedValues.Keys;
  }
}
