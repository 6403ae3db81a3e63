/** The execution client as an abstract machine that follows the reply rules of the
    Engine API, and what holds of it when driven by a node. */
module ExecutionClient {
  import opened Types
  import opened Engine
  import opened Node
  import opened NodeRuns
  import opened TableAgreement

  /** `authentic` says which payloads carry the block hash that they really have. */
  datatype Chain = Chain(authentic: Payload -> bool, genesis: Payload)

  /** A block hash identifies the payload it was computed from. */
  ghost predicate HashesBind(chain: Chain) {
    forall p, q :: chain.authentic(p) && chain.authentic(q) && p.blockHash == q.blockHash ==> p == q
  }

  datatype El = El(
    blocks: map<Hash, Payload>,
    pointers: ForkchoiceState,
    builds: map<PayloadId, (Hash, PayloadAttributes)>)

  /** A child block continues its parent. */
  predicate Follows(child: Payload, parent: Payload) {
    && child.parentHash == parent.blockHash
    && child.blockNumber == parent.blockNumber + 1
    && child.timestamp > parent.timestamp
  }

  /** Every validated block is authentic and follows a validated block, back to genesis. */
  ghost predicate WellFormedEl(chain: Chain, el: El) {
    && el.pointers.head in el.blocks
    && chain.genesis.parentHash !in el.blocks
    && (forall h :: h in el.blocks ==>
          && el.blocks[h].blockHash == h
          && chain.authentic(el.blocks[h])
          && (el.blocks[h] == chain.genesis ||
              (el.blocks[h].parentHash in el.blocks && Follows(el.blocks[h], el.blocks[el.blocks[h].parentHash]))))
  }

  /** The client may validate further blocks at any time, but forgets none. */
  ghost predicate Grows(chain: Chain, el: El, el': El) {
    && WellFormedEl(chain, el')
    && (forall h :: h in el.blocks ==> h in el'.blocks && el'.blocks[h] == el.blocks[h])
    && (forall id :: id in el.builds ==> id in el'.builds && el'.builds[id] == el.builds[id])
  }

  ghost predicate Imports(chain: Chain, el: El, el': El) {
    Grows(chain, el, el') && el'.pointers == el.pointers
  }

  /** A block that lies behind the head; the client may leave such a request aside. */
  ghost predicate Behind(el: El, hash: Hash)
    requires hash in el.blocks && el.pointers.head in el.blocks
  {
    el.blocks[hash].blockNumber < el.blocks[el.pointers.head].blockNumber
  }

  /** engine_forkchoiceUpdated: a VALID reply means that the requested head is a
      validated block and, unless it lies behind, that all pointers now name it; a
      reply of any other status changes no pointer. A lost reply may mean either. */
  ghost predicate ForkchoiceCall(chain: Chain, el: El, state: ForkchoiceState, attributes: Option<PayloadAttributes>,
                                 reply: ForkchoiceReply, el': El)
  {
    && WellFormedEl(chain, el)
    && Grows(chain, el, el')
    && match reply
       case None => el'.pointers == el.pointers || (state.head in el'.blocks && el'.pointers == state)
       case Some(ForkchoiceUpdated(status, id)) =>
         if status.status == Valid then
           && status.latestValidHash == Some(state.head)
           && state.head in el'.blocks
           && el.pointers.head in el'.blocks
           && (el'.pointers == state || (el'.pointers == el.pointers && Behind(el', state.head) && id.None?))
           && (id.Some? ==>
                 && attributes.Some? && id.value in el'.builds
                 && el'.builds[id.value] == (state.head, attributes.value))
         else el'.pointers == el.pointers && id.None?
  }

  /** engine_getPayload: a payload built on the given head with the given attributes. */
  ghost predicate GetPayloadCall(chain: Chain, el: El, id: PayloadId, reply: GetPayloadReply, el': El) {
    && Imports(chain, el, el')
    && (reply.Some? ==>
          && id in el.builds && el.builds[id].0 in el'.blocks
          && chain.authentic(reply.value)
          && reply.value.parentHash == el.builds[id].0
          && reply.value.blockNumber == el'.blocks[el.builds[id].0].blockNumber + 1
          && reply.value.timestamp == el.builds[id].1.timestamp
          && reply.value.prevRandao == el.builds[id].1.prevRandao)
  }

  /** engine_newPayload: any status but INVALID means that the block hash was found right. */
  ghost predicate NewPayloadCall(chain: Chain, el: El, payload: Payload, reply: NewPayloadReply, el': El) {
    && Imports(chain, el, el')
    && (reply.Some? && reply.value.status != Invalid ==> chain.authentic(payload))
    && (reply.Some? && reply.value.status == Valid ==> payload.blockHash in el'.blocks)
  }

  function HeaderOf(p: Payload): ExecutionBlock {
    ExecutionBlock(p.blockHash, p.blockNumber, p.parentHash, p.timestamp, p.prevRandao)
  }

  /** The calls a node makes while handling a message, in order, with the replies the
      message carries; `mid` is the client between two calls. */
  ghost predicate Serves(chain: Chain, cfg: Config, s: NodeState, event: Event, el: El, mid: El, el': El) {
    match event
    case ConsensusReady(_, latest) =>
      && Imports(chain, el, el')
      && (latest.Some? && latest.value.Some? ==> latest.value.value == HeaderOf(el'.blocks[el'.pointers.head]))
    case StartedRound(_, _, _) => Imports(chain, el, el')
    case ReceivedProposalPart(_, _) => Imports(chain, el, el')
    case GetValue(_, _, build, payload) =>
      if s.latestBlock.None? then Imports(chain, el, el')
      else
        && ForkchoiceCall(chain, el, ForkchoiceFor(s.latestBlock.value.blockHash),
                          Some(AttributesFor(s.latestBlock.value)), build, mid)
        && (if build.Some? && build.value.payloadId.Some?
            then GetPayloadCall(chain, mid, build.value.payloadId.value, payload, el')
            else Imports(chain, mid, el'))
    case Decided(certificate, status, head) =>
      var found := DecidedBlock(cfg, s, certificate);
      if found.None? || cfg.blobHashes(found.value.1).None? then Imports(chain, el, el')
      else
        && NewPayloadCall(chain, el, found.value.1, status, mid)
        && (if status.None? || status.value.status == Invalid then Imports(chain, mid, el')
            else ForkchoiceCall(chain, mid, ForkchoiceFor(found.value.1.blockHash), None, head, el'))
  }

  // ----------------------------------------------------- a node with its client

  datatype Pair = Pair(p: Progress, el: El)
  datatype Move = Move(event: Event, mid: El, after: El)

  ghost function Apply(cfg: Config, pair: Pair, move: Move): Pair {
    if pair.p.halted then pair else Pair(Advance(cfg, pair.p, move.event), move.after)
  }

  ghost predicate Served(chain: Chain, cfg: Config, pair: Pair, move: Move) {
    pair.p.halted ||
    (Allowed(pair.p, move.event) && Serves(chain, cfg, pair.p.node, move.event, pair.el, move.mid, move.after))
  }

  ghost function Reach(cfg: Config, start: Pair, moves: seq<Move>): Pair {
    if moves == [] then start
    else Apply(cfg, Reach(cfg, start, moves[..|moves| - 1]), moves[|moves| - 1])
  }

  ghost predicate ServedRun(chain: Chain, cfg: Config, start: Pair, moves: seq<Move>) {
    forall i :: 0 <= i < |moves| ==> Served(chain, cfg, Reach(cfg, start, moves[..i]), moves[i])
  }

  lemma ServedPrefix(chain: Chain, cfg: Config, start: Pair, moves: seq<Move>)
    requires ServedRun(chain, cfg, start, moves) && moves != []
    ensures ServedRun(chain, cfg, start, moves[..|moves| - 1])
    ensures Served(chain, cfg, Reach(cfg, start, moves[..|moves| - 1]), moves[|moves| - 1])
  {
    var earlier := moves[..|moves| - 1];
    forall i | 0 <= i < |earlier| ensures Served(chain, cfg, Reach(cfg, start, earlier[..i]), earlier[i]) {
      assert earlier[..i] == moves[..i];
    }
  }

  // -------------------------------------------------------------- simulation

  /** The hash at the tip of what has been adopted on top of the start block. */
  function Tip(start: Hash, decided: seq<Decision>): Hash {
    if decided == [] then start else decided[|decided| - 1].block.blockHash
  }

  /** Each adopted block names its predecessor as its parent, back to the start block. */
  ghost predicate Linked(start: Hash, decided: seq<Decision>) {
    forall i :: 0 <= i < |decided| ==> decided[i].block.parentHash == Tip(start, decided[..i])
  }

  lemma LinkNext(start: Hash, decided: seq<Decision>, d: Decision)
    requires Linked(start, decided) && d.block.parentHash == Tip(start, decided)
    ensures Linked(start, decided + [d])
  {
    forall i | 0 <= i <= |decided| ensures (decided + [d])[..i] == decided[..i] {}
    assert decided[..|decided|] == decided;
  }

  /** The node's latest block is the client's head, up to the parent hash it records. */
  ghost predicate SameBlock(latest: ExecutionBlock, head: Payload) {
    && latest.blockHash == head.blockHash && latest.blockNumber == head.blockNumber
    && latest.timestamp == head.timestamp && latest.prevRandao == head.prevRandao
  }

  predicate Unified(pointers: ForkchoiceState) {
    pointers.head == pointers.safe == pointers.finalized
  }

  ghost predicate Simulates(chain: Chain, start: Payload, pair: Pair) {
    && WellFormedEl(chain, pair.el)
    && Linked(start.blockHash, pair.p.decided)
    && (!pair.p.halted ==>
          var head := pair.el.blocks[pair.el.pointers.head];
          && pair.el.pointers.head == Tip(start.blockHash, pair.p.decided)
          && head.blockNumber == start.blockNumber + |pair.p.decided|
          && (pair.p.node.latestBlock.Some? ==> SameBlock(pair.p.node.latestBlock.value, head))
          && (pair.p.decided != [] ==> head == pair.p.decided[|pair.p.decided| - 1].block && Unified(pair.el.pointers)))
  }

  /** Asking for a block never moves the head, whatever the reply; when it succeeds,
      head, safe and finalized all name it. */
  lemma GetValueKeepsHead(chain: Chain, cfg: Config, start: Payload, pair: Pair, move: Move)
    requires Simulates(chain, start, pair) && !pair.p.halted && move.event.GetValue?
    requires Served(chain, cfg, pair, move)
    ensures move.after.pointers.head == pair.el.pointers.head
    ensures Step(cfg, pair.p.node, move.event).1.Done? ==> Unified(move.after.pointers)
    ensures Unified(pair.el.pointers) ==> Unified(move.after.pointers)
    ensures WellFormedEl(chain, move.after)
    ensures move.after.blocks[move.after.pointers.head] == pair.el.blocks[pair.el.pointers.head]
  {
    ProposeOutcomes(cfg, pair.p.node, move.event);
  }

  lemma SameHashSameBlock(chain: Chain, el: El, block: Payload)
    requires HashesBind(chain) && WellFormedEl(chain, el) && chain.authentic(block) && block.blockHash in el.blocks
    ensures el.blocks[block.blockHash] == block
  {
    assert chain.authentic(el.blocks[block.blockHash]);
  }

  lemma ChildOfKnown(chain: Chain, el: El, block: Payload)
    requires WellFormedEl(chain, el) && block.parentHash in el.blocks
    requires block.blockHash in el.blocks && el.blocks[block.blockHash] == block
    ensures Follows(block, el.blocks[block.parentHash])
  {
    assert block != chain.genesis;
  }

  /** A decision that is carried through has a block on top of the latest one, which
      the client did not find invalid, and a VALID forkchoice reply. */
  lemma CarriedThrough(cfg: Config, s: NodeState, event: Event)
    requires event.Decided? && Step(cfg, s, event).1.Done?
    ensures var found := DecidedBlock(cfg, s, event.certificate);
            && found.Some? && found.value.1 == DecisionOf(cfg, s, event.certificate).block
            && s.latestBlock.Some? && s.latestBlock.value.blockHash == found.value.1.parentHash
            && cfg.blobHashes(found.value.1).Some?
    ensures event.status.Some? && event.status.value.status != Invalid
    ensures SetLatestForkchoiceState(event.head).Done?
  {
    DecideOutcomes(cfg, s, event.certificate, event.status, event.head);
  }

  /** The two calls of a decision that is carried through, seen by the client. */
  lemma DecisionCalls(chain: Chain, el: El, mid: El, el': El, block: Payload,
                      status: NewPayloadReply, head: ForkchoiceReply)
    requires HashesBind(chain) && WellFormedEl(chain, el) && block.parentHash == el.pointers.head
    requires NewPayloadCall(chain, el, block, status, mid)
    requires ForkchoiceCall(chain, mid, ForkchoiceFor(block.blockHash), None, head, el')
    requires status.Some? && status.value.status != Invalid && SetLatestForkchoiceState(head).Done?
    ensures head.Some? && head.value.payloadStatus.status == Valid
    ensures el'.pointers == ForkchoiceFor(block.blockHash) && WellFormedEl(chain, el')
    ensures el'.blocks[block.blockHash] == block && Follows(block, el.blocks[el.pointers.head])
  {
    SameHashSameBlock(chain, el', block);
    ChildOfKnown(chain, el', block);
  }

  /** A decision that is carried through makes its block the head, which is a validated
      block one above the old one; this takes a VALID forkchoice reply. */
  lemma DecidedMovesHead(chain: Chain, cfg: Config, start: Payload, pair: Pair, move: Move)
    requires HashesBind(chain) && Simulates(chain, start, pair) && !pair.p.halted && move.event.Decided?
    requires Served(chain, cfg, pair, move)
    requires Step(cfg, pair.p.node, move.event).1.Done?
    ensures var d := DecisionOf(cfg, pair.p.node, move.event.certificate);
            && move.event.head.Some? && move.event.head.value.payloadStatus.status == Valid
            && move.after.pointers == ForkchoiceFor(d.block.blockHash)
            && WellFormedEl(chain, move.after)
            && move.after.blocks[d.block.blockHash] == d.block
            && Follows(d.block, pair.el.blocks[pair.el.pointers.head])
  {
    var event := move.event;
    CarriedThrough(cfg, pair.p.node, event);
    DecisionCalls(chain, pair.el, move.mid, move.after, DecisionOf(cfg, pair.p.node, event.certificate).block,
                  event.status, event.head);
  }

  lemma OtherEventsKeepSimulation(chain: Chain, cfg: Config, start: Payload, pair: Pair, move: Move)
    requires Simulates(chain, start, pair) && !pair.p.halted && Served(chain, cfg, pair, move)
    requires !move.event.Decided? && !move.event.GetValue?
    ensures Simulates(chain, start, Apply(cfg, pair, move))
  {
    if move.event.ReceivedProposalPart? {
      ReceiveOutcomes(cfg, pair.p.node, move.event.from, move.event.part);
    }
  }

  lemma DecidedKeepsSimulation(chain: Chain, cfg: Config, start: Payload, pair: Pair, move: Move)
    requires HashesBind(chain) && Simulates(chain, start, pair) && !pair.p.halted
    requires Served(chain, cfg, pair, move) && move.event.Decided?
    ensures Simulates(chain, start, Apply(cfg, pair, move))
  {
    var event := move.event;
    DecideOutcomes(cfg, pair.p.node, event.certificate, event.status, event.head);
    if Step(cfg, pair.p.node, event).1.Done? {
      DecidedMovesHead(chain, cfg, start, pair, move);
      LinkNext(start.blockHash, pair.p.decided, DecisionOf(cfg, pair.p.node, event.certificate));
    }
  }

  lemma ApplyKeepsSimulation(chain: Chain, cfg: Config, start: Payload, pair: Pair, move: Move)
    requires HashesBind(chain) && Simulates(chain, start, pair) && Served(chain, cfg, pair, move)
    ensures Simulates(chain, start, Apply(cfg, pair, move))
  {
    if !pair.p.halted {
      if move.event.GetValue? {
        GetValueKeepsHead(chain, cfg, start, pair, move);
        ProposeOutcomes(cfg, pair.p.node, move.event);
      } else if move.event.Decided? {
        DecidedKeepsSimulation(chain, cfg, start, pair, move);
      } else {
        OtherEventsKeepSimulation(chain, cfg, start, pair, move);
      }
    }
  }

  /** The client before the node starts: its head is the start block. */
  ghost predicate StartsAt(chain: Chain, h0: Height, start: Payload, pair: Pair) {
    && pair.p == Begin(h0)
    && WellFormedEl(chain, pair.el)
    && pair.el.blocks[pair.el.pointers.head] == start
  }

  /** In every run of a node with a client that keeps the Engine API's rules: while the
      node runs, the client's head is the node's latest block, the blocks adopted form
      one hash-linked chain from the start block to that head, each one number above
      the last, and head, safe and finalized coincide once a block has been adopted. */
  lemma {:induction false} RunSimulates(chain: Chain, cfg: Config, h0: Height, start: Payload,
                                        first: Pair, moves: seq<Move>)
    requires HashesBind(chain) && StartsAt(chain, h0, start, first) && ServedRun(chain, cfg, first, moves)
    ensures Simulates(chain, start, Reach(cfg, first, moves))
  {
    if moves != [] {
      var n := |moves| - 1;
      ServedPrefix(chain, cfg, first, moves);
      RunSimulates(chain, cfg, h0, start, first, moves[..n]);
      ApplyKeepsSimulation(chain, cfg, start, Reach(cfg, first, moves[..n]), moves[n]);
    }
  }

  // ---------------------------------------------------------------- lockstep

  function EventsOf(moves: seq<Move>): seq<Event> {
    seq(|moves|, i requires 0 <= i < |moves| => moves[i].event)
  }

  lemma {:induction false} NodeOfReach(cfg: Config, start: Pair, moves: seq<Move>)
    ensures Reach(cfg, start, moves).p == After(cfg, start.p, EventsOf(moves))
  {
    if moves != [] {
      var n := |moves| - 1;
      NodeOfReach(cfg, start, moves[..n]);
      assert EventsOf(moves)[..n] == EventsOf(moves[..n]);
    }
  }

  lemma EventsOfPrefix(moves: seq<Move>, n: nat)
    requires n <= |moves|
    ensures EventsOf(moves)[..n] == EventsOf(moves[..n])
  {
  }

  /** A served run is allowed, up to what happens after the node has stopped. */
  lemma ServedMoveIsAllowed(chain: Chain, cfg: Config, start: Pair, moves: seq<Move>, i: nat)
    requires ServedRun(chain, cfg, start, moves) && !Reach(cfg, start, moves).p.halted && i < |moves|
    ensures Allowed(After(cfg, start.p, EventsOf(moves)[..i]), EventsOf(moves)[i])
  {
    EventsOfPrefix(moves, i);
    NodeOfReach(cfg, start, moves[..i]);
    HaltedStays(cfg, start, moves, i);
    assert Served(chain, cfg, Reach(cfg, start, moves[..i]), moves[i]);
  }

  lemma ServedRunIsAllowed(chain: Chain, cfg: Config, start: Pair, moves: seq<Move>)
    requires ServedRun(chain, cfg, start, moves) && !Reach(cfg, start, moves).p.halted
    ensures AllowedRun(cfg, start.p, EventsOf(moves))
  {
    var events := EventsOf(moves);
    forall i | 0 <= i < |events| ensures Allowed(After(cfg, start.p, events[..i]), events[i]) {
      ServedMoveIsAllowed(chain, cfg, start, moves, i);
    }
  }

  lemma {:induction false} HaltedStays(cfg: Config, start: Pair, moves: seq<Move>, i: nat)
    requires i <= |moves|
    ensures Reach(cfg, start, moves[..i]).p.halted ==> Reach(cfg, start, moves).p.halted
    decreases |moves|
  {
    if i < |moves| {
      var n := |moves| - 1;
      assert moves[..n][..i] == moves[..i];
      HaltedStays(cfg, start, moves[..n], i);
    } else {
      assert moves[..i] == moves;
    }
  }

  /** When every proposal is stored in its round, block numbers and heights advance
      together: one block and one height for each decision carried through. */
  lemma HeightsAndNumbersInLockstep(chain: Chain, cfg: Config, h0: Height, start: Payload,
                                    first: Pair, moves: seq<Move>)
    requires HashesBind(chain) && StartsAt(chain, h0, start, first) && ServedRun(chain, cfg, first, moves)
    requires RunInItsRound(cfg, Begin(h0), EventsOf(moves))
    ensures var pair := Reach(cfg, first, moves);
            !pair.p.halted && pair.p.node.latestBlock.Some? ==>
              && pair.p.node.latestBlock.value.blockNumber - start.blockNumber == pair.p.node.currentHeight - h0
              && pair.p.node.latestBlock.value.blockHash == pair.el.pointers.head
              && |pair.p.decided| == pair.p.node.currentHeight - h0
  {
    var pair := Reach(cfg, first, moves);
    RunSimulates(chain, cfg, h0, start, first, moves);
    NodeOfReach(cfg, first, moves);
    if !pair.p.halted {
      ServedRunIsAllowed(chain, cfg, first, moves);
      RunRecordsWhatItExecutes(cfg, h0, EventsOf(moves));
    }
  }
}
