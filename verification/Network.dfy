/** Several nodes, each with its own execution client, connected by a network that may
    reorder, repeat, interleave and lose messages, when every proposal is built by a
    node of the network through its own client. */
module Network {
  import opened Types
  import opened Streaming
  import opened ProposalStream
  import opened Engine
  import opened Node
  import opened NodeRuns
  import opened TableAgreement
  import opened ExecutionClient
  import opened Agreement

  /** The nodes' world, the chain their clients follow and its start block. */
  datatype Setup = Setup(world: World, chain: Chain, start: Payload)

  ghost predicate SetupOk(setup: Setup) {
    && WorldOk(setup.world)
    && HashesBind(setup.chain)
    && (forall n, p :: n in setup.world.cfg ==>
          setup.world.cfg[n].decode(setup.world.cfg[n].encode(p)) == Some(p))
  }

  /** The nodes with their clients, and the block signed so far for each (height, round). */
  datatype Net = Net(pairs: map<NodeId, Pair>, proposals: map<RoundKey, Bytes>)

  /** The signed blocks after a move: a node that builds a block signs it. */
  ghost function Signed(proposals: map<RoundKey, Bytes>, cfg: Config, pair: Pair, event: Event): map<RoundKey, Bytes> {
    var block := BuiltBlock(pair.p.node, event);
    if pair.p.halted || block.None? then proposals
    else proposals[(event.height, event.round) := cfg.encode(block.value)]
  }

  /** Each (height, round) is asked for a value at most once, and what is received was
      signed by then. */
  ghost predicate Permitted(setup: Setup, proposals: map<RoundKey, Bytes>, cfg: Config, pair: Pair, move: Move) {
    && Served(setup.chain, cfg, pair, move)
    && (!pair.p.halted ==>
          && (BuiltBlock(pair.p.node, move.event).Some? ==> (move.event.height, move.event.round) !in proposals)
          && Sound(setup.world, Signed(proposals, cfg, pair, move.event), cfg, pair.p.node, move.event)
          && KeepsSlot(cfg, pair.p.node, move.event))
  }

  ghost function Proceed(setup: Setup, net: Net, n: NodeId, move: Move): Net
    requires n in setup.world.cfg && n in net.pairs
  {
    Net(net.pairs[n := Apply(setup.world.cfg[n], net.pairs[n], move)],
        Signed(net.proposals, setup.world.cfg[n], net.pairs[n], move.event))
  }

  // --------------------------------------------------------------- invariant

  ghost predicate Extends(proposals: map<RoundKey, Bytes>, signed: map<RoundKey, Bytes>) {
    forall k :: k in proposals ==> k in signed && signed[k] == proposals[k]
  }

  /** A block for height h decodes to a payload whose timestamp is h - h0 + 1 above that
      of the start block, with the start block's randomness. */
  ghost predicate OnSchedule(setup: Setup, cfg: Config, k: RoundKey, data: Bytes) {
    && setup.world.h0 <= k.0
    && cfg.decode(data).Some?
    && cfg.decode(data).value.timestamp == setup.start.timestamp + (k.0 - setup.world.h0) + 1
    && cfg.decode(data).value.prevRandao == setup.start.prevRandao
  }

  ghost predicate AllOnSchedule(setup: Setup, cfg: Config, proposals: map<RoundKey, Bytes>) {
    forall k :: k in proposals ==> OnSchedule(setup, cfg, k, proposals[k])
  }

  /** A running node's client is one time unit past the start block for each height passed. */
  ghost predicate OnTime(setup: Setup, pair: Pair) {
    && |pair.p.decided| == pair.p.node.currentHeight - setup.world.h0
    && pair.el.pointers.head in pair.el.blocks
    && pair.el.blocks[pair.el.pointers.head].timestamp == setup.start.timestamp + |pair.p.decided|
    && pair.el.blocks[pair.el.pointers.head].prevRandao == setup.start.prevRandao
  }

  ghost predicate NodeOk(setup: Setup, proposals: map<RoundKey, Bytes>, cfg: Config, pair: Pair) {
    && Faithful(setup.world, proposals, cfg, pair.p)
    && Simulates(setup.chain, setup.start, pair)
    && (!pair.p.halted ==> OnTime(setup, pair))
  }

  ghost predicate PlaceOk(setup: Setup, net: Net, n: NodeId)
    requires n in setup.world.cfg && n in net.pairs
  {
    && AllOnSchedule(setup, setup.world.cfg[n], net.proposals)
    && NodeOk(setup, net.proposals, setup.world.cfg[n], net.pairs[n])
  }

  ghost predicate NetOk(setup: Setup, net: Net) {
    && net.pairs.Keys == setup.world.cfg.Keys
    && forall n {:trigger PlaceOk(setup, net, n)} :: n in setup.world.cfg ==> PlaceOk(setup, net, n)
  }

  // ------------------------------------------------------------ one move, one node

  lemma SignedExtends(setup: Setup, proposals: map<RoundKey, Bytes>, cfg: Config, pair: Pair, move: Move)
    requires Permitted(setup, proposals, cfg, pair, move)
    ensures Extends(proposals, Signed(proposals, cfg, pair, move.event))
  {
  }

  lemma HistoryExtends(world: World, proposals: map<RoundKey, Bytes>, signed: map<RoundKey, Bytes>,
                       cfg: Config, decided: seq<Decision>)
    requires HistoryOk(world, proposals, cfg, decided) && Extends(proposals, signed)
    ensures HistoryOk(world, signed, cfg, decided)
  {
    forall i | 0 <= i < |decided| ensures ExecutedSigned(world, signed, cfg, decided[i]) {
      assert ExecutedSigned(world, proposals, cfg, decided[i]);
    }
  }

  lemma FaithfulExtends(world: World, proposals: map<RoundKey, Bytes>, signed: map<RoundKey, Bytes>,
                        cfg: Config, p: Progress)
    requires Faithful(world, proposals, cfg, p) && Extends(proposals, signed)
    ensures Faithful(world, signed, cfg, p)
  {
    HistoryExtends(world, proposals, signed, cfg, p.decided);
  }

  /** A block that a node has its client build is one time unit above the latest one,
      on top of it, with the same randomness. */
  lemma BuiltOnLatest(chain: Chain, cfg: Config, pair: Pair, move: Move)
    requires !pair.p.halted && Served(chain, cfg, pair, move)
    requires BuiltBlock(pair.p.node, move.event).Some?
    ensures var block := BuiltBlock(pair.p.node, move.event).value;
            var latest := pair.p.node.latestBlock.value;
            && block.timestamp == latest.timestamp + 1
            && block.prevRandao == latest.prevRandao
            && block.parentHash == latest.blockHash
  {
  }

  lemma BuiltOnSchedule(setup: Setup, cfg: Config, pair: Pair, move: Move)
    requires !pair.p.halted && Served(setup.chain, cfg, pair, move)
    requires Simulates(setup.chain, setup.start, pair) && OnTime(setup, pair)
    requires TablesInvariant(setup.world.h0, pair.p)
    requires BuiltBlock(pair.p.node, move.event).Some?
    ensures var block := BuiltBlock(pair.p.node, move.event).value;
            && setup.world.h0 <= move.event.height
            && block.timestamp == setup.start.timestamp + (move.event.height - setup.world.h0) + 1
            && block.prevRandao == setup.start.prevRandao
  {
    BuiltOnLatest(setup.chain, cfg, pair, move);
  }

  /** The block that a decision executes is on schedule. */
  lemma DecisionOnSchedule(setup: Setup, proposals: map<RoundKey, Bytes>, cfg: Config, pair: Pair, move: Move)
    requires SetupOk(setup) && NodeOk(setup, proposals, cfg, pair) && AllOnSchedule(setup, cfg, proposals)
    requires Permitted(setup, proposals, cfg, pair, move)
    requires !pair.p.halted && move.event.Decided? && Step(cfg, pair.p.node, move.event).1.Done?
    ensures var d := DecisionOf(cfg, pair.p.node, move.event.certificate);
            && d.block.timestamp == setup.start.timestamp + (d.height - setup.world.h0) + 1
            && d.block.prevRandao == setup.start.prevRandao
  {
    DecisionExecutesSigned(setup.world, proposals, cfg, pair.p, move.event);
    var d := DecisionOf(cfg, pair.p.node, move.event.certificate);
    assert OnSchedule(setup, cfg, SlotAt(setup.world, d.height), proposals[SlotAt(setup.world, d.height)]);
  }

  lemma DecisionKeepsTime(setup: Setup, proposals: map<RoundKey, Bytes>, cfg: Config, pair: Pair, move: Move)
    requires SetupOk(setup) && NodeOk(setup, proposals, cfg, pair) && AllOnSchedule(setup, cfg, proposals)
    requires Permitted(setup, proposals, cfg, pair, move)
    requires !pair.p.halted && move.event.Decided? && Step(cfg, pair.p.node, move.event).1.Done?
    ensures OnTime(setup, Apply(cfg, pair, move))
  {
    DecisionOnSchedule(setup, proposals, cfg, pair, move);
    DecisionExecutesSigned(setup.world, proposals, cfg, pair.p, move.event);
    DecidedMovesHead(setup.chain, cfg, setup.start, pair, move);
  }

  lemma OtherMovesKeepTime(setup: Setup, proposals: map<RoundKey, Bytes>, cfg: Config, pair: Pair, move: Move)
    requires NodeOk(setup, proposals, cfg, pair) && Permitted(setup, proposals, cfg, pair, move)
    requires !pair.p.halted && !move.event.Decided? && Step(cfg, pair.p.node, move.event).1.Done?
    ensures OnTime(setup, Apply(cfg, pair, move))
  {
    HeightOnlyMovesOnDecisions(cfg, setup.world.h0, pair.p, move.event);
    if move.event.GetValue? {
      GetValueKeepsHead(setup.chain, cfg, setup.start, pair, move);
    }
  }

  lemma MoverStaysOnTime(setup: Setup, proposals: map<RoundKey, Bytes>, cfg: Config, pair: Pair, move: Move)
    requires SetupOk(setup) && NodeOk(setup, proposals, cfg, pair) && AllOnSchedule(setup, cfg, proposals)
    requires Permitted(setup, proposals, cfg, pair, move) && !pair.p.halted
    ensures !Apply(cfg, pair, move).p.halted ==> OnTime(setup, Apply(cfg, pair, move))
  {
    if Step(cfg, pair.p.node, move.event).1.Done? {
      if move.event.Decided? {
        DecisionKeepsTime(setup, proposals, cfg, pair, move);
      } else {
        OtherMovesKeepTime(setup, proposals, cfg, pair, move);
      }
    }
  }

  lemma MoverStaysFaithful(setup: Setup, proposals: map<RoundKey, Bytes>, cfg: Config, pair: Pair, move: Move)
    requires SetupOk(setup) && Faithful(setup.world, proposals, cfg, pair.p)
    requires Permitted(setup, proposals, cfg, pair, move)
    ensures Faithful(setup.world, Signed(proposals, cfg, pair, move.event), cfg, Apply(cfg, pair, move).p)
  {
    if !pair.p.halted {
      var signed := Signed(proposals, cfg, pair, move.event);
      SignedExtends(setup, proposals, cfg, pair, move);
      FaithfulExtends(setup.world, proposals, signed, cfg, pair.p);
      AdvanceKeepsFaithful(setup.world, signed, cfg, pair.p, move.event);
    }
  }

  lemma MoverStaysOk(setup: Setup, proposals: map<RoundKey, Bytes>, cfg: Config, pair: Pair, move: Move)
    requires SetupOk(setup) && NodeOk(setup, proposals, cfg, pair) && AllOnSchedule(setup, cfg, proposals)
    requires Permitted(setup, proposals, cfg, pair, move)
    ensures NodeOk(setup, Signed(proposals, cfg, pair, move.event), cfg, Apply(cfg, pair, move))
  {
    if !pair.p.halted {
      MoverStaysFaithful(setup, proposals, cfg, pair, move);
      ApplyKeepsSimulation(setup.chain, cfg, setup.start, pair, move);
      MoverStaysOnTime(setup, proposals, cfg, pair, move);
    }
  }

  lemma ScheduleUpdate(setup: Setup, cfg: Config, proposals: map<RoundKey, Bytes>, k: RoundKey, data: Bytes)
    requires AllOnSchedule(setup, cfg, proposals) && OnSchedule(setup, cfg, k, data)
    ensures AllOnSchedule(setup, cfg, proposals[k := data])
  {
  }

  /** A block signed by one node is on schedule for every node. */
  lemma ScheduleStaysOk(setup: Setup, proposals: map<RoundKey, Bytes>, n: NodeId, pair: Pair, move: Move, m: NodeId)
    requires SetupOk(setup) && n in setup.world.cfg && m in setup.world.cfg
    requires Permitted(setup, proposals, setup.world.cfg[n], pair, move)
    requires AllOnSchedule(setup, setup.world.cfg[m], proposals)
    requires Simulates(setup.chain, setup.start, pair) && TablesInvariant(setup.world.h0, pair.p)
    requires !pair.p.halted ==> OnTime(setup, pair)
    ensures AllOnSchedule(setup, setup.world.cfg[m], Signed(proposals, setup.world.cfg[n], pair, move.event))
  {
    if !pair.p.halted && BuiltBlock(pair.p.node, move.event).Some? {
      var world := setup.world;
      var block := BuiltBlock(pair.p.node, move.event).value;
      var data := world.cfg[n].encode(block);
      BuiltOnSchedule(setup, world.cfg[n], pair, move);
      assert world.cfg[n].decode(data) == Some(block);
      assert world.cfg[m].decode(data) == Some(block);
      ScheduleUpdate(setup, world.cfg[m], proposals, (move.event.height, move.event.round), data);
    }
  }

  lemma MoverAfter(setup: Setup, net: Net, n: NodeId, move: Move)
    requires SetupOk(setup) && n in setup.world.cfg && n in net.pairs && PlaceOk(setup, net, n)
    requires Permitted(setup, net.proposals, setup.world.cfg[n], net.pairs[n], move)
    ensures PlaceOk(setup, Proceed(setup, net, n, move), n)
  {
    ScheduleStaysOk(setup, net.proposals, n, net.pairs[n], move, n);
    MoverStaysOk(setup, net.proposals, setup.world.cfg[n], net.pairs[n], move);
  }

  lemma BystanderAfter(setup: Setup, net: Net, n: NodeId, move: Move, m: NodeId)
    requires SetupOk(setup) && n in setup.world.cfg && n in net.pairs && PlaceOk(setup, net, n)
    requires m in setup.world.cfg && m in net.pairs && PlaceOk(setup, net, m)
    requires Permitted(setup, net.proposals, setup.world.cfg[n], net.pairs[n], move)
    ensures m != n ==> PlaceOk(setup, Proceed(setup, net, n, move), m)
  {
    ScheduleStaysOk(setup, net.proposals, n, net.pairs[n], move, m);
    SignedExtends(setup, net.proposals, setup.world.cfg[n], net.pairs[n], move);
    FaithfulExtends(setup.world, net.proposals, Proceed(setup, net, n, move).proposals,
                    setup.world.cfg[m], net.pairs[m].p);
  }

  lemma PlaceAfter(setup: Setup, net: Net, n: NodeId, move: Move, m: NodeId)
    requires SetupOk(setup) && NetOk(setup, net) && n in setup.world.cfg && m in setup.world.cfg
    requires Permitted(setup, net.proposals, setup.world.cfg[n], net.pairs[n], move)
    ensures m != n ==> PlaceOk(setup, Proceed(setup, net, n, move), m)
  {
    assert PlaceOk(setup, net, n) && PlaceOk(setup, net, m);
    BystanderAfter(setup, net, n, move, m);
  }

  lemma ProceedKeepsNetOk(setup: Setup, net: Net, n: NodeId, move: Move)
    requires SetupOk(setup) && NetOk(setup, net) && n in setup.world.cfg
    requires Permitted(setup, net.proposals, setup.world.cfg[n], net.pairs[n], move)
    ensures NetOk(setup, Proceed(setup, net, n, move))
  {
    assert Proceed(setup, net, n, move).pairs.Keys == setup.world.cfg.Keys;
    assert PlaceOk(setup, net, n);
    MoverAfter(setup, net, n, move);
    forall m | m in setup.world.cfg {
      PlaceAfter(setup, net, n, move, m);
    }
  }

  // -------------------------------------------------------------------- runs

  type NetMove = (NodeId, Move)

  /** The network after a sequence of moves, each of which was permitted. */
  ghost predicate Reaches(setup: Setup, first: Net, moves: seq<NetMove>, last: Net)
    decreases |moves|
  {
    if moves == [] then last == first
    else
      var (n, move) := moves[0];
      && n in setup.world.cfg && n in first.pairs
      && Permitted(setup, first.proposals, setup.world.cfg[n], first.pairs[n], move)
      && Reaches(setup, Proceed(setup, first, n, move), moves[1..], last)
  }

  ghost predicate Initial(setup: Setup, net: Net) {
    && net.proposals == map[]
    && net.pairs.Keys == setup.world.cfg.Keys
    && forall n :: n in net.pairs ==> StartsAt(setup.chain, setup.world.h0, setup.start, net.pairs[n])
  }

  lemma BeginIsOk(setup: Setup, proposals: map<RoundKey, Bytes>, cfg: Config, pair: Pair)
    requires StartsAt(setup.chain, setup.world.h0, setup.start, pair)
    ensures NodeOk(setup, proposals, cfg, pair)
  {
    BeginIsFaithful(setup.world, proposals, cfg);
  }

  lemma InitialIsOk(setup: Setup, net: Net)
    requires SetupOk(setup) && Initial(setup, net)
    ensures NetOk(setup, net)
  {
    forall n | n in setup.world.cfg ensures PlaceOk(setup, net, n) {
      BeginIsOk(setup, net.proposals, setup.world.cfg[n], net.pairs[n]);
    }
  }

  lemma {:induction false} ReachableIsOk(setup: Setup, first: Net, moves: seq<NetMove>, last: Net)
    requires SetupOk(setup) && NetOk(setup, first) && Reaches(setup, first, moves, last)
    ensures NetOk(setup, last)
    decreases |moves|
  {
    if moves != [] {
      var (n, move) := moves[0];
      ProceedKeepsNetOk(setup, first, n, move);
      ReachableIsOk(setup, Proceed(setup, first, n, move), moves[1..], last);
    }
  }

  /** Every running node that knows its latest block is, for each height it has passed,
      one block number and one time unit above the start block. */
  lemma ClocksInLockstep(setup: Setup, first: Net, moves: seq<NetMove>, last: Net, n: NodeId)
    requires SetupOk(setup) && Initial(setup, first) && Reaches(setup, first, moves, last)
    requires n in last.pairs && !last.pairs[n].p.halted && last.pairs[n].p.node.latestBlock.Some?
    ensures var s := last.pairs[n].p.node;
            var latest := s.latestBlock.value;
            && latest.blockNumber - setup.start.blockNumber == s.currentHeight - setup.world.h0
            && latest.timestamp - setup.start.timestamp == s.currentHeight - setup.world.h0
            && latest.prevRandao == setup.start.prevRandao
  {
    InitialIsOk(setup, first);
    ReachableIsOk(setup, first, moves, last);
    assert PlaceOk(setup, last, n);
  }

  // --------------------------------------- such a run is a run of the group

  function GroupOf(net: Net): Group {
    map n | n in net.pairs :: net.pairs[n].p
  }

  function EventsAt(moves: seq<NetMove>): seq<GroupEvent> {
    seq(|moves|, i requires 0 <= i < |moves| => (moves[i].0, moves[i].1.event))
  }

  lemma WasSignedExtends(proposals: map<RoundKey, Bytes>, signed: map<RoundKey, Bytes>, p: ProposalParts)
    requires WasSigned(proposals, p) && Extends(proposals, signed)
    ensures WasSigned(signed, p)
  {
    var k :| k in proposals && HashedBytes(p.parts) == Header(k.0, k.1) + proposals[k];
    assert HashedBytes(p.parts) == Header(k.0, k.1) + signed[k];
  }

  lemma SoundExtends(world: World, proposals: map<RoundKey, Bytes>, signed: map<RoundKey, Bytes>,
                       cfg: Config, s: NodeState, event: Event)
    requires Sound(world, proposals, cfg, s, event) && Extends(proposals, signed)
    ensures Sound(world, signed, cfg, s, event)
  {
    if event.ReceivedProposalPart? {
      var reply := Receive(s.streams, event.from, event.part).1;
      if reply.Complete? && Accepts(cfg, reply.parts) {
        WasSignedExtends(proposals, signed, reply.parts);
      }
    }
  }

  lemma ProceedIsArrival(setup: Setup, net: Net, n: NodeId, move: Move)
    requires n in setup.world.cfg && n in net.pairs
    ensures GroupOf(Proceed(setup, net, n, move)) == Arrive(setup.world, GroupOf(net), n, move.event)
  {
  }

  lemma PermittedMayReach(setup: Setup, net: Net, n: NodeId, move: Move, signed: map<RoundKey, Bytes>)
    requires n in setup.world.cfg && n in net.pairs
    requires Permitted(setup, net.proposals, setup.world.cfg[n], net.pairs[n], move)
    requires Extends(Proceed(setup, net, n, move).proposals, signed)
    ensures MayReach(setup.world, signed, Guarded, GroupOf(net), n, move.event)
  {
    if !net.pairs[n].p.halted {
      SoundExtends(setup.world, Proceed(setup, net, n, move).proposals, signed,
                     setup.world.cfg[n], net.pairs[n].p.node, move.event);
    }
  }

  lemma {:induction false} ProposalsOnlyGrow(setup: Setup, first: Net, moves: seq<NetMove>, last: Net)
    requires Reaches(setup, first, moves, last)
    ensures Extends(first.proposals, last.proposals)
    decreases |moves|
  {
    if moves != [] {
      var (n, move) := moves[0];
      SignedExtends(setup, first.proposals, setup.world.cfg[n], first.pairs[n], move);
      ProposalsOnlyGrow(setup, Proceed(setup, first, n, move), moves[1..], last);
    }
  }

  /** Every run of the network is a run of its nodes as a group, for the blocks signed
      by its end, so that all that holds of such runs holds of it. */
  lemma {:induction false} NetworkRunIsGroupRun(setup: Setup, first: Net, moves: seq<NetMove>, last: Net,
                                                signed: map<RoundKey, Bytes>)
    requires Reaches(setup, first, moves, last) && Extends(last.proposals, signed)
    ensures RunsTo(setup.world, signed, Guarded, GroupOf(first), EventsAt(moves), GroupOf(last))
    decreases |moves|
  {
    if moves != [] {
      var (n, move) := moves[0];
      var next := Proceed(setup, first, n, move);
      NetworkRunIsGroupRun(setup, next, moves[1..], last, signed);
      ProposalsOnlyGrow(setup, next, moves[1..], last);
      PermittedMayReach(setup, first, n, move, signed);
      ProceedIsArrival(setup, first, n, move);
      assert EventsAt(moves)[1..] == EventsAt(moves[1..]);
    }
  }
}
