/** Specification of the application as a state machine: one step for each message
    that consensus sends. Replies of the execution client are part of the message. */
module Node {
  import opened Types
  import opened Streaming
  import opened ProposalStream
  import opened RoundTrip
  import opened Store
  import opened Engine

  /** What a node is configured with. `encode`, `decode` and `blobHashes` stand for the
      SSZ codec of payloads and the conversion of a payload to a block. */
  datatype Config = Config(
    crypto: Crypto,
    key: PrivateKey,
    address: Address,
    validators: seq<Validator>,
    encode: Payload -> Bytes,
    decode: Bytes -> Option<Payload>,
    blobHashes: Payload -> Option<seq<Hash>>)

  datatype NodeState = NodeState(
    currentHeight: Height,
    currentRound: Round,
    currentProposer: Option<Address>,
    latestBlock: Option<ExecutionBlock>,
    streams: map<StreamKey, StreamView>,
    streamNonce: u32,
    store: Tables,
    txsCount: nat,
    chainBytes: nat)

  datatype Event =
    | ConsensusReady(capabilities: Option<Capabilities>, latest: Option<Option<ExecutionBlock>>)
    | StartedRound(height: Height, round: Round, proposer: Address)
    | GetValue(height: Height, round: Round, build: ForkchoiceReply, payload: GetPayloadReply)
    | ReceivedProposalPart(from: PeerId, part: StreamMessage)
    | Decided(certificate: CommitCertificate, status: NewPayloadReply, head: ForkchoiceReply)

  datatype Answer =
    | Nothing
    | StartHeight(height: Height)
    | Proposed(height: Height, round: Round, value: Value, messages: seq<StreamMessage>)
    | Reassembled(proposal: Option<ProposedValue>)

  function InitialState(height: Height): NodeState {
    NodeState(height, At(0), None, None, map[], 0, EMPTY_TABLES, 0, 0)
  }

  // -------------------------------------------------------- receiving a proposal

  ghost function AcceptProposal(cfg: Config, s: NodeState, p: ProposalParts)
    : (NodeState, Outcome<Option<ProposedValue>>)
  {
    if p.height < s.currentHeight || Verify(cfg.crypto, cfg.validators, p) != Verified then (s, Done(None))
    else if p.round.Nil? then (s, Stopped(Error))
    else
      var value := Assemble(cfg.crypto, p);
      var stored := InsertUndecidedProposal(s.store, value);
      (s.(store := InsertUndecidedBlock(stored, s.currentHeight, s.currentRound, DataOf(p.parts))),
       Done(Some(value)))
  }

  ghost function ReceivePart(cfg: Config, s: NodeState, from: PeerId, msg: StreamMessage)
    : (NodeState, Outcome<Option<ProposedValue>>)
  {
    var (streams, reply) := Receive(s.streams, from, msg);
    var s' := s.(streams := streams);
    match reply
    case Pending => (s', Done(None))
    case Overflow => (s', Stopped(Panic))
    case Complete(p) => AcceptProposal(cfg, s', p)
  }

  // ------------------------------------------------------------------ committing

  function SaturatingSub(h: Height, n: nat): Height {
    if h < n then 0 else h - n
  }

  /** The table contents after each transaction of a commit, in order. */
  function CommitTransactions(t: Tables, value: Value, certificate: CommitCertificate): seq<Tables> {
    var h := certificate.height;
    var t1 := InsertDecidedValue(t, value, certificate);
    var data := GetBlockData(t1, h, certificate.round);
    var t2 := if data.Some? then InsertDecidedBlock(t1, h, data.value) else t1;
    [t1, t2, Prune(t2, SaturatingSub(h, 5))]
  }

  function Commit(s: NodeState, certificate: CommitCertificate): (NodeState, Outcome<()>) {
    var key := (certificate.height, certificate.round);
    if key !in s.store.undecidedProposals then (s, Done(()))
    else if certificate.round.Nil? then (s, Stopped(Error))
    else
      var value := s.store.undecidedProposals[key].value;
      var s' := s.(store := CommitTransactions(s.store, value, certificate)[2]);
      if s.currentHeight + 1 >= U64_LIMIT then (s', Stopped(Panic))
      else (s'.(currentHeight := s.currentHeight + 1, currentRound := At(0)), Done(()))
  }

  // ------------------------------------------------------------------- proposing

  function ProposeValue(cfg: Config, s: NodeState, height: Height, round: Round, data: Bytes)
    : (NodeState, Outcome<Value>)
  {
    if height != s.currentHeight || round != s.currentRound then (s, Stopped(Panic))
    else if round.Nil? then (s, Stopped(Error))
    else
      var value := NewValue(cfg.crypto, data);
      var proposal := ProposedValue(height, round, Nil, cfg.address, value, true);
      (s.(store := InsertUndecidedProposal(s.store, proposal)), Done(value))
  }

  function StreamProposal(cfg: Config, s: NodeState, height: Height, round: Round, data: Bytes)
    : (NodeState, Outcome<seq<StreamMessage>>)
  {
    var contents := BlockContents(cfg.crypto, cfg.key, cfg.address, height, round, data);
    if s.currentRound.Nil? || s.streamNonce + 1 >= U32_LIMIT then (s, Stopped(Panic))
    else
      var s' := s.(streamNonce := s.streamNonce + 1);
      if |contents| > U64_LIMIT then (s', Stopped(Panic))
      else (s', Done(Numbered(StreamIdOf(s.currentHeight, s.currentRound.number, s.streamNonce), contents)))
  }

  function Propose(cfg: Config, s: NodeState, height: Height, round: Round,
                   build: ForkchoiceReply, payload: GetPayloadReply): (NodeState, Outcome<Answer>)
  {
    if s.latestBlock.None? then (s, Stopped(Panic))
    else match GenerateBlock(s.latestBlock.value, build, payload)
      case Stopped(reason) => (s, Stopped(reason))
      case Done(block) =>
        var data := cfg.encode(block);
        var (s1, proposed) := ProposeValue(cfg, s, height, round, data);
        match proposed
        case Stopped(reason) => (s1, Stopped(reason))
        case Done(value) =>
          var s2 := s1.(store := InsertUndecidedBlock(s1.store, s1.currentHeight, s1.currentRound, data));
          var (s3, streamed) := StreamProposal(cfg, s2, height, round, data);
          match streamed
          case Stopped(reason) => (s3, Stopped(reason))
          case Done(messages) => (s3, Done(Proposed(height, round, value, messages)))
  }

  // -------------------------------------------------------------------- deciding

  /** The block that a decision refers to, with its encoded form, if it can be used. */
  function DecidedBlock(cfg: Config, s: NodeState, certificate: CommitCertificate): Option<(Bytes, Payload)> {
    match GetBlockData(s.store, certificate.height, certificate.round)
    case None => None
    case Some(data) =>
      match cfg.decode(data)
      case None => None
      case Some(block) =>
        if s.latestBlock.None? || s.latestBlock.value.blockHash != block.parentHash then None
        else Some((data, block))
  }

  function Counted(s: NodeState, data: Bytes, block: Payload): NodeState {
    s.(txsCount := s.txsCount + |block.transactions|, chainBytes := s.chainBytes + |data|)
  }

  function Decide(cfg: Config, s: NodeState, certificate: CommitCertificate,
                  status: NewPayloadReply, head: ForkchoiceReply): (NodeState, Outcome<Answer>)
  {
    match DecidedBlock(cfg, s, certificate)
    case None => (s, Stopped(Panic))
    case Some((data, block)) =>
      var s1 := Counted(s, data, block);
      if cfg.blobHashes(block).None? then (s1, Stopped(Panic))
      else if status.None? || status.value.status == Invalid then (s1, Stopped(Error))
      else match SetLatestForkchoiceState(head)
        case Stopped(reason) => (s1, Stopped(reason))
        case Done(latestValid) =>
          var (s2, committed) := Commit(s1, certificate);
          match committed
          case Stopped(reason) => (s2, Stopped(reason))
          case Done(_) =>
            var latest := ExecutionBlock(block.blockHash, block.blockNumber, latestValid,
                                         block.timestamp, block.prevRandao);
            (s2.(latestBlock := Some(latest)), Done(StartHeight(s2.currentHeight)))
  }

  // ------------------------------------------------------------------ every step

  ghost function Step(cfg: Config, s: NodeState, event: Event): (NodeState, Outcome<Answer>) {
    match event
    case ConsensusReady(capabilities, latest) =>
      (match CheckCapabilities(capabilities)
       case Stopped(reason) => (s, Stopped(reason))
       case Done(_) =>
         match LatestBlock(latest)
         case Stopped(reason) => (s, Stopped(reason))
         case Done(block) => (s.(latestBlock := Some(block)), Done(StartHeight(s.currentHeight))))
    case StartedRound(height, round, proposer) =>
      (s.(currentHeight := height, currentRound := round, currentProposer := Some(proposer)), Done(Nothing))
    case GetValue(height, round, build, payload) => Propose(cfg, s, height, round, build, payload)
    case ReceivedProposalPart(from, part) =>
      var (s', received) := ReceivePart(cfg, s, from, part);
      (match received
       case Stopped(reason) => (s', Stopped(reason))
       case Done(proposal) => (s', Done(Reassembled(proposal))))
    case Decided(certificate, status, head) => Decide(cfg, s, certificate, status, head)
  }

  lemma ReceivedStep(cfg: Config, s: NodeState, from: PeerId, part: StreamMessage)
    ensures var (s', received) := ReceivePart(cfg, s, from, part);
            Step(cfg, s, ReceivedProposalPart(from, part)) ==
            (s', if received.Done? then Done(Reassembled(received.value)) else Stopped(received.reason))
  {
  }
}
