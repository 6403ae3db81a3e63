/** The application as it runs: a mutable state driven by the event loop, each
    method proved against the state machine of module Node. */
module App {
  import opened Types
  import opened Streaming
  import opened ProposalStream
  import opened RoundTrip
  import opened Store
  import opened Engine
  import opened Node
  import opened NodeRuns

  class State {
    const cfg: Config
    const store: Db
    const streamsMap: PartStreamsMap

    var currentHeight: Height
    var currentRound: Round
    var currentProposer: Option<Address>
    var latestBlock: Option<ExecutionBlock>
    var streamNonce: u32
    var txsCount: nat
    var chainBytes: nat

    ghost predicate Valid()
      reads streamsMap, streamsMap.Repr
    {
      && this !in streamsMap.Repr && store !in streamsMap.Repr
      && streamsMap.Valid()
    }

    ghost function View(): NodeState
      reads this, store, streamsMap
    {
      NodeState(currentHeight, currentRound, currentProposer, latestBlock,
                streamsMap.view, streamNonce, store.View(), txsCount, chainBytes)
    }

    constructor (cfg: Config, height: Height)
      ensures Valid() && View() == InitialState(height) && this.cfg == cfg
      ensures currentHeight == height && currentRound == At(0) && latestBlock.None? && streamNonce == 0
      ensures fresh(store) && fresh(streamsMap) && fresh(streamsMap.Repr)
    {
      this.cfg := cfg;
      store := new Db();
      streamsMap := new PartStreamsMap();
      currentHeight, currentRound, currentProposer := height, At(0), None;
      latestBlock, streamNonce, txsCount, chainBytes := None, 0, 0, 0;
    }

    /** Stores a reassembled proposal unless it is outdated or does not verify. */
    method AcceptParts(p: ProposalParts) returns (result: Outcome<Option<ProposedValue>>)
      modifies store
      ensures (View(), result) == AcceptProposal(cfg, old(View()), p)
      ensures p.height < currentHeight || !Authenticated(cfg.crypto, cfg.validators, p) ==>
                View() == old(View()) && result == Done(None)
      ensures p.height >= currentHeight && Authenticated(cfg.crypto, cfg.validators, p) && !p.round.Nil? ==>
                result == Done(Some(ValueIn(cfg.crypto, p)))
    {
      AcceptAnswers(cfg, View(), p);
      if p.height < currentHeight {
        return Done(None);
      }
      var verification := VerifyProposalSignature(cfg.crypto, cfg.validators, p);
      if verification != Verified {
        return Done(None);
      }
      var value, data := AssembleValueFromParts(cfg.crypto, p);
      var ok := store.StoreUndecidedProposal(value);
      if !ok {
        return Stopped(Error);
      }
      store.StoreUndecidedBlock(currentHeight, currentRound, data);
      result := Done(Some(value));
    }

    method ReceivedProposalPart(from: PeerId, part: StreamMessage) returns (result: Outcome<Option<ProposedValue>>)
      requires Valid()
      modifies store, streamsMap, streamsMap.Repr
      ensures Valid() && (forall o :: o in streamsMap.Repr ==> o in old(streamsMap.Repr) || fresh(o))
      ensures (View(), result) == ReceivePart(cfg, old(View()), from, part)
    {
      var reply := streamsMap.Insert(from, part);
      match reply {
        case Pending => result := Done(None);
        case Overflow => result := Stopped(Panic);
        case Complete(p) => result := AcceptParts(p);
      }
    }

    method GetEarliestHeight() returns (height: Height)
      ensures height == EarliestHeight(View().store)
      ensures store.decidedValues == map[] ==> height == 1
      ensures store.decidedValues != map[] ==>
                height in store.decidedValues && forall h :: h in store.decidedValues ==> height <= h
    {
      var min := store.MinDecidedHeight();
      height := if min.Some? then min.value else 1;
    }

    /** Records a decided value and its block, prunes, and moves to the next height. */
    method Commit(certificate: CommitCertificate) returns (result: Outcome<()>)
      modifies this`currentHeight, this`currentRound, store
      ensures (View(), result) == Node.Commit(old(View()), certificate)
    {
      var key := (certificate.height, certificate.round);
      if key !in store.undecidedProposals {
        return Done(());
      }
      var ok := store.StoreDecidedValue(certificate, store.undecidedProposals[key].value);
      if !ok {
        return Stopped(Error);
      }
      var data := store.FindBlockData(certificate.height, certificate.round);
      if data.Some? {
        store.StoreDecidedBlock(certificate.height, data.value);
      }
      var pruned := store.PruneBelow(SaturatingSub(certificate.height, 5));
      if currentHeight + 1 >= U64_LIMIT {
        return Stopped(Panic);
      }
      currentHeight := currentHeight + 1;
      currentRound := At(0);
      result := Done(());
    }

    method ProposeValue(height: Height, round: Round, data: Bytes) returns (result: Outcome<Value>)
      modifies store
      ensures (View(), result) == Node.ProposeValue(cfg, old(View()), height, round, data)
    {
      if height != currentHeight || round != currentRound {
        return Stopped(Panic);
      }
      var value := NewValue(cfg.crypto, data);
      var ok := store.StoreUndecidedProposal(ProposedValue(height, round, Nil, cfg.address, value, true));
      result := if ok then Done(value) else Stopped(Error);
    }

    method NextStreamId() returns (id: Outcome<StreamId>)
      modifies this`streamNonce
      ensures id.Stopped? ==> View() == old(View())
      ensures id.Stopped? <==> currentRound.Nil? || old(streamNonce) + 1 >= U32_LIMIT
      ensures id.Stopped? ==> id.reason == Panic
      ensures id.Done? ==>
                && id.value == StreamIdOf(currentHeight, currentRound.number, old(streamNonce))
                && View() == old(View()).(streamNonce := old(streamNonce) + 1)
    {
      if currentRound.Nil? {
        return Stopped(Panic);
      }
      var bytes := BigEndian(8, currentHeight);
      bytes := bytes + BigEndian(4, currentRound.number);
      bytes := bytes + BigEndian(4, streamNonce);
      if streamNonce + 1 >= U32_LIMIT {
        return Stopped(Panic);
      }
      streamNonce := streamNonce + 1;
      id := Done(bytes);
    }

    /** Numbers the parts of a proposal and closes the stream with the end mark; fails
        when the checked sequence number does not fit 64 bits. */
    method NumberParts(id: StreamId, parts: seq<ProposalPart>) returns (messages: Option<seq<StreamMessage>>)
      ensures messages.None? <==> |StreamContents(parts)| > U64_LIMIT
      ensures messages.Some? ==> messages.value == Numbered(id, StreamContents(parts))
    {
      ghost var contents := StreamContents(parts);
      var msgs: seq<StreamMessage> := [];
      var sequence := 0;
      while sequence < |parts|
        invariant 0 <= sequence <= |parts| && sequence < U64_LIMIT
        invariant msgs == Numbered(id, contents[..sequence])
      {
        if sequence + 1 >= U64_LIMIT {
          return None;
        }
        NumberedNext(id, contents[..sequence + 1], sequence);
        assert contents[..sequence + 1][..sequence] == contents[..sequence];
        assert contents[..sequence + 1][..sequence + 1] == contents[..sequence + 1];
        msgs := msgs + [StreamMessage(id, sequence, PartContent(parts[sequence]))];
        sequence := sequence + 1;
      }
      NumberedNext(id, contents, sequence);
      assert contents[..sequence + 1] == contents;
      messages := Some(msgs + [StreamMessage(id, sequence, EndOfStream)]);
    }

    method StreamProposal(height: Height, round: Round, data: Bytes) returns (result: Outcome<seq<StreamMessage>>)
      modifies this`streamNonce
      ensures (View(), result) == Node.StreamProposal(cfg, old(View()), height, round, data)
    {
      var parts := MakeProposalParts(cfg.crypto, cfg.key, cfg.address, height, round, data);
      var id := NextStreamId();
      if id.Stopped? {
        return Stopped(id.reason);
      }
      var messages := NumberParts(id.value, parts);
      result := if messages.Some? then Done(messages.value) else Stopped(Panic);
    }

    /** Builds a block on the latest one, records it as this node's proposal and streams it. */
    method OnGetValue(height: Height, round: Round, build: ForkchoiceReply, payload: GetPayloadReply)
      returns (answer: Outcome<Answer>)
      modifies this, store
      ensures (View(), answer) == Propose(cfg, old(View()), height, round, build, payload)
    {
      if latestBlock.None? {
        return Stopped(Panic);
      }
      var block := GenerateBlock(latestBlock.value, build, payload);
      if block.Stopped? {
        return Stopped(block.reason);
      }
      var data := cfg.encode(block.value);
      var proposed := ProposeValue(height, round, data);
      if proposed.Stopped? {
        return Stopped(proposed.reason);
      }
      store.StoreUndecidedBlock(currentHeight, currentRound, data);
      var streamed := StreamProposal(height, round, data);
      if streamed.Stopped? {
        return Stopped(streamed.reason);
      }
      answer := Done(Proposed(height, round, proposed.value, streamed.value));
    }

    /** Looks up the decided block and checks that it extends the latest one. */
    method FindDecidedBlock(certificate: CommitCertificate) returns (found: Option<(Bytes, Payload)>)
      ensures found == DecidedBlock(cfg, View(), certificate)
      ensures found.Some? ==>
                && GetBlockData(store.View(), certificate.height, certificate.round) == Some(found.value.0)
                && cfg.decode(found.value.0) == Some(found.value.1)
                && latestBlock.Some? && latestBlock.value.blockHash == found.value.1.parentHash
    {
      var data := store.FindBlockData(certificate.height, certificate.round);
      if data.None? {
        return None;
      }
      var block := cfg.decode(data.value);
      if block.None? || latestBlock.None? || latestBlock.value.blockHash != block.value.parentHash {
        return None;
      }
      found := Some((data.value, block.value));
    }

    /** Hands the decided block to the execution client, then commits it. */
    method OnDecided(certificate: CommitCertificate, status: NewPayloadReply, head: ForkchoiceReply)
      returns (answer: Outcome<Answer>)
      modifies this, store
      ensures (View(), answer) == Decide(cfg, old(View()), certificate, status, head)
    {
      var found := FindDecidedBlock(certificate);
      if found.None? {
        return Stopped(Panic);
      }
      var (data, block) := found.value;
      txsCount := txsCount + |block.transactions|;
      chainBytes := chainBytes + |data|;
      if cfg.blobHashes(block).None? {
        return Stopped(Panic);
      }
      if status.None? || status.value.status == Invalid {
        return Stopped(Error);
      }
      var latestValid := SetLatestForkchoiceState(head);
      if latestValid.Stopped? {
        return Stopped(latestValid.reason);
      }
      assert View() == Counted(old(View()), data, block);
      var committed := Commit(certificate);
      if committed.Stopped? {
        return Stopped(committed.reason);
      }
      latestBlock := Some(ExecutionBlock(block.blockHash, block.blockNumber, latestValid.value,
                                         block.timestamp, block.prevRandao));
      answer := Done(StartHeight(currentHeight));
    }

    method OnConsensusReady(capabilities: Option<Capabilities>, latest: Option<Option<ExecutionBlock>>)
      returns (answer: Outcome<Answer>)
      modifies this`latestBlock
      ensures (View(), answer) == Step(cfg, old(View()), ConsensusReady(capabilities, latest))
      ensures answer.Done? <==>
                && capabilities == Some(Capabilities(true, true, true))
                && latest.Some? && latest.value.Some?
      ensures answer.Done? ==> latestBlock == latest.value && answer.value == StartHeight(currentHeight)
      ensures answer.Stopped? ==> latestBlock == old(latestBlock)
    {
      var capable := CheckCapabilities(capabilities);
      if capable.Stopped? {
        return Stopped(capable.reason);
      }
      var block := LatestBlock(latest);
      if block.Stopped? {
        return Stopped(block.reason);
      }
      latestBlock := Some(block.value);
      answer := Done(StartHeight(currentHeight));
    }

    method OnStartedRound(height: Height, round: Round, proposer: Address) returns (answer: Outcome<Answer>)
      modifies this`currentHeight, this`currentRound, this`currentProposer
      ensures (View(), answer) == Step(cfg, old(View()), StartedRound(height, round, proposer))
      ensures currentHeight == height && currentRound == round && currentProposer == Some(proposer)
    {
      currentHeight := height;
      currentRound := round;
      currentProposer := Some(proposer);
      answer := Done(Nothing);
    }

    method OnReceivedProposalPart(from: PeerId, part: StreamMessage) returns (answer: Outcome<Answer>)
      requires Valid()
      modifies store, streamsMap, streamsMap.Repr
      ensures Valid() && (forall o :: o in streamsMap.Repr ==> o in old(streamsMap.Repr) || fresh(o))
      ensures (View(), answer) == Step(cfg, old(View()), Event.ReceivedProposalPart(from, part))
    {
      ReceivedStep(cfg, View(), from, part);
      var received := ReceivedProposalPart(from, part);
      answer := if received.Done? then Done(Reassembled(received.value)) else Stopped(received.reason);
    }

    method Handle(event: Event) returns (answer: Outcome<Answer>)
      requires Valid()
      modifies this, store, streamsMap, streamsMap.Repr
      ensures Valid() && (forall o :: o in streamsMap.Repr ==> o in old(streamsMap.Repr) || fresh(o))
      ensures (View(), answer) == Step(cfg, old(View()), event)
    {
      match event {
        case ConsensusReady(capabilities, latest) =>
          answer := OnConsensusReady(capabilities, latest);
        case StartedRound(height, round, proposer) =>
          answer := OnStartedRound(height, round, proposer);
        case GetValue(height, round, build, payload) =>
          answer := OnGetValue(height, round, build, payload);
        case ReceivedProposalPart(from, part) =>
          answer := OnReceivedProposalPart(from, part);
        case Decided(certificate, status, head) =>
          answer := OnDecided(certificate, status, head);
      }
    }

    /** The event loop: it takes messages in order until one stops the node, and ends with
        an error when there are no more. Where it ends is where the run of the node ends. */
    method Run(events: seq<Event>) returns (reason: StopReason)
      requires Valid()
      modifies this, store, streamsMap, streamsMap.Repr
      ensures Valid() && (forall o :: o in streamsMap.Repr ==> o in old(streamsMap.Repr) || fresh(o))
      ensures View() == After(cfg, From(old(View())), events).node
      ensures EndsBecause(cfg, From(old(View())), events, reason)
    {
      ghost var start := From(View());
      var taken := 0;
      StartsThere(cfg, start, events);
      while taken < |events|
        invariant 0 <= taken <= |events|
        invariant Valid() && (forall o :: o in streamsMap.Repr ==> o in old(streamsMap.Repr) || fresh(o))
        invariant !After(cfg, start, events[..taken]).halted
        invariant View() == After(cfg, start, events[..taken]).node
      {
        TakesNext(cfg, start, events, taken);
        var answer := Handle(events[taken]);
        if answer.Stopped? {
          StoppedThere(cfg, start, events, taken, answer.reason);
          return answer.reason;
        }
        taken := taken + 1;
      }
      assert events[..taken] == events;
      reason := Error;
    }
  }

  lemma StartsThere(cfg: Config, start: Progress, events: seq<Event>)
    ensures After(cfg, start, events[..0]) == start
  {
    assert events[..0] == [];
  }

  lemma TakesNext(cfg: Config, start: Progress, events: seq<Event>, taken: nat)
    requires taken < |events|
    ensures After(cfg, start, events[..taken + 1]) == Advance(cfg, After(cfg, start, events[..taken]), events[taken])
  {
    assert events[..taken + 1] == events[..taken] + [events[taken]];
    AfterNext(cfg, start, events[..taken], events[taken]);
  }

  lemma StoppedThere(cfg: Config, start: Progress, events: seq<Event>, taken: nat, reason: StopReason)
    requires taken < |events| && StopsAt(cfg, After(cfg, start, events[..taken]), events[taken], reason)
    ensures After(cfg, start, events).node == Step(cfg, After(cfg, start, events[..taken]).node, events[taken]).0
    ensures EndsBecause(cfg, start, events, reason)
  {
    TakesNext(cfg, start, events, taken);
    HaltedForGood(cfg, start, events, taken + 1);
  }
}
