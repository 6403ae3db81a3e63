/** From the node that proposes to the node that receives: what the receiver hands
    to consensus, and why no two streams of a node can be confused. */
module EndToEnd {
  import opened Types
  import opened Streaming
  import opened StreamingProperties
  import opened ProposalStream
  import opened RoundTrip
  import opened Engine
  import opened Node
  import opened NodeRuns
  import Codec

  function ContentsFor(cfg: Config, height: Height, round: Round, block: Payload): seq<StreamContent> {
    BlockContents(cfg.crypto, cfg.key, cfg.address, height, round, cfg.encode(block))
  }

  /** What a node publishes is the numbered stream of the block it built and recorded,
      under an identifier made of the slot and a counter that it then raises. */
  lemma ProposedStream(cfg: Config, s: NodeState, event: Event)
    requires event.GetValue? && Step(cfg, s, event).1.Done?
    ensures var block := BuiltBlock(s, event);
            var contents := ContentsFor(cfg, event.height, event.round, block.value);
            && block.Some? && !event.round.Nil? && |contents| <= U64_LIMIT
            && Step(cfg, s, event).1.value ==
               Proposed(event.height, event.round, NewValue(cfg.crypto, cfg.encode(block.value)),
                        Numbered(StreamIdOf(event.height, event.round.number, s.streamNonce), contents))
            && Step(cfg, s, event).0.streamNonce == s.streamNonce + 1
  {
  }

  /** The reply to the last message of a run is the reply of its stream to its last message. */
  lemma LastReply(trace: seq<Delivery>, key: StreamKey)
    requires trace != [] && KeyOf(trace[|trace| - 1]) == key
    ensures var n := |trace| - 1;
            var replies := RepliesFor(trace, Run(map[], trace).1, key);
            && replies != []
            && replies[|replies| - 1] == Receive(Run(map[], trace[..n]).0, trace[n].0, trace[n].1).1
  {
  }

  /** `trace` ends with the message that completes the stream `id` from `peer`: its
      messages are those of `contents`, in any order and number, and the last is the
      first arrival of the only one that was missing. */
  ghost predicate EndsComplete(trace: seq<Delivery>, peer: PeerId, id: StreamId,
                               contents: seq<StreamContent>, arrivals: seq<u64>)
  {
    && trace != [] && KeyOf(trace[|trace| - 1]) == (peer, id)
    && arrivals != [] && (forall k :: k in arrivals ==> k < |contents|)
    && MessagesFor(trace, (peer, id)) == Messages(id, contents, arrivals)
    && AllArrived(contents, arrivals) && !AllArrived(contents, arrivals[..|arrivals| - 1])
  }

  lemma CompletedReply(crypto: Crypto, key: PrivateKey, address: Address, validators: seq<Validator>,
                       height: Height, round: Round, data: Bytes,
                       trace: seq<Delivery>, peer: PeerId, id: StreamId, arrivals: seq<u64>)
    requires SignaturesVerify(crypto) && |data| <= MAX_BUFFER
    requires GetByAddress(validators, address).Some?
    requires GetByAddress(validators, address).value.publicKey == crypto.publicKey(key)
    requires EndsComplete(trace, peer, id, BlockContents(crypto, key, address, height, round, data), arrivals)
    ensures var n := |trace| - 1;
            var reply := Receive(Run(map[], trace[..n]).0, trace[n].0, trace[n].1).1;
            reply.Complete? && CarriesBlock(crypto, validators, reply.parts, height, round, address, data)
  {
    var contents := BlockContents(crypto, key, address, height, round, data);
    var replies := RepliesFor(trace, Run(map[], trace).1, (peer, id));
    var last := |arrivals| - 1;
    BlockRoundTrip(crypto, key, address, validators, height, round, data, peer, id, arrivals, trace);
    LastReply(trace, (peer, id));
    assert arrivals[..last + 1] == arrivals;
    assert replies[last] == ExpectedReply(contents, arrivals, last);
  }

  lemma AcceptedValue(cfg: Config, s: NodeState, from: PeerId, msg: StreamMessage,
                      height: Height, round: Round, address: Address, data: Bytes)
    requires var reply := Receive(s.streams, from, msg).1;
             reply.Complete? && CarriesBlock(cfg.crypto, cfg.validators, reply.parts, height, round, address, data)
    requires s.currentHeight <= height && !round.Nil?
    ensures Step(cfg, s, ReceivedProposalPart(from, msg)).1 ==
            Done(Reassembled(Some(ProposedValue(height, round, Nil, address, NewValue(cfg.crypto, data), true))))
  {
  }

  /** The value that one node's consensus is given to propose is the value that
      another node hands to its consensus when the last missing message of the stream
      arrives, whatever else has arrived before and in whatever order. */
  lemma ProposalTravels(sender: Config, s: NodeState, event: Event, receiver: Config, r: NodeState,
                        peer: PeerId, trace: seq<Delivery>, arrivals: seq<u64>)
    requires event.GetValue? && Step(sender, s, event).1.Done?
    requires SignaturesVerify(sender.crypto) && receiver.crypto == sender.crypto
    requires GetByAddress(receiver.validators, sender.address).Some?
    requires GetByAddress(receiver.validators, sender.address).value.publicKey == sender.crypto.publicKey(sender.key)
    requires var block := BuiltBlock(s, event);
             && block.Some? && |sender.encode(block.value)| <= MAX_BUFFER
             && EndsComplete(trace, peer, StreamIdOf(event.height, event.round.number, s.streamNonce),
                             ContentsFor(sender, event.height, event.round, block.value), arrivals)
    requires r.streams == Run(map[], trace[..|trace| - 1]).0 && r.currentHeight <= event.height
    ensures var proposed := Step(sender, s, event).1.value;
            var (from, msg) := trace[|trace| - 1];
            && proposed.Proposed?
            && msg in proposed.messages
            && Step(receiver, r, ReceivedProposalPart(from, msg)).1 ==
               Done(Reassembled(Some(
                 ProposedValue(event.height, event.round, Nil, sender.address, proposed.value, true))))
  {
    var data := sender.encode(BuiltBlock(s, event).value);
    var id := StreamIdOf(event.height, event.round.number, s.streamNonce);
    var contents := ContentsFor(sender, event.height, event.round, BuiltBlock(s, event).value);
    var (from, msg) := trace[|trace| - 1];
    ProposedStream(sender, s, event);
    CompletedReply(sender.crypto, sender.key, sender.address, receiver.validators, event.height, event.round, data,
                   trace, peer, id, arrivals);
    AcceptedValue(receiver, r, from, msg, event.height, event.round, sender.address, data);
    LastIsPublished(trace, peer, id, contents, arrivals);
  }

  lemma LastIsPublished(trace: seq<Delivery>, peer: PeerId, id: StreamId,
                        contents: seq<StreamContent>, arrivals: seq<u64>)
    requires EndsComplete(trace, peer, id, contents, arrivals) && |contents| <= U64_LIMIT
    ensures trace[|trace| - 1].1 in Numbered(id, contents)
  {
    var own := MessagesFor(trace, (peer, id));
    var k := arrivals[|arrivals| - 1];
    assert k in arrivals;
    assert own == Messages(id, contents, arrivals);
    assert trace[|trace| - 1].1 == own[|own| - 1];
    assert own[|own| - 1] == StreamMessage(id, k, contents[k]) == Numbered(id, contents)[k];
  }

  // ------------------------------------------------------ parts from the wire

  /** No Init that a stream remembers names an absent round. */
  ghost predicate RoundsPresent(streams: map<StreamKey, StreamView>) {
    forall k :: k in streams ==> RoundPresent(streams[k])
  }

  ghost predicate RoundPresent(v: StreamView) {
    v.initInfo.Some? ==> !v.initInfo.value.round.Nil?
  }

  lemma ReceiveKeepsRound(v: StreamView, msg: StreamMessage)
    requires RoundPresent(v)
    requires AsInit(msg.content).Some? ==> !AsInit(msg.content).value.round.Nil?
    ensures var (v', reply) := StreamReceive(v, msg.sequence, msg.content);
            RoundPresent(v') && (reply.Complete? ==> !reply.parts.round.Nil?)
  {
  }

  /** A node that receives only messages decoded from the wire stops on none of them but
      an end-of-stream mark numbered 2^64 - 1: what it reassembles can always be stored. */
  lemma DecodedPartsNeverStop(cfg: Config, s: NodeState, from: PeerId, wire: Codec.Wire, p: Codec.StreamMessageProto)
    requires RoundsPresent(s.streams) && Codec.DecodeStreamMessage(wire, p).Some?
    ensures var msg := Codec.DecodeStreamMessage(wire, p).value;
            var (s', outcome) := ReceivePart(cfg, s, from, msg);
            && RoundsPresent(s'.streams)
            && (outcome.Stopped? ==> msg.content.EndOfStream? && msg.sequence == U64_LIMIT - 1)
  {
    var msg := Codec.DecodeStreamMessage(wire, p).value;
    var key := (from, msg.streamId);
    Codec.DecodedInitHasRound(wire, p);
    ReceiveTouchesOneStream(s.streams, from, msg);
    ReceiveKeepsRound(Lookup(s.streams, key), msg);
    ReceiveOutcomes(cfg, s, from, msg);
  }

  // ---------------------------------------------------- identifiers of streams

  lemma ProposeRaisesNonce(cfg: Config, s: NodeState, event: Event)
    requires event.GetValue?
    ensures s.streamNonce <= Step(cfg, s, event).0.streamNonce
  {
  }

  lemma DecideKeepsNonce(cfg: Config, s: NodeState, event: Event)
    requires event.Decided?
    ensures s.streamNonce == Step(cfg, s, event).0.streamNonce
  {
  }

  lemma ReceiveKeepsNonce(cfg: Config, s: NodeState, event: Event)
    requires event.ReceivedProposalPart?
    ensures s.streamNonce == Step(cfg, s, event).0.streamNonce
  {
  }

  lemma NonceGrows(cfg: Config, p: Progress, event: Event)
    ensures p.node.streamNonce <= Advance(cfg, p, event).node.streamNonce
  {
    match event {
      case ConsensusReady(_, _) =>
      case StartedRound(_, _, _) =>
      case GetValue(_, _, _, _) => ProposeRaisesNonce(cfg, p.node, event);
      case ReceivedProposalPart(_, _) => ReceiveKeepsNonce(cfg, p.node, event);
      case Decided(_, _, _) => DecideKeepsNonce(cfg, p.node, event);
    }
  }

  lemma NonceGrowsAtLast(cfg: Config, start: Progress, events: seq<Event>)
    requires events != []
    ensures After(cfg, start, events[..|events| - 1]).node.streamNonce <= After(cfg, start, events).node.streamNonce
  {
    var n := |events| - 1;
    NonceGrows(cfg, After(cfg, start, events[..n]), events[n]);
  }

  lemma {:induction false} NonceGrowsOverRun(cfg: Config, start: Progress, events: seq<Event>, i: nat)
    requires i <= |events|
    ensures After(cfg, start, events[..i]).node.streamNonce <= After(cfg, start, events).node.streamNonce
    decreases |events|
  {
    if i < |events| {
      var n := |events| - 1;
      assert events[..n][..i] == events[..i];
      NonceGrowsOverRun(cfg, start, events[..n], i);
      NonceGrowsAtLast(cfg, start, events);
    } else {
      assert events[..i] == events;
    }
  }

  /** A proposal is made at the i-th event of a run. */
  ghost predicate ProposesAt(cfg: Config, start: Progress, events: seq<Event>, i: nat)
    requires i < |events|
  {
    var p := After(cfg, start, events[..i]);
    events[i].GetValue? && !p.halted && !events[i].round.Nil? && Step(cfg, p.node, events[i]).1.Done?
  }

  ghost function StreamAt(cfg: Config, start: Progress, events: seq<Event>, i: nat): StreamId
    requires i < |events| && ProposesAt(cfg, start, events, i)
  {
    StreamIdOf(events[i].height, events[i].round.number, After(cfg, start, events[..i]).node.streamNonce)
  }

  /** Over a whole run, no two proposals of a node go out under the same stream
      identifier, even for the same height and round. */
  lemma StreamsNeverReused(cfg: Config, start: Progress, events: seq<Event>, i: nat, j: nat)
    requires i < j < |events| && ProposesAt(cfg, start, events, i) && ProposesAt(cfg, start, events, j)
    ensures StreamAt(cfg, start, events, i) != StreamAt(cfg, start, events, j)
  {
    var p := After(cfg, start, events[..i]);
    ProposedStream(cfg, p.node, events[i]);
    assert events[..i + 1][..i] == events[..i];
    assert After(cfg, start, events[..i + 1]).node.streamNonce == p.node.streamNonce + 1;
    assert events[..j][..i + 1] == events[..i + 1];
    NonceGrowsOverRun(cfg, start, events[..j], i + 1);
    if StreamAt(cfg, start, events, i) == StreamAt(cfg, start, events, j) {
      StreamIdInjective(events[i].height, events[i].round.number, p.node.streamNonce,
                        events[j].height, events[j].round.number, After(cfg, start, events[..j]).node.streamNonce);
    }
  }
}
