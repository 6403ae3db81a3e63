/** Streaming a block and reassembling it gives the block back, whatever the
    network does to the order and the number of the messages. */
module RoundTrip {
  import opened Types
  import opened Streaming
  import opened StreamingProperties
  import opened ProposalStream

  /** What the messages of a stream carry: the parts, then the end mark. */
  function StreamContents(parts: seq<ProposalPart>): seq<StreamContent> {
    seq(|parts|, i requires 0 <= i < |parts| => PartContent(parts[i])) + [EndOfStream]
  }

  function Numbered(streamId: StreamId, contents: seq<StreamContent>): seq<StreamMessage>
    requires |contents| <= U64_LIMIT
  {
    seq(|contents|, i requires 0 <= i < |contents| => StreamMessage(streamId, i, contents[i]))
  }

  lemma NumberedNext(streamId: StreamId, contents: seq<StreamContent>, n: nat)
    requires n < |contents| <= U64_LIMIT
    ensures Numbered(streamId, contents[..n + 1]) ==
            Numbered(streamId, contents[..n]) + [StreamMessage(streamId, n, contents[n])]
  {
    assert contents[..n + 1] == contents[..n] + [contents[n]];
  }

  lemma {:induction false} SentPartsOfContents(parts: seq<ProposalPart>)
    ensures SentParts(StreamContents(parts)) == parts
  {
    var contents := StreamContents(parts);
    if parts == [] {
      assert contents[1..] == [];
      assert PartOf(contents[0]) == [];
    } else {
      assert contents[1..] == StreamContents(parts[1..]);
      SentPartsOfContents(parts[1..]);
      assert parts == [parts[0]] + parts[1..];
    }
  }

  /** The stream a node opens for a block. */
  function BlockContents(crypto: Crypto, key: PrivateKey, address: Address,
                         height: Height, round: Round, data: Bytes): seq<StreamContent>
  {
    StreamContents(ProposalPartsFor(crypto, key, address, height, round, data))
  }

  lemma BlockStreamWellFormed(crypto: Crypto, key: PrivateKey, address: Address,
                              height: Height, round: Round, data: Bytes)
    requires |data| <= MAX_BUFFER
    ensures var contents := BlockContents(crypto, key, address, height, round, data);
            && WellFormed(contents)
            && Proposal(contents) ==
               ProposalParts(height, round, address, ProposalPartsFor(crypto, key, address, height, round, data))
  {
    var parts := ProposalPartsFor(crypto, key, address, height, round, data);
    var contents := StreamContents(parts);
    ChunksPartitionData(data);
    assert |parts| == |ChunkParts(data)| + 2;
    assert contents[0] == PartContent(InitPart(ProposalInit(height, round, address)));
    SentPartsOfContents(parts);
  }

  /** A complete proposal that verifies and carries exactly the block that was sent. */
  ghost predicate CarriesBlock(crypto: Crypto, validators: seq<Validator>, p: ProposalParts,
                               height: Height, round: Round, address: Address, data: Bytes)
  {
    && p.height == height && p.round == round && p.proposer == address
    && Verify(crypto, validators, p) == Verified
    && DataOf(p.parts) == data
    && HashedBytes(p.parts) == Header(height, round) + data && InitCount(p.parts) == 1
    && Assemble(crypto, p) == ProposedValue(height, round, Nil, address, NewValue(crypto, data), true)
  }

  lemma BlockProposalCarries(crypto: Crypto, key: PrivateKey, address: Address, validators: seq<Validator>,
                             height: Height, round: Round, data: Bytes)
    requires SignaturesVerify(crypto) && |data| <= MAX_BUFFER
    requires GetByAddress(validators, address).Some?
    requires GetByAddress(validators, address).value.publicKey == crypto.publicKey(key)
    ensures var contents := BlockContents(crypto, key, address, height, round, data);
            WellFormed(contents) && CarriesBlock(crypto, validators, Proposal(contents), height, round, address, data)
  {
    BlockStreamWellFormed(crypto, key, address, height, round, data);
    BuiltPartsVerify(crypto, key, address, height, round, data, validators);
  }

  /** For every block, in every run of the receiver in which the messages of the
      stream arrive in any order, any number of times, interleaved with anything on
      other streams: the arrival of the last missing message yields the block, and
      no other message of the stream yields anything. */
  lemma BlockRoundTrip(crypto: Crypto, key: PrivateKey, address: Address, validators: seq<Validator>,
                       height: Height, round: Round, data: Bytes,
                       peer: PeerId, streamId: StreamId, arrivals: seq<u64>, trace: seq<Delivery>)
    requires SignaturesVerify(crypto) && |data| <= MAX_BUFFER
    requires GetByAddress(validators, address).Some?
    requires GetByAddress(validators, address).value.publicKey == crypto.publicKey(key)
    requires forall k :: k in arrivals ==> k < |BlockContents(crypto, key, address, height, round, data)|
    requires MessagesFor(trace, (peer, streamId)) ==
             Messages(streamId, BlockContents(crypto, key, address, height, round, data), arrivals)
    ensures var contents := BlockContents(crypto, key, address, height, round, data);
            var replies := RepliesFor(trace, Run(map[], trace).1, (peer, streamId));
            && WellFormed(contents)
            && |replies| == |arrivals|
            && (forall i :: 0 <= i < |arrivals| ==> replies[i] == ExpectedReply(contents, arrivals, i))
            && (forall i :: 0 <= i < |arrivals| && replies[i].Complete? ==>
                  CarriesBlock(crypto, validators, replies[i].parts, height, round, address, data))
            && Completions(replies) == (if AllArrived(contents, arrivals) then 1 else 0)
  {
    var contents := BlockContents(crypto, key, address, height, round, data);
    BlockProposalCarries(crypto, key, address, validators, height, round, data);
    StreamsDoNotInterfere(map[], trace, (peer, streamId));
    DeliveredAtLastMissing(streamId, contents, arrivals);
    DeliveredOnceAllArrived(streamId, contents, arrivals);
  }
}
