/** What verification does not rule out: a proposal with a further Init among its
    parts hashes that Init but does not assemble it. */
module SecondInit {
  import opened Types
  import opened Streaming
  import opened StreamingProperties
  import opened ProposalStream
  import opened RoundTrip
  import opened Node
  import opened NodeRuns
  import opened Stability
  import opened Reception

  /** The parts of a signed block cut so that 16 of its bytes travel as an Init. */
  function Recut(init: ProposalInit, before: Bytes, second: ProposalInit, after: Bytes, signature: Signature)
    : seq<ProposalPart>
  {
    [InitPart(init)] + ([DataPart(before)] + RecutTail(second, after, signature))
  }

  function RecutTail(second: ProposalInit, after: Bytes, signature: Signature): seq<ProposalPart> {
    [InitPart(second)] + ([DataPart(after)] + [FinPart(signature)])
  }

  /** The block that was signed. */
  function Whole(before: Bytes, second: ProposalInit, after: Bytes): Bytes {
    before + Header(second.height, second.round) + after
  }

  lemma ConsPart(first: ProposalPart, rest: seq<ProposalPart>)
    ensures HashedBytes([first] + rest) == HashedOf(first) + HashedBytes(rest)
    ensures DataOf([first] + rest) == (if first.DataPart? then first.bytes else []) + DataOf(rest)
    ensures InitCount([first] + rest) == (if first.InitPart? then 1 else 0) + InitCount(rest)
  {
    assert ([first] + rest)[1..] == rest;
  }

  lemma OnlyFin(signature: Signature)
    ensures HashedBytes([FinPart(signature)]) == [] && DataOf([FinPart(signature)]) == []
    ensures InitCount([FinPart(signature)]) == 0
  {
  }

  lemma RecutTailParts(second: ProposalInit, after: Bytes, signature: Signature)
    ensures var tail := RecutTail(second, after, signature);
            && HashedBytes(tail) == Header(second.height, second.round) + after
            && DataOf(tail) == after && InitCount(tail) == 1
  {
    OnlyFin(signature);
    ConsPart(DataPart(after), [FinPart(signature)]);
    ConsPart(InitPart(second), [DataPart(after)] + [FinPart(signature)]);
  }

  lemma RecutParts(init: ProposalInit, before: Bytes, second: ProposalInit, after: Bytes, signature: Signature)
    ensures var parts := Recut(init, before, second, after, signature);
            && HashedBytes(parts) == Header(init.height, init.round) + Whole(before, second, after)
            && DataOf(parts) == before + after && InitCount(parts) == 2
  {
    var tail := RecutTail(second, after, signature);
    RecutTailParts(second, after, signature);
    ConsPart(DataPart(before), tail);
    ConsPart(InitPart(init), [DataPart(before)] + tail);
    assert before + (Header(second.height, second.round) + after) == Whole(before, second, after);
  }

  lemma RecutSignature(init: ProposalInit, before: Bytes, second: ProposalInit, after: Bytes, signature: Signature)
    ensures LastSignature(Recut(init, before, second, after, signature)) == Some(signature)
  {
    var parts := Recut(init, before, second, after, signature);
    assert parts[|parts| - 1] == FinPart(signature);
  }

  lemma RecutStream(init: ProposalInit, before: Bytes, second: ProposalInit, after: Bytes, signature: Signature)
    ensures var parts := Recut(init, before, second, after, signature);
            && WellFormed(StreamContents(parts))
            && Proposal(StreamContents(parts)) == ProposalParts(init.height, init.round, init.proposer, parts)
  {
    var parts := Recut(init, before, second, after, signature);
    var contents := StreamContents(parts);
    assert contents[0] == PartContent(InitPart(init));
    SentPartsOfContents(parts);
  }

  /** For every signature scheme: the signature of a block also verifies a proposal that
      carries less than the block. */
  lemma RecutVerifies(crypto: Crypto, key: PrivateKey, validators: seq<Validator>, init: ProposalInit,
                      before: Bytes, second: ProposalInit, after: Bytes)
    requires SignaturesVerify(crypto)
    requires GetByAddress(validators, init.proposer).Some?
    requires GetByAddress(validators, init.proposer).value.publicKey == crypto.publicKey(key)
    ensures var signature := Sign(crypto, key, init.height, init.round, Whole(before, second, after));
            var parts := Recut(init, before, second, after, signature);
            var p := ProposalParts(init.height, init.round, init.proposer, parts);
            && Verify(crypto, validators, p) == Verified
            && DataOf(p.parts) == before + after != Whole(before, second, after)
  {
    var signature := Sign(crypto, key, init.height, init.round, Whole(before, second, after));
    RecutParts(init, before, second, after, signature);
    RecutSignature(init, before, second, after, signature);
    assert |Whole(before, second, after)| == |before + after| + 16;
  }

  ghost function RecutContents(crypto: Crypto, key: PrivateKey, init: ProposalInit, before: Bytes,
                               second: ProposalInit, after: Bytes): seq<StreamContent>
  {
    StreamContents(Recut(init, before, second, after,
                         Sign(crypto, key, init.height, init.round, Whole(before, second, after))))
  }

  lemma RecutIsStored(cfg: Config, start: Progress, key: PrivateKey, init: ProposalInit,
                      before: Bytes, second: ProposalInit, after: Bytes,
                      peer: PeerId, id: StreamId, arrivals: seq<u64>)
    requires !start.halted && start.node.currentHeight == init.height && start.node.currentRound == init.round
    requires !init.round.Nil? && (init.height, init.round) !in start.node.store.undecidedBlocks
    requires Lookup(start.node.streams, (peer, id)) == EMPTY_STREAM
    requires SignaturesVerify(cfg.crypto)
    requires GetByAddress(cfg.validators, init.proposer).Some?
    requires GetByAddress(cfg.validators, init.proposer).value.publicKey == cfg.crypto.publicKey(key)
    requires var contents := RecutContents(cfg.crypto, key, init, before, second, after);
             (forall k :: k in arrivals ==> k < |contents|) && AllArrived(contents, arrivals)
    ensures var contents := RecutContents(cfg.crypto, key, init, before, second, after);
            var q := After(cfg, start, PartEvents(peer, id, contents, arrivals));
            var slot := (init.height, init.round);
            && !q.halted && q.node.currentHeight == init.height
            && slot in q.node.store.undecidedBlocks
            && q.node.store.undecidedBlocks[slot] == before + after != Whole(before, second, after)
  {
    var signature := Sign(cfg.crypto, key, init.height, init.round, Whole(before, second, after));
    RecutVerifies(cfg.crypto, key, cfg.validators, init, before, second, after);
    RecutStream(init, before, second, after, signature);
    TakeAll(cfg, start, peer, id, RecutContents(cfg.crypto, key, init, before, second, after), arrivals);
  }

  /** In every allowed run, a node that receives such a proposal first, in the round it
      is for, holds bytes that were not signed for as long as the height is kept,
      whatever arrives afterwards; until its slot is gone it never holds anything else. */
  lemma RecutIsKept(cfg: Config, h0: Height, start: Progress, key: PrivateKey, init: ProposalInit,
                    before: Bytes, second: ProposalInit, after: Bytes,
                    peer: PeerId, id: StreamId, arrivals: seq<u64>, later: seq<Event>)
    requires TablesInvariant(h0, start)
    requires !start.halted && start.node.currentHeight == init.height && start.node.currentRound == init.round
    requires !init.round.Nil? && (init.height, init.round) !in start.node.store.undecidedBlocks
    requires Lookup(start.node.streams, (peer, id)) == EMPTY_STREAM
    requires SignaturesVerify(cfg.crypto)
    requires GetByAddress(cfg.validators, init.proposer).Some?
    requires GetByAddress(cfg.validators, init.proposer).value.publicKey == cfg.crypto.publicKey(key)
    requires var contents := RecutContents(cfg.crypto, key, init, before, second, after);
             && (forall k :: k in arrivals ==> k < |contents|) && AllArrived(contents, arrivals)
             && AllowedRun(cfg, After(cfg, start, PartEvents(peer, id, contents, arrivals)), later)
    ensures var contents := RecutContents(cfg.crypto, key, init, before, second, after);
            var r := After(cfg, After(cfg, start, PartEvents(peer, id, contents, arrivals)), later);
            && HeldWhileKept(h0, r, (init.height, init.round), before + after)
            && ((init.height, init.round) in r.node.store.undecidedBlocks ==>
                  r.node.store.undecidedBlocks[(init.height, init.round)] == before + after)
            && before + after != Whole(before, second, after)
  {
    var contents := RecutContents(cfg.crypto, key, init, before, second, after);
    var events := PartEvents(peer, id, contents, arrivals);
    RecutIsStored(cfg, start, key, init, before, second, after, peer, id, arrivals);
    PartsAllowed(cfg, start, peer, id, contents, arrivals);
    RunIsSteady(cfg, h0, start, events);
    RunIsSteady(cfg, h0, After(cfg, start, events), later);
    RunHolds(cfg, h0, After(cfg, start, events), later, (init.height, init.round), before + after);
  }
}
