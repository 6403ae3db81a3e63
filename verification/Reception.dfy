/** A node receiving all messages of one stream, in any order and any number. */
module Reception {
  import opened Types
  import opened Streaming
  import opened StreamingProperties
  import opened ProposalStream
  import opened Store
  import opened Node
  import opened NodeRuns

  function PartEvent(peer: PeerId, id: StreamId, contents: seq<StreamContent>, k: u64): Event
    requires k < |contents|
  {
    ReceivedProposalPart(peer, StreamMessage(id, k, contents[k]))
  }

  /** Deliveries of a stream, given as the sequence numbers in order of arrival. */
  function PartEvents(peer: PeerId, id: StreamId, contents: seq<StreamContent>, arrivals: seq<u64>): seq<Event>
    requires forall k :: k in arrivals ==> k < |contents|
  {
    seq(|arrivals|, i requires 0 <= i < |arrivals| =>
      assert arrivals[i] in arrivals;
      PartEvent(peer, id, contents, arrivals[i]))
  }

  lemma PartEventsNext(peer: PeerId, id: StreamId, contents: seq<StreamContent>, earlier: seq<u64>, k: u64)
    requires k < |contents| && forall j :: j in earlier ==> j < |contents|
    ensures forall j :: j in earlier + [k] ==> j < |contents|
    ensures PartEvents(peer, id, contents, earlier + [k]) ==
            PartEvents(peer, id, contents, earlier) + [PartEvent(peer, id, contents, k)]
  {
  }

  /** A proposal that the node stores when it completes. */
  predicate Welcome(cfg: Config, s: NodeState, p: ProposalParts) {
    s.currentHeight <= p.height && !p.round.Nil? && Verify(cfg.crypto, cfg.validators, p) == Verified
  }

  /** The tables of a node that has just stored a proposal. */
  function Storing(cfg: Config, s: NodeState, p: ProposalParts): Tables {
    InsertUndecidedBlock(InsertUndecidedProposal(s.store, Assemble(cfg.crypto, p)),
                         s.currentHeight, s.currentRound, DataOf(p.parts))
  }

  /** All streams but one are as they were. */
  ghost predicate OthersUntouched(before: map<StreamKey, StreamView>, after: map<StreamKey, StreamView>,
                                  key: StreamKey)
  {
    forall other: StreamKey :: other != key ==> Lookup(after, other) == Lookup(before, other)
  }

  /** From `start` to `q` the node has only taken in `arrivals` of the stream, and has
      stored the proposal once all had arrived. */
  ghost predicate HasTaken(cfg: Config, start: Progress, q: Progress, peer: PeerId, id: StreamId,
                           contents: seq<StreamContent>, arrivals: seq<u64>)
    requires WellFormed(contents) && forall k :: k in arrivals ==> k < |contents|
  {
    && q == start.(node := start.node.(
              streams := q.node.streams,
              store := if AllArrived(contents, arrivals) then Storing(cfg, start.node, Proposal(contents))
                       else start.node.store))
    && Lookup(q.node.streams, (peer, id)) == ViewOf(contents, Arrived(arrivals))
    && OthersUntouched(start.node.streams, q.node.streams, (peer, id))
  }

  lemma TakenAtStart(cfg: Config, start: Progress, peer: PeerId, id: StreamId,
                     contents: seq<StreamContent>, none: seq<u64>)
    requires WellFormed(contents) && Lookup(start.node.streams, (peer, id)) == EMPTY_STREAM && none == []
    ensures HasTaken(cfg, start, start, peer, id, contents, none)
  {
    NothingArrived(contents, none);
  }

  /** What the stream map does with the next message. */
  lemma NextReply(s: NodeState, peer: PeerId, id: StreamId, contents: seq<StreamContent>, earlier: seq<u64>, k: u64)
    requires WellFormed(contents) && k < |contents| && forall j :: j in earlier ==> j < |contents|
    requires Lookup(s.streams, (peer, id)) == ViewOf(contents, Arrived(earlier))
    ensures forall j :: j in earlier + [k] ==> j < |contents|
    ensures var (streams, reply) := Receive(s.streams, peer, PartEvent(peer, id, contents, k).part);
            && reply == ExpectedReply(contents, earlier + [k], |earlier|)
            && Lookup(streams, (peer, id)) == ViewOf(contents, Arrived(earlier + [k]))
            && OthersUntouched(s.streams, streams, (peer, id))
  {
    ReceiveTouchesOneStream(s.streams, peer, PartEvent(peer, id, contents, k).part);
    ArriveNext(contents, earlier, k);
  }

  lemma CompletesNext(contents: seq<StreamContent>, earlier: seq<u64>, k: u64)
    requires WellFormed(contents)
    ensures ExpectedReply(contents, earlier + [k], |earlier|) ==
            if AllArrived(contents, earlier + [k]) && !AllArrived(contents, earlier) then Complete(Proposal(contents))
            else Pending
    ensures AllArrived(contents, earlier) ==> AllArrived(contents, earlier + [k])
  {
    var arrivals := earlier + [k];
    assert arrivals[..|earlier| + 1] == arrivals && arrivals[..|earlier|] == earlier;
  }

  /** A node that gets a message which completes nothing stores nothing. */
  lemma PendingStep(cfg: Config, s: NodeState, from: PeerId, msg: StreamMessage)
    requires Receive(s.streams, from, msg).1.Pending?
    ensures StoredProposal(cfg, s, ReceivedProposalPart(from, msg)).None?
    ensures Step(cfg, s, ReceivedProposalPart(from, msg)) ==
            (s.(streams := Receive(s.streams, from, msg).0), Done(Reassembled(None)))
  {
  }

  lemma WelcomeIsStored(cfg: Config, s: NodeState, streams: map<StreamKey, StreamView>, p: ProposalParts)
    requires Welcome(cfg, s, p)
    ensures AcceptProposal(cfg, s.(streams := streams), p) ==
            (s.(streams := streams, store := Storing(cfg, s, p)), Done(Some(Assemble(cfg.crypto, p))))
  {
  }

  lemma CompleteStep(cfg: Config, s: NodeState, from: PeerId, msg: StreamMessage)
    requires var reply := Receive(s.streams, from, msg).1; reply.Complete? && Welcome(cfg, s, reply.parts)
    ensures var (streams, reply) := Receive(s.streams, from, msg);
            && StoredProposal(cfg, s, ReceivedProposalPart(from, msg)) == Some(reply.parts)
            && Step(cfg, s, ReceivedProposalPart(from, msg)) ==
               (s.(streams := streams, store := Storing(cfg, s, reply.parts)),
                Done(Reassembled(Some(Assemble(cfg.crypto, reply.parts)))))
  {
    var (streams, reply) := Receive(s.streams, from, msg);
    WelcomeIsStored(cfg, s, streams, reply.parts);
    ReceivedStep(cfg, s, from, msg);
  }

  /** One more message: what it stores, if anything, and where it leaves the node. */
  lemma TakeNext(cfg: Config, start: Progress, q: Progress, peer: PeerId, id: StreamId,
                 contents: seq<StreamContent>, earlier: seq<u64>, k: u64)
    requires WellFormed(contents) && k < |contents| && forall j :: j in earlier ==> j < |contents|
    requires HasTaken(cfg, start, q, peer, id, contents, earlier)
    requires !start.halted && Welcome(cfg, start.node, Proposal(contents))
    ensures forall j :: j in earlier + [k] ==> j < |contents|
    ensures Receive(q.node.streams, peer, PartEvent(peer, id, contents, k).part).1 ==
            if AllArrived(contents, earlier + [k]) && !AllArrived(contents, earlier) then Complete(Proposal(contents))
            else Pending
    ensures StoredProposal(cfg, q.node, PartEvent(peer, id, contents, k)) ==
            if AllArrived(contents, earlier + [k]) && !AllArrived(contents, earlier) then Some(Proposal(contents))
            else None
    ensures HasTaken(cfg, start, Advance(cfg, q, PartEvent(peer, id, contents, k)), peer, id, contents, earlier + [k])
  {
    var msg := PartEvent(peer, id, contents, k).part;
    NextReply(q.node, peer, id, contents, earlier, k);
    CompletesNext(contents, earlier, k);
    if Receive(q.node.streams, peer, msg).1.Pending? {
      PendingStep(cfg, q.node, peer, msg);
    } else {
      CompleteStep(cfg, q.node, peer, msg);
    }
  }

  /** However the messages of a stream arrive at a node that has not heard of it: once
      all have arrived the node has stored the proposal, and until then nothing. */
  lemma {:induction false} TakeAll(cfg: Config, start: Progress, peer: PeerId, id: StreamId,
                                   contents: seq<StreamContent>, arrivals: seq<u64>)
    requires WellFormed(contents) && forall k :: k in arrivals ==> k < |contents|
    requires !start.halted && Welcome(cfg, start.node, Proposal(contents))
    requires Lookup(start.node.streams, (peer, id)) == EMPTY_STREAM
    ensures HasTaken(cfg, start, After(cfg, start, PartEvents(peer, id, contents, arrivals)),
                     peer, id, contents, arrivals)
  {
    if arrivals == [] {
      TakenAtStart(cfg, start, peer, id, contents, arrivals);
    } else {
      var n := |arrivals| - 1;
      var earlier, k := arrivals[..n], arrivals[n];
      assert arrivals == earlier + [k] && k in arrivals;
      assert forall j :: j in earlier ==> j in arrivals;
      TakeAll(cfg, start, peer, id, contents, earlier);
      TakeNext(cfg, start, After(cfg, start, PartEvents(peer, id, contents, earlier)), peer, id, contents, earlier, k);
      PartEventsNext(peer, id, contents, earlier, k);
      AfterNext(cfg, start, PartEvents(peer, id, contents, earlier), PartEvent(peer, id, contents, k));
    }
  }

  /** Deliveries of parts are always allowed. */
  lemma PartsAllowed(cfg: Config, start: Progress, peer: PeerId, id: StreamId,
                     contents: seq<StreamContent>, arrivals: seq<u64>)
    requires forall k :: k in arrivals ==> k < |contents|
    ensures AllowedRun(cfg, start, PartEvents(peer, id, contents, arrivals))
  {
  }
}
