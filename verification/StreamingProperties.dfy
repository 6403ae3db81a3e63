/** What reassembly guarantees over whole runs: streams do not interfere, each
    stream is delivered at most once, and a well-formed stream is delivered
    exactly when its last missing message arrives. */
module StreamingProperties {
  import opened Types
  import opened Sets
  import opened Streaming

  // ------------------------------------------------------------------- runs

  type Delivery = (PeerId, StreamMessage)

  ghost function Run(streams: map<StreamKey, StreamView>, trace: seq<Delivery>)
    : (r: (map<StreamKey, StreamView>, seq<Reply>))
    ensures |r.1| == |trace|
  {
    if trace == [] then (streams, [])
    else
      var n := |trace| - 1;
      var (before, replies) := Run(streams, trace[..n]);
      var (after, reply) := Receive(before, trace[n].0, trace[n].1);
      (after, replies + [reply])
  }

  ghost function RunStream(v: StreamView, msgs: seq<StreamMessage>): (r: (StreamView, seq<Reply>))
    ensures |r.1| == |msgs|
  {
    if msgs == [] then (v, [])
    else
      var n := |msgs| - 1;
      var (before, replies) := RunStream(v, msgs[..n]);
      var (after, reply) := StreamReceive(before, msgs[n].sequence, msgs[n].content);
      (after, replies + [reply])
  }

  function KeyOf(d: Delivery): StreamKey { (d.0, d.1.streamId) }

  /** The messages of a trace that belong to one stream. */
  function MessagesFor(trace: seq<Delivery>, key: StreamKey): seq<StreamMessage> {
    if trace == [] then []
    else
      var n := |trace| - 1;
      MessagesFor(trace[..n], key) + (if KeyOf(trace[n]) == key then [trace[n].1] else [])
  }

  /** The replies of a run that answer messages of one stream. */
  function RepliesFor(trace: seq<Delivery>, replies: seq<Reply>, key: StreamKey): seq<Reply>
    requires |replies| == |trace|
  {
    if trace == [] then []
    else
      var n := |trace| - 1;
      RepliesFor(trace[..n], replies[..n], key) + (if KeyOf(trace[n]) == key then [replies[n]] else [])
  }

  // -------------------------------------------------------- non-interference

  /** A stream that has just accepted a message is never left complete. */
  lemma NeverLeftDone(v: StreamView, sequence: u64, content: StreamContent)
    ensures var (v', reply) := StreamInsert(v, sequence, content);
            !reply.Overflow? ==> !v'.IsDone()
  {
  }

  /** The application is stopped exactly by a new end-of-stream mark numbered 2^64 - 1. */
  lemma OverflowIff(streams: map<StreamKey, StreamView>, peer: PeerId, msg: StreamMessage)
    ensures Receive(streams, peer, msg).1.Overflow? <==>
            && msg.content.EndOfStream? && msg.sequence == 0xFFFF_FFFF_FFFF_FFFF
            && msg.sequence !in Lookup(streams, (peer, msg.streamId)).seen
  {
    ReceiveTouchesOneStream(streams, peer, msg);
  }

  /** Accepting a message touches its own stream only, and never removes it. */
  lemma ReceiveTouchesOneStream(streams: map<StreamKey, StreamView>, peer: PeerId, msg: StreamMessage)
    ensures var key := (peer, msg.streamId);
            var (v, reply) := StreamReceive(Lookup(streams, key), msg.sequence, msg.content);
            Receive(streams, peer, msg) == (streams[key := v], reply)
  {
    var key := (peer, msg.streamId);
    var v := Lookup(streams, key);
    if msg.sequence in v.seen {
      assert v.seen + {msg.sequence} == v.seen;
    } else {
      NeverLeftDone(Marked(v, msg.sequence), msg.sequence, msg.content);
      UpdateTwice(streams, key, Marked(v, msg.sequence),
                  StreamInsert(Marked(v, msg.sequence), msg.sequence, msg.content).0);
    }
  }

  /** Over any interleaving of any messages, the final state and the replies of a
      stream are those of a run of its own messages alone. */
  lemma {:induction false} StreamsDoNotInterfere(streams: map<StreamKey, StreamView>, trace: seq<Delivery>,
                                                 key: StreamKey)
    ensures var (final, replies) := Run(streams, trace);
            var (v, own) := RunStream(Lookup(streams, key), MessagesFor(trace, key));
            Lookup(final, key) == v && RepliesFor(trace, replies, key) == own
  {
    if trace != [] {
      var n := |trace| - 1;
      StreamsDoNotInterfere(streams, trace[..n], key);
      var (before, replies) := Run(streams, trace[..n]);
      ReceiveTouchesOneStream(before, trace[n].0, trace[n].1);
      var (after, reply) := Receive(before, trace[n].0, trace[n].1);
      assert (replies + [reply])[..n] == replies;
      if KeyOf(trace[n]) == key {
        var own := MessagesFor(trace[..n], key);
        assert (own + [trace[n].1])[..|own|] == own;
      } else {
        assert MessagesFor(trace, key) == MessagesFor(trace[..n], key);
      }
    }
  }

  // ---------------------------------------------------- at-most-once delivery

  function Completions(replies: seq<Reply>): nat {
    if replies == [] then 0
    else
      var n := |replies| - 1;
      Completions(replies[..n]) + (if replies[n].Complete? then 1 else 0)
  }

  /** What every stream satisfies after any messages at all. */
  ghost predicate StreamInvariant(v: StreamView) {
    && v.buffer.Keys <= v.seen
    && (v.initInfo.Some? ==> 0 in v.buffer && AsInit(v.buffer[0]) == v.initInfo)
    && (!v.finReceived ==> v.totalMessages == 0)
    && !v.IsDone()
  }

  lemma StreamReceiveKeepsInvariant(v: StreamView, sequence: u64, content: StreamContent)
    requires StreamInvariant(v)
    ensures StreamInvariant(StreamReceive(v, sequence, content).0)
  {
    if sequence !in v.seen {
      NeverLeftDone(Marked(v, sequence), sequence, content);
    }
  }

  /** A proposal is delivered under the height, round and proposer of the Init that is its first part. */
  lemma CompleteStartsWithInit(v: StreamView, sequence: u64, content: StreamContent)
    requires StreamInvariant(v) && StreamReceive(v, sequence, content).1.Complete?
    ensures var p := StreamReceive(v, sequence, content).1.parts;
            p.parts != [] && p.parts[0] == InitPart(ProposalInit(p.height, p.round, p.proposer))
  {
    var noted := Noted(Marked(v, sequence), sequence, content);
    var filled := noted.(buffer := v.buffer[sequence := content]);
    assert 0 in filled.buffer && AsInit(filled.buffer[0]) == filled.initInfo;
    assert Least(filled.buffer.Keys) == 0;
  }

  /** One run of one stream: the invariant, and at most one completion. */
  lemma {:induction false} StreamDeliversAtMostOnce(msgs: seq<StreamMessage>)
    ensures var (v, replies) := RunStream(EMPTY_STREAM, msgs);
            && StreamInvariant(v)
            && Completions(replies) <= 1
            && (Completions(replies) == 1 ==> v.initInfo.None? && 0 in v.seen)
  {
    if msgs != [] {
      var n := |msgs| - 1;
      StreamDeliversAtMostOnce(msgs[..n]);
      var (before, replies) := RunStream(EMPTY_STREAM, msgs[..n]);
      var (after, reply) := StreamReceive(before, msgs[n].sequence, msgs[n].content);
      StreamReceiveKeepsInvariant(before, msgs[n].sequence, msgs[n].content);
      assert (replies + [reply])[..n] == replies;
    }
  }

  /** Over every run of arbitrary messages, each (peer, stream) yields at most one
      proposal, and no stored stream is complete between calls. */
  lemma AtMostOneProposalPerStream(trace: seq<Delivery>, key: StreamKey)
    ensures var (final, replies) := Run(map[], trace);
            && Completions(RepliesFor(trace, replies, key)) <= 1
            && (key in final ==> !final[key].IsDone())
  {
    StreamsDoNotInterfere(map[], trace, key);
    StreamDeliversAtMostOnce(MessagesFor(trace, key));
  }

  /** The set of known streams only grows: it is exactly the set of streams heard of. */
  lemma {:induction false} KnownStreams(trace: seq<Delivery>)
    ensures Run(map[], trace).0.Keys == set i | 0 <= i < |trace| :: KeyOf(trace[i])
  {
    if trace != [] {
      var n := |trace| - 1;
      KnownStreams(trace[..n]);
      ReceiveTouchesOneStream(Run(map[], trace[..n]).0, trace[n].0, trace[n].1);
      var earlier := set i | 0 <= i < n :: KeyOf(trace[..n][i]);
      assert forall i | 0 <= i < n :: trace[..n][i] == trace[i];
      assert (set i | 0 <= i < |trace| :: KeyOf(trace[i])) == earlier + {KeyOf(trace[n])};
    }
  }

  // ------------------------------------------------ completion, characterised

  /** The contents of a stream by sequence number: an Init first, one end mark last. */
  ghost predicate WellFormed(contents: seq<StreamContent>) {
    && 2 <= |contents| < U64_LIMIT
    && AsInit(contents[0]).Some?
    && contents[|contents| - 1].EndOfStream?
    && (forall k :: 0 <= k < |contents| - 1 ==> contents[k].PartContent?)
  }

  ghost function AllSequences(contents: seq<StreamContent>): set<u64>
    requires WellFormed(contents)
  {
    UpTo(|contents|)
  }

  ghost predicate Received(contents: seq<StreamContent>, seen: set<u64>) {
    forall k :: k in seen ==> k < |contents|
  }

  /** A stream that has accepted exactly the sequence numbers in `seen` and has not delivered. */
  ghost function Filled(contents: seq<StreamContent>, seen: set<u64>): StreamView
    requires WellFormed(contents) && Received(contents, seen)
  {
    StreamView(
      map k | k in seen :: contents[k],
      if 0 in seen then AsInit(contents[0]) else None,
      seen,
      if |contents| - 1 in seen then |contents| else 0,
      |contents| - 1 in seen)
  }

  ghost function AfterDelivery(contents: seq<StreamContent>): StreamView
    requires WellFormed(contents)
  {
    StreamView(map[], None, AllSequences(contents), |contents|, true)
  }

  ghost function ViewOf(contents: seq<StreamContent>, seen: set<u64>): StreamView
    requires WellFormed(contents) && Received(contents, seen)
  {
    if seen == AllSequences(contents) then AfterDelivery(contents) else Filled(contents, seen)
  }

  /** Completion by counting is completion by contents: the count of buffered
      messages reaches the announced total exactly when none is missing. */
  lemma DoneIffAllReceived(contents: seq<StreamContent>, seen: set<u64>)
    requires WellFormed(contents) && Received(contents, seen)
    ensures Filled(contents, seen).IsDone() <==> seen == AllSequences(contents)
  {
    var v := Filled(contents, seen);
    assert v.buffer.Keys == seen;
    if v.IsDone() {
      SubsetOfFullSize(seen, AllSequences(contents));
    }
  }

  /** The parts of a stream, in the order in which they were sent. */
  function SentParts(contents: seq<StreamContent>): seq<ProposalPart> {
    if contents == [] then [] else PartOf(contents[0]) + SentParts(contents[1..])
  }

  lemma {:induction false} InOrderOfRange(contents: seq<StreamContent>, from: nat)
    requires from <= |contents| <= U64_LIMIT
    ensures InOrder(map k: u64 | from <= k < |contents| :: contents[k]) == SentParts(contents[from..])
    decreases |contents| - from
  {
    var buffer := map k: u64 | from <= k < |contents| :: contents[k];
    if from < |contents| {
      assert from in buffer;
      assert Least(buffer.Keys) == from;
      assert buffer - {from} == map k: u64 | from + 1 <= k < |contents| :: contents[k];
      InOrderOfRange(contents, from + 1);
      assert contents[from..][1..] == contents[from + 1..];
    } else {
      assert buffer == map[];
    }
  }

  ghost function Proposal(contents: seq<StreamContent>): ProposalParts
    requires WellFormed(contents)
  {
    var init := AsInit(contents[0]).value;
    ProposalParts(init.height, init.round, init.proposer, SentParts(contents))
  }

  lemma FilledNext(contents: seq<StreamContent>, seen: set<u64>, k: u64)
    requires WellFormed(contents) && Received(contents, seen) && k < |contents| && k !in seen
    ensures Received(contents, seen + {k})
    ensures var noted := Noted(Marked(Filled(contents, seen), k), k, contents[k]);
            noted.(buffer := noted.buffer[k := contents[k]]) == Filled(contents, seen + {k})
    ensures !Overflows(k, contents[k])
  {
    var noted := Noted(Marked(Filled(contents, seen), k), k, contents[k]);
    assert noted.buffer[k := contents[k]] == Filled(contents, seen + {k}).buffer;
  }

  lemma DeliverAll(contents: seq<StreamContent>)
    requires WellFormed(contents)
    ensures Deliver(Filled(contents, AllSequences(contents))) == (AfterDelivery(contents), Complete(Proposal(contents)))
  {
    var v := Filled(contents, AllSequences(contents));
    DoneIffAllReceived(contents, AllSequences(contents));
    InOrderOfRange(contents, 0);
    assert contents[0..] == contents;
    assert v.buffer == map j: u64 | 0 <= j < |contents| :: contents[j];
  }

  /** One more message of a well-formed stream: delivery happens exactly when it was
      the last one missing, and hands over every part in the order it was sent. */
  lemma ReceiveNext(contents: seq<StreamContent>, seen: set<u64>, k: u64)
    requires WellFormed(contents) && Received(contents, seen) && k < |contents|
    ensures Received(contents, seen + {k})
    ensures StreamReceive(ViewOf(contents, seen), k, contents[k]) ==
            (ViewOf(contents, seen + {k}),
             if k !in seen && seen + {k} == AllSequences(contents) then Complete(Proposal(contents)) else Pending)
  {
    if k in seen {
      assert seen + {k} == seen;
    } else {
      assert k in AllSequences(contents);
      FilledNext(contents, seen, k);
      DoneIffAllReceived(contents, seen + {k});
      DeliverAll(contents);
    }
  }

  /** Deliveries of a stream, given as the sequence numbers in order of arrival. */
  function Messages(streamId: StreamId, contents: seq<StreamContent>, arrivals: seq<u64>): seq<StreamMessage>
    requires forall k :: k in arrivals ==> k < |contents|
  {
    seq(|arrivals|, i requires 0 <= i < |arrivals| =>
      assert arrivals[i] in arrivals;
      StreamMessage(streamId, arrivals[i], contents[arrivals[i]]))
  }

  ghost predicate AllArrived(contents: seq<StreamContent>, arrivals: seq<u64>) {
    forall k: u64 :: k < |contents| ==> k in arrivals
  }

  ghost function Arrived(arrivals: seq<u64>): set<u64> {
    set k | k in arrivals
  }

  /** What the i-th arrival must yield: the proposal when it is the last missing one. */
  ghost function ExpectedReply(contents: seq<StreamContent>, arrivals: seq<u64>, i: nat): Reply
    requires WellFormed(contents) && i < |arrivals|
  {
    if AllArrived(contents, arrivals[..i + 1]) && !AllArrived(contents, arrivals[..i])
    then Complete(Proposal(contents)) else Pending
  }

  ghost predicate AsExpected(contents: seq<StreamContent>, arrivals: seq<u64>, replies: seq<Reply>)
    requires WellFormed(contents)
  {
    |replies| == |arrivals| && forall i :: 0 <= i < |arrivals| ==> replies[i] == ExpectedReply(contents, arrivals, i)
  }

  lemma ExpectedNext(contents: seq<StreamContent>, earlier: seq<u64>, k: u64, replies: seq<Reply>)
    requires WellFormed(contents) && AsExpected(contents, earlier, replies)
    ensures AsExpected(contents, earlier + [k], replies + [ExpectedReply(contents, earlier + [k], |earlier|)])
  {
    var arrivals := earlier + [k];
    forall i | 0 <= i < |earlier| ensures ExpectedReply(contents, arrivals, i) == ExpectedReply(contents, earlier, i) {
      assert arrivals[..i + 1] == earlier[..i + 1] && arrivals[..i] == earlier[..i];
    }
  }

  lemma RunStreamNext(v: StreamView, msgs: seq<StreamMessage>, last: StreamMessage)
    ensures var (before, replies) := RunStream(v, msgs);
            var (after, reply) := StreamReceive(before, last.sequence, last.content);
            RunStream(v, msgs + [last]) == (after, replies + [reply])
  {
    assert (msgs + [last])[..|msgs|] == msgs;
  }

  lemma MessagesNext(streamId: StreamId, contents: seq<StreamContent>, earlier: seq<u64>, k: u64)
    requires k < |contents| && forall j :: j in earlier ==> j < |contents|
    ensures forall j :: j in earlier + [k] ==> j < |contents|
    ensures Messages(streamId, contents, earlier + [k]) ==
            Messages(streamId, contents, earlier) + [StreamMessage(streamId, k, contents[k])]
  {
  }

  lemma ReplyNext(contents: seq<StreamContent>, earlier: seq<u64>, k: u64)
    requires WellFormed(contents) && k < |contents|
    requires forall j :: j in earlier ==> j < |contents|
    ensures forall j :: j in earlier + [k] ==> j < |contents|
    ensures Arrived(earlier + [k]) == Arrived(earlier) + {k}
    ensures ExpectedReply(contents, earlier + [k], |earlier|) ==
            if k !in Arrived(earlier) && Arrived(earlier) + {k} == AllSequences(contents)
            then Complete(Proposal(contents)) else Pending
  {
    var arrivals := earlier + [k];
    assert arrivals[..|earlier|] == earlier && arrivals[..|earlier| + 1] == arrivals;
    assert Arrived(arrivals) == Arrived(earlier) + {k};
    ArrivedAll(contents, earlier);
    ArrivedAll(contents, arrivals);
    if k in Arrived(earlier) {
      assert Arrived(earlier) + {k} == Arrived(earlier);
    } else {
      assert k in AllSequences(contents);
    }
  }

  lemma ArriveNext(contents: seq<StreamContent>, earlier: seq<u64>, k: u64)
    requires WellFormed(contents) && k < |contents|
    requires forall j :: j in earlier ==> j < |contents|
    ensures forall j :: j in earlier + [k] ==> j < |contents|
    ensures StreamReceive(ViewOf(contents, Arrived(earlier)), k, contents[k]) ==
            (ViewOf(contents, Arrived(earlier + [k])), ExpectedReply(contents, earlier + [k], |earlier|))
  {
    ReplyNext(contents, earlier, k);
    ReceiveNext(contents, Arrived(earlier), k);
  }

  lemma NothingArrived(contents: seq<StreamContent>, arrivals: seq<u64>)
    requires WellFormed(contents) && arrivals == []
    ensures ViewOf(contents, Arrived(arrivals)) == EMPTY_STREAM
    ensures !AllArrived(contents, arrivals)
  {
    assert Arrived(arrivals) == {};
    assert 0 in AllSequences(contents) && 0 !in arrivals;
    assert EMPTY_STREAM == Filled(contents, {});
  }

  /** One more arrival of a well-formed stream. */
  lemma RunNext(streamId: StreamId, contents: seq<StreamContent>, earlier: seq<u64>, k: u64)
    requires WellFormed(contents) && k < |contents| && forall j :: j in earlier ==> j < |contents|
    requires RunStream(EMPTY_STREAM, Messages(streamId, contents, earlier)).0 == ViewOf(contents, Arrived(earlier))
    ensures forall j :: j in earlier + [k] ==> j < |contents|
    ensures RunStream(EMPTY_STREAM, Messages(streamId, contents, earlier + [k])) ==
            (ViewOf(contents, Arrived(earlier + [k])),
             RunStream(EMPTY_STREAM, Messages(streamId, contents, earlier)).1 +
             [ExpectedReply(contents, earlier + [k], |earlier|)])
  {
    MessagesNext(streamId, contents, earlier, k);
    RunStreamNext(EMPTY_STREAM, Messages(streamId, contents, earlier), StreamMessage(streamId, k, contents[k]));
    ArriveNext(contents, earlier, k);
  }

  /** However the messages of a well-formed stream are reordered and repeated, the
      i-th arrival yields the proposal exactly when it completes the set of
      messages, and every other arrival yields nothing. */
  lemma {:induction false} DeliveredAtLastMissing(streamId: StreamId, contents: seq<StreamContent>, arrivals: seq<u64>)
    requires WellFormed(contents)
    requires forall k :: k in arrivals ==> k < |contents|
    ensures var (v, replies) := RunStream(EMPTY_STREAM, Messages(streamId, contents, arrivals));
            v == ViewOf(contents, Arrived(arrivals)) && AsExpected(contents, arrivals, replies)
  {
    if arrivals == [] {
      NothingArrived(contents, arrivals);
    } else {
      var n := |arrivals| - 1;
      var earlier, k := arrivals[..n], arrivals[n];
      assert arrivals == earlier + [k] && k in arrivals;
      assert forall j :: j in earlier ==> j in arrivals;
      DeliveredAtLastMissing(streamId, contents, earlier);
      RunNext(streamId, contents, earlier, k);
      ExpectedNext(contents, earlier, k, RunStream(EMPTY_STREAM, Messages(streamId, contents, earlier)).1);
    }
  }

  lemma {:induction false} CompletionsAppend(replies: seq<Reply>, reply: Reply)
    ensures Completions(replies + [reply]) == Completions(replies) + (if reply.Complete? then 1 else 0)
  {
    assert (replies + [reply])[..|replies|] == replies;
  }

  lemma CompletionAtLast(contents: seq<StreamContent>, earlier: seq<u64>, k: u64, replies: seq<Reply>)
    requires WellFormed(contents)
    requires Completions(replies) == if AllArrived(contents, earlier) then 1 else 0
    ensures Completions(replies + [ExpectedReply(contents, earlier + [k], |earlier|)]) ==
            if AllArrived(contents, earlier + [k]) then 1 else 0
  {
    var arrivals := earlier + [k];
    CompletionsAppend(replies, ExpectedReply(contents, arrivals, |earlier|));
    assert arrivals[..|earlier| + 1] == arrivals && arrivals[..|earlier|] == earlier;
  }

  /** Once every message has arrived, exactly one proposal has been delivered; before that, none. */
  lemma {:induction false} DeliveredOnceAllArrived(streamId: StreamId, contents: seq<StreamContent>, arrivals: seq<u64>)
    requires WellFormed(contents)
    requires forall k :: k in arrivals ==> k < |contents|
    ensures Completions(RunStream(EMPTY_STREAM, Messages(streamId, contents, arrivals)).1) ==
            if AllArrived(contents, arrivals) then 1 else 0
  {
    if arrivals == [] {
      NothingArrived(contents, arrivals);
    } else {
      var n := |arrivals| - 1;
      var earlier, k := arrivals[..n], arrivals[n];
      assert arrivals == earlier + [k] && k in arrivals;
      assert forall j :: j in earlier ==> j in arrivals;
      DeliveredOnceAllArrived(streamId, contents, earlier);
      DeliveredAtLastMissing(streamId, contents, earlier);
      RunNext(streamId, contents, earlier, k);
      CompletionAtLast(contents, earlier, k, RunStream(EMPTY_STREAM, Messages(streamId, contents, earlier)).1);
    }
  }

  lemma ArrivedAll(contents: seq<StreamContent>, arrivals: seq<u64>)
    requires WellFormed(contents)
    requires forall k :: k in arrivals ==> k < |contents|
    ensures AllArrived(contents, arrivals) <==> Arrived(arrivals) == AllSequences(contents)
  {
    if AllArrived(contents, arrivals) {
      assert forall k :: k in AllSequences(contents) ==> k in Arrived(arrivals);
    } else {
      var k: u64 :| k < |contents| && k !in arrivals;
      assert k in AllSequences(contents) && k !in Arrived(arrivals);
    }
  }

  // --------------------------------------- completion on arbitrary messages

  /** The first message of each sequence number. */
  function FirstArrivals(msgs: seq<StreamMessage>): map<u64, StreamContent> {
    if msgs == [] then map[]
    else
      var n := |msgs| - 1;
      var earlier := FirstArrivals(msgs[..n]);
      if msgs[n].sequence in earlier then earlier else earlier[msgs[n].sequence := msgs[n].content]
  }

  /** The number of messages announced by the latest end mark among the first arrivals. */
  function Announced(msgs: seq<StreamMessage>): nat {
    if msgs == [] then 0
    else
      var n := |msgs| - 1;
      if msgs[n].content.EndOfStream? && msgs[n].sequence !in FirstArrivals(msgs[..n]) then msgs[n].sequence + 1
      else Announced(msgs[..n])
  }

  ghost predicate HasEnd(arrived: map<u64, StreamContent>) {
    exists k :: k in arrived && arrived[k].EndOfStream?
  }

  /** Message 0 is an Init, an end mark has arrived, and there are as many messages as the
      latest end mark announces. */
  ghost predicate Adds(msgs: seq<StreamMessage>) {
    var arrived := FirstArrivals(msgs);
    0 in arrived && AsInit(arrived[0]).Some? && HasEnd(arrived) && |arrived| == Announced(msgs)
  }

  ghost predicate HasAdded(msgs: seq<StreamMessage>) {
    msgs != [] && (HasAdded(msgs[..|msgs| - 1]) || Adds(msgs))
  }

  ghost predicate NoneOverflows(msgs: seq<StreamMessage>) {
    forall m :: m in msgs ==> !Overflows(m.sequence, m.content)
  }

  /** The stream after any messages, ill-formed ones included. */
  ghost predicate Tracks(v: StreamView, msgs: seq<StreamMessage>) {
    var arrived := FirstArrivals(msgs);
    if HasAdded(msgs) then v.initInfo.None? && v.seen == arrived.Keys && 0 in v.seen
    else v == StreamView(arrived, if 0 in arrived then AsInit(arrived[0]) else None, arrived.Keys,
                         Announced(msgs), HasEnd(arrived))
  }

  lemma TracksNew(v: StreamView, earlier: seq<StreamMessage>, m: StreamMessage)
    requires Tracks(v, earlier) && !HasAdded(earlier) && m.sequence !in v.seen && !Overflows(m.sequence, m.content)
    ensures var msgs := earlier + [m];
            var arrived := FirstArrivals(msgs);
            var noted := Noted(Marked(v, m.sequence), m.sequence, m.content);
            && arrived == v.buffer[m.sequence := m.content]
            && noted.(buffer := arrived) ==
               StreamView(arrived, if 0 in arrived then AsInit(arrived[0]) else None, arrived.Keys,
                          Announced(msgs), HasEnd(arrived))
  {
    var msgs := earlier + [m];
    assert msgs[..|earlier|] == earlier;
    var arrived := FirstArrivals(msgs);
    assert m.sequence in arrived;
    if HasEnd(v.buffer) {
      var k :| k in v.buffer && v.buffer[k].EndOfStream?;
      assert k in arrived && arrived[k].EndOfStream?;
    }
  }

  /** One more message, of any kind: the stream completes exactly when the first arrivals
      add up for the first time, and hands over all of them. */
  lemma TracksNext(v: StreamView, earlier: seq<StreamMessage>, m: StreamMessage)
    requires Tracks(v, earlier) && !Overflows(m.sequence, m.content)
    ensures var msgs := earlier + [m];
            var arrived := FirstArrivals(msgs);
            var (v', reply) := StreamReceive(v, m.sequence, m.content);
            && Tracks(v', msgs)
            && (reply.Complete? <==> Adds(msgs) && !HasAdded(earlier))
            && (reply.Complete? ==>
                  var init := AsInit(arrived[0]).value;
                  reply.parts == ProposalParts(init.height, init.round, init.proposer, InOrder(arrived)))
            && !reply.Overflow?
  {
    var msgs := earlier + [m];
    assert msgs[..|earlier|] == earlier;
    if m.sequence in v.seen {
      SameArrivals(earlier, m);
    } else if !HasAdded(earlier) {
      TracksNew(v, earlier, m);
    }
  }

  lemma {:induction false} AddsIsRemembered(msgs: seq<StreamMessage>)
    ensures msgs != [] && Adds(msgs) ==> HasAdded(msgs)
    ensures msgs == [] ==> !Adds(msgs)
  {
  }

  /** A repetition changes nothing. */
  lemma SameArrivals(earlier: seq<StreamMessage>, m: StreamMessage)
    requires m.sequence in FirstArrivals(earlier)
    ensures FirstArrivals(earlier + [m]) == FirstArrivals(earlier)
    ensures Announced(earlier + [m]) == Announced(earlier)
    ensures HasAdded(earlier + [m]) <==> HasAdded(earlier)
  {
    assert (earlier + [m])[..|earlier|] == earlier;
    AddsIsRemembered(earlier);
  }

  /** For every sequence of messages of one stream, well formed or not: the i-th yields a
      proposal exactly when after it, for the first time, message 0 is an Init, an end mark
      has arrived, and as many messages have arrived as the latest end mark announces; the
      proposal then holds the parts of all first arrivals in sequence order. */
  lemma {:induction false} CompletesIff(msgs: seq<StreamMessage>)
    requires NoneOverflows(msgs)
    ensures var (v, replies) := RunStream(EMPTY_STREAM, msgs);
            && Tracks(v, msgs)
            && AllComplete(msgs, replies)
  {
    if msgs != [] {
      var n := |msgs| - 1;
      var earlier, m := msgs[..n], msgs[n];
      CompletesIff(earlier);
      assert msgs == earlier + [m] && m in msgs;
      TracksNext(RunStream(EMPTY_STREAM, earlier).0, earlier, m);
      RunStreamNext(EMPTY_STREAM, earlier, m);
      CompletesNext(earlier, RunStream(EMPTY_STREAM, earlier).1, m, RunStream(EMPTY_STREAM, msgs).1[n]);
    }
  }

  ghost predicate AllComplete(msgs: seq<StreamMessage>, replies: seq<Reply>) {
    |replies| == |msgs| && forall i :: 0 <= i < |msgs| ==> CompletesAt(msgs, replies, i)
  }

  lemma CompletesNext(earlier: seq<StreamMessage>, replies: seq<Reply>, m: StreamMessage, reply: Reply)
    requires AllComplete(earlier, replies)
    requires var msgs := earlier + [m];
             && (reply.Complete? <==> Adds(msgs) && !HasAdded(earlier))
             && (reply.Complete? ==>
                   var arrived := FirstArrivals(msgs);
                   var init := AsInit(arrived[0]).value;
                   reply.parts == ProposalParts(init.height, init.round, init.proposer, InOrder(arrived)))
    ensures AllComplete(earlier + [m], replies + [reply])
  {
    var msgs, all, n := earlier + [m], replies + [reply], |earlier|;
    forall i | 0 <= i < n ensures CompletesAt(msgs, all, i) {
      EarlierCompletes(earlier, replies, m, reply, i);
    }
    assert msgs[..n + 1] == msgs && msgs[..n] == earlier;
  }

  lemma EarlierCompletes(earlier: seq<StreamMessage>, replies: seq<Reply>, m: StreamMessage, reply: Reply, i: nat)
    requires i < |earlier| == |replies| && CompletesAt(earlier, replies, i)
    ensures CompletesAt(earlier + [m], replies + [reply], i)
  {
    assert (earlier + [m])[..i + 1] == earlier[..i + 1] && (earlier + [m])[..i] == earlier[..i];
  }

  ghost predicate CompletesAt(msgs: seq<StreamMessage>, replies: seq<Reply>, i: nat)
    requires i < |msgs| == |replies|
  {
    && (replies[i].Complete? <==> Adds(msgs[..i + 1]) && !HasAdded(msgs[..i]))
    && (replies[i].Complete? ==>
          var arrived := FirstArrivals(msgs[..i + 1]);
          var init := AsInit(arrived[0]).value;
          replies[i].parts == ProposalParts(init.height, init.round, init.proposer, InOrder(arrived)))
  }
}
