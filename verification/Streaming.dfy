/** Reassembly of proposals from streams of parts that may be reordered and repeated. */
module Streaming {
  import opened Types
  import opened Sets
  import opened MinHeap

  /** Specification: what one stream has received so far, indexed by sequence number. */
  datatype StreamView = StreamView(
    buffer: map<u64, StreamContent>,
    initInfo: Option<ProposalInit>,
    seen: set<u64>,
    totalMessages: nat,
    finReceived: bool)
  {
    ghost predicate IsDone() {
      initInfo.Some? && finReceived && |buffer| == totalMessages
    }
  }

  /** What accepting a message yields. `Overflow` is the checked addition that
      stops the application on an end-of-stream mark numbered 2^64 - 1. */
  datatype Reply = Pending | Complete(parts: ProposalParts) | Overflow

  const EMPTY_STREAM := StreamView(map[], None, {}, 0, false)

  // -------------------------------------------------- draining, as a function

  function PartOf(content: StreamContent): seq<ProposalPart> {
    if content.PartContent? then [content.part] else []
  }

  /** The buffered parts by increasing sequence number. */
  ghost function InOrder(buffer: map<u64, StreamContent>): seq<ProposalPart>
    decreases |buffer|
  {
    if buffer == map[] then []
    else
      var k := Least(buffer.Keys);
      PartOf(buffer[k]) + InOrder(buffer - {k})
  }

  /** The sequence numbers in the order in which `InOrder` visits them. */
  ghost function DrainKeys(buffer: map<u64, StreamContent>): seq<u64>
    decreases |buffer|
  {
    if buffer == map[] then []
    else
      var k := Least(buffer.Keys);
      [k] + DrainKeys(buffer - {k})
  }

  ghost function PartsAt(buffer: map<u64, StreamContent>, keys: seq<u64>): seq<ProposalPart>
    requires forall k :: k in keys ==> k in buffer
  {
    if keys == [] then [] else PartOf(buffer[keys[0]]) + PartsAt(buffer, keys[1..])
  }

  ghost predicate StrictlyIncreasing(keys: seq<u64>) {
    forall i, j :: 0 <= i < j < |keys| ==> keys[i] < keys[j]
  }

  lemma {:induction false} PartsAtRemoved(buffer: map<u64, StreamContent>, k: u64, keys: seq<u64>)
    requires forall j :: j in keys ==> j in buffer && j != k
    ensures PartsAt(buffer - {k}, keys) == PartsAt(buffer, keys)
  {
    if keys != [] {
      PartsAtRemoved(buffer, k, keys[1..]);
    }
  }

  lemma PrependKeepsOrder(k: u64, keys: seq<u64>)
    requires StrictlyIncreasing(keys) && forall j :: j in keys ==> k < j
    ensures StrictlyIncreasing([k] + keys)
  {
    forall i, j | 0 <= i < j < |[k] + keys| ensures ([k] + keys)[i] < ([k] + keys)[j] {
      if i == 0 {
        assert keys[j - 1] in keys;
      } else {
        assert keys[i - 1] < keys[j - 1];
      }
    }
  }

  /** Draining visits every buffered sequence number exactly once, in strictly
      increasing order, and yields the part found at each. */
  lemma {:induction false} DrainIsSortedPermutation(buffer: map<u64, StreamContent>)
    ensures StrictlyIncreasing(DrainKeys(buffer))
    ensures forall k :: k in DrainKeys(buffer) <==> k in buffer
    ensures |DrainKeys(buffer)| == |buffer|
    ensures InOrder(buffer) == PartsAt(buffer, DrainKeys(buffer))
    decreases |buffer|
  {
    if buffer != map[] {
      var k := Least(buffer.Keys);
      var rest := buffer - {k};
      DrainIsSortedPermutation(rest);
      var keys := DrainKeys(rest);
      assert forall j :: j in keys ==> j in rest;
      PartsAtRemoved(buffer, k, keys);
      assert ([k] + keys)[1..] == keys;
      assert |buffer.Keys - {k}| == |buffer.Keys| - 1;
      assert rest.Keys == buffer.Keys - {k};
      PrependKeepsOrder(k, keys);
    }
  }

  // ------------------------------------------------ accepting, as a function

  /** The checked `sequence + 1` of an end-of-stream mark does not fit 64 bits. */
  predicate Overflows(sequence: u64, content: StreamContent) {
    content.EndOfStream? && sequence + 1 >= U64_LIMIT
  }

  /** What a message changes before it is buffered. */
  function Noted(v: StreamView, sequence: u64, content: StreamContent): StreamView {
    v.(initInfo := if sequence == 0 then AsInit(content) else v.initInfo,
       finReceived := v.finReceived || content.EndOfStream?,
       totalMessages := if content.EndOfStream? && !Overflows(sequence, content) then sequence + 1
                        else v.totalMessages)
  }

  /** Hands over the buffered parts once the stream is complete. */
  ghost function Deliver(v: StreamView): (StreamView, Reply) {
    if v.IsDone() then
      var init := v.initInfo.value;
      (v.(initInfo := None, buffer := map[]),
       Complete(ProposalParts(init.height, init.round, init.proposer, InOrder(v.buffer))))
    else (v, Pending)
  }

  ghost function StreamInsert(v: StreamView, sequence: u64, content: StreamContent): (StreamView, Reply) {
    var noted := Noted(v, sequence, content);
    if Overflows(sequence, content) then (noted, Overflow)
    else Deliver(noted.(buffer := v.buffer[sequence := content]))
  }

  function Marked(v: StreamView, sequence: u64): StreamView {
    v.(seen := v.seen + {sequence})
  }

  ghost function StreamReceive(v: StreamView, sequence: u64, content: StreamContent): (StreamView, Reply) {
    if sequence in v.seen then (v, Pending) else StreamInsert(Marked(v, sequence), sequence, content)
  }

  ghost function Lookup(streams: map<StreamKey, StreamView>, key: StreamKey): StreamView {
    if key in streams then streams[key] else EMPTY_STREAM
  }

  /** The entry of `key`, created when missing, with the sequence number noted. */
  ghost function Entered(streams: map<StreamKey, StreamView>, key: StreamKey, sequence: u64)
    : map<StreamKey, StreamView>
  {
    streams[key := Marked(Lookup(streams, key), sequence)]
  }

  ghost function Inserted(streams: map<StreamKey, StreamView>, key: StreamKey, msg: StreamMessage)
    : (map<StreamKey, StreamView>, Reply)
    requires key in streams
  {
    var (v, reply) := StreamInsert(streams[key], msg.sequence, msg.content);
    (if !reply.Overflow? && v.IsDone() then streams - {key} else streams[key := v], reply)
  }

  ghost function Receive(streams: map<StreamKey, StreamView>, peer: PeerId, msg: StreamMessage)
    : (map<StreamKey, StreamView>, Reply)
  {
    var key := (peer, msg.streamId);
    var entered := Entered(streams, key, msg.sequence);
    if msg.sequence in Lookup(streams, key).seen then (entered, Pending)
    else Inserted(entered, key, msg)
  }

  // --------------------------------------------------------- implementation

  /** The heap holds exactly one message for each buffered sequence number. */
  ghost predicate Represents(held: multiset<StreamMessage>, streamId: StreamId, buffer: map<u64, StreamContent>) {
    && |held| == |buffer|
    && (forall m :: m in held ==>
          m.streamId == streamId && m.sequence in buffer && buffer[m.sequence] == m.content)
    && (forall k :: k in buffer ==> held[StreamMessage(streamId, k, buffer[k])] == 1)
  }

  /** The messages the heap must hold for a given buffer. */
  ghost function MessagesOf(streamId: StreamId, buffer: map<u64, StreamContent>): multiset<StreamMessage>
    decreases |buffer|
  {
    if buffer == map[] then multiset{}
    else
      var k := Least(buffer.Keys);
      MessagesOf(streamId, buffer - {k}) + multiset{StreamMessage(streamId, k, buffer[k])}
  }

  lemma {:induction false} MessagesRepresent(streamId: StreamId, buffer: map<u64, StreamContent>)
    ensures Represents(MessagesOf(streamId, buffer), streamId, buffer)
    decreases |buffer|
  {
    if buffer != map[] {
      var k := Least(buffer.Keys);
      MessagesRepresent(streamId, buffer - {k});
      RepresentsPush(MessagesOf(streamId, buffer - {k}), streamId, buffer - {k},
                     StreamMessage(streamId, k, buffer[k]));
      assert (buffer - {k})[k := buffer[k]] == buffer;
    }
  }

  lemma RepresentsUnique(held: multiset<StreamMessage>, streamId: StreamId, buffer: map<u64, StreamContent>)
    requires Represents(held, streamId, buffer)
    ensures held == MessagesOf(streamId, buffer)
  {
    MessagesRepresent(streamId, buffer);
    var expected := MessagesOf(streamId, buffer);
    forall m ensures held[m] == expected[m] {
      if m in held || m in expected {
        assert m == StreamMessage(streamId, m.sequence, buffer[m.sequence]);
      }
    }
  }

  lemma RepresentsPush(held: multiset<StreamMessage>, streamId: StreamId,
                       buffer: map<u64, StreamContent>, msg: StreamMessage)
    requires Represents(held, streamId, buffer)
    requires msg.streamId == streamId && msg.sequence !in buffer
    ensures Represents(held + multiset{msg}, streamId, buffer[msg.sequence := msg.content])
  {
    assert buffer[msg.sequence := msg.content].Keys == buffer.Keys + {msg.sequence};
    assert |buffer[msg.sequence := msg.content]| == |buffer| + 1;
    assert msg !in held;
  }

  lemma RepresentsPop(held: multiset<StreamMessage>, streamId: StreamId,
                      buffer: map<u64, StreamContent>, msg: StreamMessage)
    requires Represents(held, streamId, buffer) && msg in held
    ensures Represents(held - multiset{msg}, streamId, buffer - {msg.sequence})
  {
    var k := msg.sequence;
    var rest := buffer - {k};
    assert msg == StreamMessage(streamId, k, buffer[k]);
    assert rest.Keys == buffer.Keys - {k};
    assert |rest.Keys| == |buffer.Keys| - 1;
  }

  lemma FirstIsLeast(order: seq<StreamMessage>, streamId: StreamId, buffer: map<u64, StreamContent>)
    requires Represents(multiset(order), streamId, buffer) && InSequenceOrder(order) && order != []
    ensures order[0] in multiset(order)
    ensures order[0].sequence in buffer && buffer[order[0].sequence] == order[0].content
    ensures Least(buffer.Keys) == order[0].sequence
  {
    assert order[0] in multiset(order);
    forall k | k in buffer ensures order[0].sequence <= k {
      var m := StreamMessage(streamId, k, buffer[k]);
      assert m in multiset(order);
      var i :| 0 <= i < |order| && order[i] == m;
    }
  }

  lemma TailContents(order: seq<StreamMessage>)
    requires order != []
    ensures multiset(order) - multiset{order[0]} == multiset(order[1..])
  {
    assert order == [order[0]] + order[1..];
  }

  /** However the heap was filled, draining it yields `InOrder` of the buffer. */
  lemma {:induction false} DrainYieldsInOrder(order: seq<StreamMessage>, streamId: StreamId,
                                              buffer: map<u64, StreamContent>)
    requires Represents(multiset(order), streamId, buffer) && InSequenceOrder(order)
    ensures PartsOf(order) == InOrder(buffer)
    decreases |order|
  {
    if order == [] {
      assert |multiset(order)| == 0;
      assert buffer == map[];
    } else {
      FirstIsLeast(order, streamId, buffer);
      RepresentsPop(multiset(order), streamId, buffer, order[0]);
      TailContents(order);
      DrainYieldsInOrder(order[1..], streamId, buffer - {order[0].sequence});
    }
  }

  class StreamState {
    const buffer: MinHeap
    var initInfo: Option<ProposalInit>
    var seenSequences: set<u64>
    var totalMessages: nat
    var finReceived: bool

    ghost const key: StreamKey
    ghost var buffered: map<u64, StreamContent>

    ghost predicate Valid()
      reads this, buffer
    {
      && buffer.Valid() && buffer.key == key
      && buffer.Contents() == MessagesOf(key.1, buffered)
      && buffered.Keys <= seenSequences
    }

    ghost function View(): StreamView
      reads this
    {
      StreamView(buffered, initInfo, seenSequences, totalMessages, finReceived)
    }

    constructor (ghost key: StreamKey)
      ensures Valid() && fresh(buffer) && View() == EMPTY_STREAM && this.key == key
    {
      buffer := new MinHeap(key);
      initInfo := None;
      seenSequences := {};
      totalMessages := 0;
      finReceived := false;
      this.key := key;
      buffered := map[];
    }

    predicate IsDone()
      requires Valid()
      reads this, buffer
      ensures IsDone() == View().IsDone()
    {
      MessagesRepresent(key.1, buffered);
      initInfo.Some? && finReceived && buffer.Len() == totalMessages
    }

    method TakeParts() returns (parts: seq<ProposalPart>)
      requires Valid()
      modifies this`buffered, buffer
      ensures Valid() && buffered == map[]
      ensures parts == InOrder(old(buffered))
    {
      ghost var order;
      parts, order := buffer.Drain();
      MessagesRepresent(key.1, buffered);
      DrainYieldsInOrder(order, key.1, buffered);
      buffered := map[];
    }

    method Note(msg: StreamMessage) returns (overflow: bool)
      modifies this`initInfo, this`finReceived, this`totalMessages
      ensures overflow == Overflows(msg.sequence, msg.content)
      ensures View() == Noted(old(View()), msg.sequence, msg.content)
    {
      if msg.IsFirst() {
        initInfo := AsInit(msg.content);
      }
      if msg.IsFin() {
        finReceived := true;
        if msg.sequence + 1 >= U64_LIMIT {
          return true;
        }
        totalMessages := msg.sequence + 1;
      }
      overflow := false;
    }

    method Push(msg: StreamMessage)
      requires Valid() && msg.streamId == key.1
      requires msg.sequence in seenSequences && msg.sequence !in buffered
      modifies this`buffered, buffer
      ensures Valid() && buffered == old(buffered)[msg.sequence := msg.content]
    {
      MessagesRepresent(key.1, buffered);
      RepresentsPush(buffer.Contents(), key.1, buffered, msg);
      buffer.Push(msg);
      buffered := buffered[msg.sequence := msg.content];
      RepresentsUnique(buffer.Contents(), key.1, buffered);
    }

    method Insert(msg: StreamMessage) returns (reply: Reply)
      requires Valid() && msg.streamId == key.1
      requires msg.sequence in seenSequences && msg.sequence !in buffered
      modifies this, buffer
      ensures Valid()
      ensures (View(), reply) == StreamInsert(old(View()), msg.sequence, msg.content)
    {
      var overflow := Note(msg);
      if overflow {
        return Overflow;
      }
      Push(msg);
      if IsDone() {
        var init := initInfo.value;
        initInfo := None;
        var parts := TakeParts();
        reply := Complete(ProposalParts(init.height, init.round, init.proposer, parts));
      } else {
        reply := Pending;
      }
    }

    /** Records the sequence number; false when it had been seen before. */
    method MarkSeen(sequence: u64) returns (isNew: bool)
      requires Valid()
      modifies this`seenSequences
      ensures Valid()
      ensures isNew == (sequence !in old(seenSequences))
      ensures View() == Marked(old(View()), sequence)
    {
      isNew := sequence !in seenSequences;
      seenSequences := seenSequences + {sequence};
    }
  }

  lemma UpdateTwice<K, V>(m: map<K, V>, key: K, first: V, second: V)
    ensures m[key := first][key := second] == m[key := second]
    ensures m[key := first] - {key} == m - {key}
  {
  }

  class PartStreamsMap {
    var streams: map<StreamKey, StreamState>

    ghost var view: map<StreamKey, StreamView>
    ghost var Repr: set<object>

    /** The entry of `key` is a stream of its own, whose content is `view[key]`. */
    ghost predicate ValidEntry(key: StreamKey)
      requires key in streams && key in view
      reads this, streams[key], streams[key].buffer
    {
      && streams[key] in Repr && streams[key].buffer in Repr
      && streams[key].Valid() && streams[key].key == key
      && streams[key].View() == view[key]
    }

    ghost predicate Valid()
      reads this, Repr
    {
      && this !in Repr
      && streams.Keys == view.Keys
      && (forall k :: k in streams ==> streams[k] in Repr && streams[k].buffer in Repr)
      && (forall k :: k in streams ==> ValidEntry(k))
    }

    constructor ()
      ensures Valid() && view == map[] && Repr == {}
    {
      streams := map[];
      view := map[];
      Repr := {};
    }

    method Create(key: StreamKey)
      requires Valid() && key !in streams
      modifies this
      ensures Valid() && (forall o :: o in Repr ==> o in old(Repr) || fresh(o))
      ensures view == old(view)[key := EMPTY_STREAM]
    {
      var state := new StreamState(key);
      streams := streams[key := state];
      view := view[key := EMPTY_STREAM];
      Repr := Repr + {state, state.buffer};
      assert ValidEntry(key);
      forall k | k in old(streams) ensures ValidEntry(k) {
        EntryKept(k);
      }
    }

    /** The entry for a key, created empty when there is none. */
    method Entry(key: StreamKey)
      requires Valid()
      modifies this
      ensures Valid() && (forall o :: o in Repr ==> o in old(Repr) || fresh(o))
      ensures key in streams
      ensures view == old(view)[key := Lookup(old(view), key)]
    {
      if key !in streams {
        Create(key);
      }
    }

    twostate lemma EntryKept(key: StreamKey)
      requires old(key in streams && key in view && ValidEntry(key))
      requires key in streams && streams[key] == old(streams[key])
      requires key in view && view[key] == old(view[key])
      requires unchanged(streams[key]) && unchanged(streams[key].buffer)
      requires old(Repr) <= Repr
      ensures ValidEntry(key)
    {
    }

    /** Changing one stream changes nothing about the others. */
    twostate lemma OthersKept(key: StreamKey)
      requires old(Valid()) && key in streams
      requires streams == old(streams) && Repr == old(Repr)
      requires view == old(view)[key := streams[key].View()]
      requires forall o :: o in Repr && o != streams[key] && o != streams[key].buffer ==> unchanged(o)
      requires streams[key].Valid()
      ensures Valid()
    {
      forall k | k in streams && k != key ensures ValidEntry(k) {
        EntryKept(k);
      }
    }

    method RemoveIfDone(key: StreamKey)
      requires Valid() && key in streams
      modifies this
      ensures Valid() && Repr == old(Repr)
      ensures view == if old(view)[key].IsDone() then old(view) - {key} else old(view)
    {
      assert ValidEntry(key);
      if streams[key].IsDone() {
        streams := streams - {key};
        view := view - {key};
        forall k | k in streams ensures ValidEntry(k) {
          EntryKept(k);
        }
      }
    }

    method MarkSeen(key: StreamKey, sequence: u64) returns (isNew: bool)
      requires Valid() && key in streams
      modifies this`view, Repr
      ensures Valid()
      ensures isNew == (sequence !in old(view)[key].seen)
      ensures view == old(view)[key := Marked(old(view)[key], sequence)]
    {
      assert ValidEntry(key);
      isNew := streams[key].MarkSeen(sequence);
      view := view[key := streams[key].View()];
      OthersKept(key);
    }

    method InsertNew(key: StreamKey, msg: StreamMessage) returns (reply: Reply)
      requires Valid() && key in streams && msg.streamId == key.1
      requires msg.sequence in view[key].seen && msg.sequence !in view[key].buffer
      modifies this`view, Repr
      ensures Valid()
      ensures reply == StreamInsert(old(view)[key], msg.sequence, msg.content).1
      ensures view == old(view)[key := StreamInsert(old(view)[key], msg.sequence, msg.content).0]
    {
      assert ValidEntry(key);
      reply := streams[key].Insert(msg);
      view := view[key := streams[key].View()];
      OthersKept(key);
    }

    /** Finds or creates the entry of a message and notes its sequence number there. */
    method EnterAndMark(key: StreamKey, sequence: u64) returns (isNew: bool)
      requires Valid()
      modifies this, Repr
      ensures Valid() && (forall o :: o in Repr ==> o in old(Repr) || fresh(o))
      ensures key in streams
      ensures isNew == (sequence !in Lookup(old(view), key).seen)
      ensures isNew ==> sequence !in view[key].buffer
      ensures view == Entered(old(view), key, sequence)
    {
      Entry(key);
      assert ValidEntry(key);
      UpdateTwice(old(view), key, Lookup(old(view), key), Marked(Lookup(old(view), key), sequence));
      isNew := MarkSeen(key, sequence);
    }

    method InsertAndRemove(key: StreamKey, msg: StreamMessage) returns (reply: Reply)
      requires Valid() && key in streams && msg.streamId == key.1
      requires msg.sequence in view[key].seen && msg.sequence !in view[key].buffer
      modifies this, Repr
      ensures Valid() && Repr == old(Repr)
      ensures view == Inserted(old(view), key, msg).0
      ensures reply == Inserted(old(view), key, msg).1
    {
      reply := InsertNew(key, msg);
      if !reply.Overflow? {
        UpdateTwice(old(view), key, view[key], view[key]);
        RemoveIfDone(key);
      }
    }

    method Insert(peer: PeerId, msg: StreamMessage) returns (reply: Reply)
      requires Valid()
      modifies this, Repr
      ensures Valid() && (forall o :: o in Repr ==> o in old(Repr) || fresh(o))
      ensures view == Receive(old(view), peer, msg).0
      ensures reply == Receive(old(view), peer, msg).1
    {
      var key := (peer, msg.streamId);
      var isNew := EnterAndMark(key, msg.sequence);
      if !isNew {
        return Pending;
      }
      reply := InsertAndRemove(key, msg);
    }
  }
}
