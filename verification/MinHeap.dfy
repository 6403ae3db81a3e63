/** The reordering buffer of a stream: a priority queue whose comparison is
    reversed, so that the greatest element is the message that comes first. */
module MinHeap {
  import opened Types

  /** The ordering of buffered messages: positive when `a` has the smaller sequence number. */
  function Compare(a: StreamMessage, b: StreamMessage): int {
    b.sequence - a.sequence
  }

  ghost predicate HeapAt(items: seq<StreamMessage>, i: nat)
    requires i < |items|
  {
    i == 0 || Compare(items[i], items[(i - 1) / 2]) <= 0
  }

  ghost predicate IsHeap(items: seq<StreamMessage>) {
    forall i :: 0 <= i < |items| ==> HeapAt(items, i)
  }

  /** The root of a heap is a greatest element, that is, has the least sequence number. */
  lemma {:induction false} RootIsGreatest(items: seq<StreamMessage>, i: nat)
    requires IsHeap(items) && i < |items|
    ensures items[0].sequence <= items[i].sequence
  {
    if i > 0 {
      assert HeapAt(items, i);
      RootIsGreatest(items, (i - 1) / 2);
    }
  }

  function Swap(items: seq<StreamMessage>, i: nat, j: nat): (r: seq<StreamMessage>)
    requires i < |items| && j < |items|
  {
    items[i := items[j]][j := items[i]]
  }

  lemma SwapKeepsContents(items: seq<StreamMessage>, i: nat, j: nat)
    requires i < j < |items|
    ensures multiset(Swap(items, i, j)) == multiset(items)
  {
    var mid := items[i+1..j];
    assert items == items[..i] + [items[i]] + mid + [items[j]] + items[j+1..];
    assert Swap(items, i, j) == items[..i] + [items[j]] + mid + [items[i]] + items[j+1..];
  }

  /** `items` is a heap except that the element at `hole` may exceed its parent. */
  ghost predicate HeapExceptUp(items: seq<StreamMessage>, hole: nat) {
    && (forall i :: 0 <= i < |items| && i != hole ==> HeapAt(items, i))
    && (forall i :: 0 < i < |items| && (i - 1) / 2 == hole && hole > 0 ==>
          Compare(items[i], items[(hole - 1) / 2]) <= 0)
  }

  /** `items` is a heap except that the element at `hole` may be below its children. */
  ghost predicate HeapExceptDown(items: seq<StreamMessage>, hole: nat) {
    && (forall i :: 0 < i < |items| && (i - 1) / 2 != hole ==> HeapAt(items, i))
    && (forall i :: 0 < i < |items| && (i - 1) / 2 == hole && 0 < hole < |items| ==>
          Compare(items[i], items[(hole - 1) / 2]) <= 0)
  }

  lemma AppendAtHole(items: seq<StreamMessage>, msg: StreamMessage)
    requires IsHeap(items)
    ensures HeapExceptUp(items + [msg], |items|)
  {
    forall i | 0 <= i < |items| ensures HeapAt(items + [msg], i) {
      assert HeapAt(items, i);
    }
  }

  lemma SwapUp(items: seq<StreamMessage>, hole: nat)
    requires 0 < hole < |items| && HeapExceptUp(items, hole)
    requires Compare(items[hole], items[(hole - 1) / 2]) > 0
    ensures HeapExceptUp(Swap(items, (hole - 1) / 2, hole), (hole - 1) / 2)
  {
    var parent := (hole - 1) / 2;
    var swapped := Swap(items, parent, hole);
    forall i | 0 <= i < |items| && i != parent ensures HeapAt(swapped, i) {
      if i != hole {
        assert HeapAt(items, i);
      }
    }
    forall i | 0 < i < |items| && (i - 1) / 2 == parent && parent > 0
      ensures Compare(swapped[i], swapped[(parent - 1) / 2]) <= 0
    {
      assert HeapAt(items, parent);
      if i != hole {
        assert HeapAt(items, i);
      }
    }
  }

  lemma ReplaceRoot(items: seq<StreamMessage>)
    requires |items| > 1 && IsHeap(items)
    ensures HeapExceptDown([items[|items| - 1]] + items[1..|items| - 1], 0)
    ensures multiset(items) ==
            multiset([items[|items| - 1]] + items[1..|items| - 1]) + multiset{items[0]}
  {
    var last := items[|items| - 1];
    var rest := [last] + items[1..|items| - 1];
    assert items == [items[0]] + items[1..|items| - 1] + [last];
    forall i | 0 < i < |rest| && (i - 1) / 2 != 0 ensures HeapAt(rest, i) {
      assert HeapAt(items, i);
    }
  }

  lemma SwapDown(items: seq<StreamMessage>, hole: nat, child: nat)
    requires HeapExceptDown(items, hole)
    requires 2 * hole + 1 <= child <= 2 * hole + 2 && child < |items|
    requires Compare(items[hole], items[child]) < 0
    requires forall c :: 2 * hole + 1 <= c <= 2 * hole + 2 && c < |items| ==>
               Compare(items[c], items[child]) <= 0
    ensures HeapExceptDown(Swap(items, hole, child), child)
  {
    var swapped := Swap(items, hole, child);
    forall i | 0 < i < |items| && (i - 1) / 2 != child ensures HeapAt(swapped, i) {
      if (i - 1) / 2 != hole {
        assert HeapAt(items, i);
      }
    }
    forall i | 0 < i < |items| && (i - 1) / 2 == child
      ensures Compare(swapped[i], swapped[(child - 1) / 2]) <= 0
    {
      assert HeapAt(items, i);
    }
  }

  lemma HoleClosed(items: seq<StreamMessage>, hole: nat)
    requires HeapExceptDown(items, hole)
    requires forall c :: 2 * hole + 1 <= c <= 2 * hole + 2 && c < |items| ==>
               Compare(items[c], items[hole]) <= 0
    ensures IsHeap(items)
  {
    forall i | 0 <= i < |items| ensures HeapAt(items, i) {
      if i > 0 && (i - 1) / 2 != hole {
        assert HeapAt(items, i);
      }
    }
  }

  /** The parts carried by a sequence of messages, end-of-stream marks skipped. */
  function PartsOf(msgs: seq<StreamMessage>): seq<ProposalPart> {
    if msgs == [] then []
    else (if msgs[0].content.PartContent? then [msgs[0].content.part] else []) + PartsOf(msgs[1..])
  }

  lemma {:induction false} PartsOfAppend(msgs: seq<StreamMessage>, last: StreamMessage)
    ensures PartsOf(msgs + [last]) ==
            PartsOf(msgs) + (if last.content.PartContent? then [last.content.part] else [])
  {
    if msgs == [] {
      assert msgs + [last] == [last];
      assert PartsOf([last][1..]) == [];
    } else {
      assert (msgs + [last])[1..] == msgs[1..] + [last];
      PartsOfAppend(msgs[1..], last);
    }
  }

  ghost predicate InSequenceOrder(msgs: seq<StreamMessage>) {
    forall i, j :: 0 <= i < j < |msgs| ==> msgs[i].sequence <= msgs[j].sequence
  }

  /** What `Drain` has done after taking `order` out of a heap that held `whole`. */
  ghost predicate Drained(whole: multiset<StreamMessage>, order: seq<StreamMessage>, rest: multiset<StreamMessage>) {
    && whole == multiset(order) + rest
    && InSequenceOrder(order)
    && (forall m, n :: m in order && n in rest ==> m.sequence <= n.sequence)
  }

  lemma DrainedStep(whole: multiset<StreamMessage>, order: seq<StreamMessage>,
                    rest: multiset<StreamMessage>, msg: StreamMessage)
    requires Drained(whole, order, rest + multiset{msg})
    requires forall m :: m in rest + multiset{msg} ==> msg.sequence <= m.sequence
    ensures Drained(whole, order + [msg], rest)
  {
    assert msg in rest + multiset{msg};
    assert multiset(order + [msg]) == multiset(order) + multiset{msg};
    forall n | n in rest ensures n in rest + multiset{msg} {}
  }

  class MinHeap {
    var items: seq<StreamMessage>

    /** The stream this heap buffers. */
    ghost const key: StreamKey

    ghost predicate Valid()
      reads this
    {
      IsHeap(items)
    }

    /** The buffered messages, without regard to their arrangement. */
    ghost function Contents(): multiset<StreamMessage>
      reads this
    {
      multiset(items)
    }

    constructor (ghost key: StreamKey)
      ensures Valid() && Contents() == multiset{} && this.key == key
    {
      items := [];
      this.key := key;
    }

    function Len(): nat
      reads this
      ensures Len() == |Contents()|
    {
      |items|
    }

    method Push(msg: StreamMessage)
      requires Valid()
      modifies this
      ensures Valid()
      ensures Contents() == old(Contents()) + multiset{msg}
    {
      AppendAtHole(items, msg);
      items := items + [msg];
      var i := |items| - 1;
      while i > 0 && Compare(items[i], items[(i - 1) / 2]) > 0
        invariant 0 <= i < |items|
        invariant HeapExceptUp(items, i)
        invariant multiset(items) == old(multiset(items)) + multiset{msg}
      {
        var parent := (i - 1) / 2;
        SwapKeepsContents(items, parent, i);
        SwapUp(items, i);
        items := Swap(items, parent, i);
        i := parent;
      }
    }

    method SiftDown()
      requires HeapExceptDown(items, 0)
      modifies this
      ensures Valid() && Contents() == old(Contents())
    {
      var i := 0;
      while 2 * i + 1 < |items|
        invariant 0 <= i
        invariant HeapExceptDown(items, i)
        invariant multiset(items) == old(multiset(items))
        decreases |items| - i
      {
        var child := 2 * i + 1;
        if child + 1 < |items| && Compare(items[child + 1], items[child]) > 0 {
          child := child + 1;
        }
        if Compare(items[i], items[child]) >= 0 {
          HoleClosed(items, i);
          return;
        }
        SwapKeepsContents(items, i, child);
        SwapDown(items, i, child);
        items := Swap(items, i, child);
        i := child;
      }
      HoleClosed(items, i);
    }

    /** Removes a greatest message, that is, one with the least sequence number. */
    method Pop() returns (top: Option<StreamMessage>)
      requires Valid()
      modifies this
      ensures Valid()
      ensures top.None? <==> old(Contents()) == multiset{}
      ensures top.None? ==> Contents() == multiset{}
      ensures top.Some? ==>
                && old(Contents()) == Contents() + multiset{top.value}
                && forall m :: m in old(Contents()) ==> top.value.sequence <= m.sequence
    {
      if |items| == 0 {
        top := None;
        return;
      }
      var first := items[0];
      forall m | m in multiset(items) ensures first.sequence <= m.sequence {
        var i :| 0 <= i < |items| && items[i] == m;
        RootIsGreatest(items, i);
      }
      if |items| == 1 {
        items := [];
      } else {
        ReplaceRoot(items);
        items := [items[|items| - 1]] + items[1..|items| - 1];
        SiftDown();
      }
      top := Some(first);
    }

    /** Empties the heap and returns the parts it held, in the order of `order`,
        an arrangement of the whole contents by increasing sequence number. */
    method Drain() returns (parts: seq<ProposalPart>, ghost order: seq<StreamMessage>)
      requires Valid()
      modifies this
      ensures Valid() && Contents() == multiset{}
      ensures multiset(order) == old(Contents()) && InSequenceOrder(order)
      ensures parts == PartsOf(order)
    {
      parts, order := [], [];
      while true
        invariant Valid()
        invariant Drained(old(Contents()), order, Contents())
        invariant parts == PartsOf(order)
        decreases |Contents()|
      {
        ghost var before := Contents();
        var top := Pop();
        if top.None? {
          break;
        }
        assert before == Contents() + multiset{top.value};
        DrainedStep(old(Contents()), order, Contents(), top.value);
        PartsOfAppend(order, top.value);
        order := order + [top.value];
        if top.value.content.PartContent? {
          parts := parts + [top.value.content.part];
        }
      }
    }
  }
}
