/** Facts about finite sets of numbers: least elements, ranges and cardinalities. */
module Sets {
  import opened Types

  lemma {:induction false} FindLeast(keys: set<u64>) returns (least: u64)
    requires keys != {}
    ensures least in keys && forall other :: other in keys ==> least <= other
  {
    var k :| k in keys;
    var rest := keys - {k};
    if rest == {} {
      assert keys == {k};
      least := k;
    } else {
      var r := FindLeast(rest);
      least := if k < r then k else r;
      forall other | other in keys ensures least <= other {
        assert other == k || other in rest;
      }
    }
  }

  ghost function Least(keys: set<u64>): (k: u64)
    requires keys != {}
    ensures k in keys && forall other :: other in keys ==> k <= other
  {
    assert exists k :: k in keys && forall other :: other in keys ==> k <= other by {
      var least := FindLeast(keys);
    }
    var k :| k in keys && forall other :: other in keys ==> k <= other;
    k
  }

  ghost function UpTo(n: nat): (r: set<u64>)
    requires n <= U64_LIMIT
    ensures |r| == n
    ensures forall k: u64 :: k in r <==> k < n
  {
    if n == 0 then {} else UpTo(n - 1) + {n - 1}
  }

  lemma SubsetOfFullSize<T>(small: set<T>, large: set<T>)
    requires small <= large && |small| == |large|
    ensures small == large
  {
    if small != large {
      var x :| x in large && x !in small;
      assert small <= large - {x};
      assert |large - {x}| == |large| - 1;
      CardinalityMonotone(small, large - {x});
    }
  }

  lemma {:induction false} CardinalityMonotone<T>(small: set<T>, large: set<T>)
    requires small <= large
    ensures |small| <= |large|
  {
    if small != {} {
      var x :| x in small;
      CardinalityMonotone(small - {x}, large - {x});
    }
  }
}
