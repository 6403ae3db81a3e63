/** Choosing the proposer of a round: two implementations of one rotation. */
module ProposerRotation {
  import opened Types
  import opened Arithmetic
  import opened ProposalStream

  /** The checked sum `height - 1 + round`, which stops the application when it cannot be computed. */
  function Turn(height: Height, round: Round): Outcome<u64> {
    if round.Nil? || height == 0 || height - 1 + round.number >= U64_LIMIT then Stopped(Panic)
    else Done(height - 1 + round.number)
  }

  /** The choice made by the consensus context. */
  function SelectProposer(validators: seq<Validator>, height: Height, round: Round): Outcome<Validator> {
    if |validators| == 0 then Stopped(Panic)
    else match Turn(height, round)
      case Stopped(reason) => Stopped(reason)
      case Done(turn) => Done(validators[turn % |validators|])
  }

  /** The choice made by the rotating selector. */
  function RotateProposer(validators: seq<Validator>, height: Height, round: Round): Outcome<Address> {
    match Turn(height, round)
    case Stopped(reason) => Stopped(reason)
    case Done(turn) =>
      if |validators| == 0 then Stopped(Panic)
      else
        var proposerIndex := turn % |validators|;
        Done(validators[proposerIndex].address)
  }

  /** For every set, height and round, both choose the same validator or both stop. */
  lemma SelectorsAgree(validators: seq<Validator>, height: Height, round: Round)
    ensures var chosen := SelectProposer(validators, height, round);
            RotateProposer(validators, height, round) ==
            (match chosen case Stopped(reason) => Stopped(reason) case Done(v) => Done(v.address))
    ensures SelectProposer(validators, height, round).Done? <==>
            |validators| > 0 && !round.Nil? && height >= 1 && height - 1 + round.number < U64_LIMIT
  {
  }

  /** The position to which the k-th turn from `first` on falls, among n. */
  function PositionAt(first: nat, k: nat, n: nat): (i: nat)
    requires n > 0
    ensures i < n
  {
    (first + k) % n
  }

  lemma NextPosition(a: nat, n: nat)
    requires n > 0
    ensures (a + 1) % n == if a % n + 1 < n then a % n + 1 else 0
  {
    var d := (a + 1) / n - a / n;
    assert a == n * (a / n) + a % n && a + 1 == n * ((a + 1) / n) + (a + 1) % n;
    assert n * d == n * ((a + 1) / n) - n * (a / n);
    MultipleBounds(n, d);
    MultipleBounds(n, d - 1);
    assert n * d == n * (d - 1) + n;
  }

  /** Within n turns the position runs up from that of the first and wraps around once. */
  lemma {:induction false} PositionUnrolled(first: nat, k: nat, n: nat)
    requires k < n
    ensures var p := PositionAt(first, 0, n);
            PositionAt(first, k, n) == if p + k < n then p + k else p + k - n
  {
    if k > 0 {
      PositionUnrolled(first, k - 1, n);
      NextPosition(first + k - 1, n);
    }
  }

  /** Exactly one of the n turns from `first` on falls to position i. */
  ghost predicate FallsOnce(first: nat, n: nat, i: nat)
    requires i < n
  {
    exists k :: 0 <= k < n && PositionAt(first, k, n) == i &&
                forall j :: 0 <= j < n && PositionAt(first, j, n) == i ==> j == k
  }

  lemma EveryPositionFallsOnce(first: nat, n: nat, i: nat)
    requires i < n
    ensures FallsOnce(first, n, i)
  {
    var p := PositionAt(first, 0, n);
    var k := if p <= i then i - p else i + n - p;
    PositionUnrolled(first, k, n);
    forall j | 0 <= j < n && PositionAt(first, j, n) == i ensures j == k {
      PositionUnrolled(first, j, n);
    }
  }

  /** Over as many consecutive rounds of a height as there are validators, each position
      i of the set is chosen exactly once: the k-th round goes to `PositionAt`. */
  lemma RoundsAreFair(validators: seq<Validator>, height: Height, round: u32, i: nat, k: nat)
    requires i < |validators| && k < |validators| && height >= 1
    requires round + |validators| <= U32_LIMIT && height - 1 + round + |validators| <= U64_LIMIT
    ensures FallsOnce(height - 1 + round, |validators|, i)
    ensures SelectProposer(validators, height, At(round + k)) ==
            Done(validators[PositionAt(height - 1 + round, k, |validators|)])
  {
    EveryPositionFallsOnce(height - 1 + round, |validators|, i);
  }

  /** Over as many consecutive heights at a round as there are validators, likewise. */
  lemma HeightsAreFair(validators: seq<Validator>, height: Height, round: u32, i: nat, k: nat)
    requires i < |validators| && k < |validators| && height >= 1
    requires height - 1 + round + |validators| <= U64_LIMIT && height + |validators| <= U64_LIMIT
    ensures FallsOnce(height - 1 + round, |validators|, i)
    ensures SelectProposer(validators, height + k, At(round)) ==
            Done(validators[PositionAt(height - 1 + round, k, |validators|)])
  {
    EveryPositionFallsOnce(height - 1 + round, |validators|, i);
    assert Turn(height + k, At(round)) == Done(height - 1 + round + k);
  }

  // ------------------------------------------------------ building the set

  function Dedup(vals: seq<Validator>): seq<Validator> {
    if |vals| <= 1 then vals
    else
      var n := |vals| - 1;
      if vals[n] == vals[n - 1] then Dedup(vals[..n]) else Dedup(vals[..n]) + [vals[n]]
  }

  /** Removes adjacent repetitions; stops the application when nothing is left. */
  method NewValidatorSet(validators: seq<Validator>) returns (result: Outcome<seq<Validator>>)
    ensures result.Stopped? <==> validators == []
    ensures result.Done? ==> result.value == Dedup(validators)
  {
    var vals := validators[..];
    var read, kept := 0, [];
    while read < |vals|
      invariant 0 <= read <= |vals| && vals == validators
      invariant kept == Dedup(vals[..read])
      invariant read > 0 ==> kept != [] && kept[|kept| - 1] == vals[read - 1]
    {
      assert vals[..read + 1][..read] == vals[..read];
      if read == 0 || vals[read] != vals[read - 1] {
        kept := kept + [vals[read]];
      }
      read := read + 1;
    }
    assert vals[..read] == validators;
    vals := kept;
    if vals == [] {
      return Stopped(Panic);
    }
    result := Done(vals);
  }

  predicate DiffersFromPrevious(vals: seq<Validator>, i: nat) {
    i < |vals| && (i == 0 || vals[i] != vals[i - 1])
  }

  /** The positions that differ from the one before. */
  function Kept(vals: seq<Validator>): seq<nat> {
    if vals == [] then []
    else
      var n := |vals| - 1;
      Kept(vals[..n]) + (if n == 0 || vals[n] != vals[n - 1] then [n] else [])
  }

  lemma {:induction false} KeptIff(vals: seq<Validator>, i: nat)
    ensures i in Kept(vals) <==> DiffersFromPrevious(vals, i)
  {
    if vals != [] {
      var n := |vals| - 1;
      KeptIff(vals[..n], i);
      assert i in Kept(vals) <==> i in Kept(vals[..n]) || (i == n && DiffersFromPrevious(vals, n));
    }
  }

  ghost predicate Increasing(positions: seq<nat>) {
    forall j, l :: 0 <= j < l < |positions| ==> positions[j] < positions[l]
  }

  lemma {:induction false} KeptIncreasing(vals: seq<Validator>)
    ensures Increasing(Kept(vals)) && forall j :: 0 <= j < |Kept(vals)| ==> Kept(vals)[j] < |vals|
  {
    if vals != [] {
      KeptIncreasing(vals[..|vals| - 1]);
    }
  }

  lemma {:induction false} DedupAtKept(vals: seq<Validator>)
    ensures |Dedup(vals)| == |Kept(vals)|
    ensures forall j :: 0 <= j < |Kept(vals)| ==> Kept(vals)[j] < |vals| && Dedup(vals)[j] == vals[Kept(vals)[j]]
  {
    if |vals| == 1 {
      assert vals[..0] == [];
      assert Kept(vals) == [0];
    } else if |vals| > 1 {
      DedupAtKept(vals[..|vals| - 1]);
    }
  }

  lemma {:induction false} DedupHasNoRepetition(vals: seq<Validator>)
    ensures vals != [] ==> Dedup(vals) != [] && Dedup(vals)[|Dedup(vals)| - 1] == vals[|vals| - 1]
    ensures forall j :: 0 < j < |Dedup(vals)| ==> Dedup(vals)[j] != Dedup(vals)[j - 1]
  {
    if |vals| > 1 {
      DedupHasNoRepetition(vals[..|vals| - 1]);
    }
  }

  /** The set is what was given at exactly the positions that differ from the one before,
      in order, and no two neighbours in it are equal. */
  lemma DedupKeepsExactly(vals: seq<Validator>)
    ensures Increasing(Kept(vals)) && forall i: nat :: i in Kept(vals) <==> DiffersFromPrevious(vals, i)
    ensures |Dedup(vals)| == |Kept(vals)|
    ensures forall j :: 0 <= j < |Kept(vals)| ==> Kept(vals)[j] < |vals| && Dedup(vals)[j] == vals[Kept(vals)[j]]
    ensures forall j :: 0 < j < |Dedup(vals)| ==> Dedup(vals)[j] != Dedup(vals)[j - 1]
  {
    KeptIncreasing(vals);
    forall i: nat ensures i in Kept(vals) <==> DiffersFromPrevious(vals, i) {
      KeptIff(vals, i);
    }
    DedupAtKept(vals);
    DedupHasNoRepetition(vals);
  }

  lemma {:induction false} LookupInAppend(vals: seq<Validator>, last: Validator, address: Address)
    ensures GetByAddress(vals + [last], address) ==
            if GetByAddress(vals, address).Some? then GetByAddress(vals, address)
            else if last.address == address then Some(last) else None
  {
    if vals == [] {
      assert (vals + [last])[1..] == [];
    } else {
      assert (vals + [last])[1..] == vals[1..] + [last];
      LookupInAppend(vals[1..], last, address);
    }
  }

  /** Building the set changes no lookup by address. */
  lemma {:induction false} DedupKeepsLookups(vals: seq<Validator>, address: Address)
    ensures GetByAddress(Dedup(vals), address) == GetByAddress(vals, address)
  {
    if |vals| > 1 {
      var n := |vals| - 1;
      DedupKeepsLookups(vals[..n], address);
      assert vals == vals[..n] + [vals[n]] && vals[..n] == vals[..n - 1] + [vals[n - 1]];
      LookupInAppend(vals[..n], vals[n], address);
      LookupInAppend(Dedup(vals[..n]), vals[n], address);
      LookupInAppend(vals[..n - 1], vals[n - 1], address);
    }
  }

  ghost predicate SortedByAddress(vals: seq<Validator>) {
    forall i :: 0 < i < |vals| ==> vals[i - 1].address <= vals[i].address
  }

  lemma SortedAppend(vals: seq<Validator>, last: Validator)
    requires vals != []
    ensures SortedByAddress(vals + [last]) <==>
            SortedByAddress(vals) && vals[|vals| - 1].address <= last.address
  {
    var all := vals + [last];
    if SortedByAddress(all) {
      assert all[|vals| - 1].address <= all[|vals|].address;
      forall i | 0 < i < |vals| ensures vals[i - 1].address <= vals[i].address {
        assert all[i - 1].address <= all[i].address;
      }
    }
  }

  /** The set comes out sorted by address if and only if it was given sorted. */
  lemma {:induction false} SortedOnlyIfGivenSorted(vals: seq<Validator>)
    ensures vals != [] ==> Dedup(vals) != [] && Dedup(vals)[|Dedup(vals)| - 1] == vals[|vals| - 1]
    ensures SortedByAddress(Dedup(vals)) <==> SortedByAddress(vals)
  {
    if |vals| > 1 {
      var n := |vals| - 1;
      SortedOnlyIfGivenSorted(vals[..n]);
      assert vals == vals[..n] + [vals[n]];
      SortedAppend(vals[..n], vals[n]);
      SortedAppend(Dedup(vals[..n]), vals[n]);
    }
  }
}
