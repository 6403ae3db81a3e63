/** The transaction spammer: its rate-limited sending loop and its accounting. */
module Spammer {
  import opened Arithmetic

  // ------------------------------------------------------------ sending loop

  /** Limits; zero means no limit on the number of transactions or on the time. */
  datatype Limits = Limits(maxNumTxs: nat, maxTime: nat, maxRate: nat)

  /** The exit test made before each transaction and after each tick. */
  predicate Finished(limits: Limits, sent: nat, elapsed: nat) {
    (limits.maxNumTxs > 0 && sent >= limits.maxNumTxs) || (limits.maxTime > 0 && elapsed >= limits.maxTime)
  }

  /** Each nonce from `from` on, once and in order. */
  ghost predicate Consecutive(nonces: seq<nat>, from: nat) {
    forall i :: 0 <= i < |nonces| ==> nonces[i] == from + i
  }

  /** What the first `n` batches hold together. */
  function TotalOf(batches: seq<nat>, n: nat): nat
    requires n <= |batches|
  {
    if n == 0 then 0 else TotalOf(batches, n - 1) + batches[n - 1]
  }

  function Total(batches: seq<nat>): nat {
    TotalOf(batches, |batches|)
  }

  lemma {:induction false} TotalOfAppend(batches: seq<nat>, last: nat, n: nat)
    requires n <= |batches|
    ensures TotalOf(batches + [last], n) == TotalOf(batches, n)
  {
    if n > 0 {
      TotalOfAppend(batches, last, n - 1);
    }
  }

  lemma TotalAppend(batches: seq<nat>, last: nat)
    ensures Total(batches + [last]) == Total(batches) + last
  {
    TotalOfAppend(batches, last, |batches|);
  }

  /** From `before` to `after` transactions in one tick: none is sent once the number or the
      time is reached, and only then are there fewer than the rate allows. */
  ghost predicate BatchFits(limits: Limits, clock: (nat, nat) -> nat, tick: nat, before: nat, after: nat) {
    && before <= after <= before + limits.maxRate
    && (limits.maxNumTxs > 0 && before < after ==> after <= limits.maxNumTxs)
    && (limits.maxTime > 0 ==> forall k :: before <= k < after ==> clock(tick, k) < limits.maxTime)
    && (after < before + limits.maxRate ==>
          || (limits.maxNumTxs > 0 && after >= limits.maxNumTxs)
          || (limits.maxTime > 0 && clock(tick, after) >= limits.maxTime))
  }

  /** The transactions of one tick: as many as the rate allows until the exit test holds.
      `clock` tells the seconds elapsed in a tick when a number of transactions has been sent. */
  method SendBatch(limits: Limits, nonce: nat, total: nat, clock: (nat, nat) -> nat, tick: nat)
    returns (nonces: seq<nat>, sentTotal: nat)
    ensures Consecutive(nonces, nonce) && sentTotal == total + |nonces|
    ensures BatchFits(limits, clock, tick, total, sentTotal)
  {
    nonces := [];
    sentTotal := total;
    var txsSentInInterval := 0;
    var next := nonce;
    while txsSentInInterval < limits.maxRate
      invariant txsSentInInterval == |nonces| <= limits.maxRate
      invariant sentTotal == total + |nonces| && next == nonce + |nonces|
      invariant Consecutive(nonces, nonce)
      invariant limits.maxTime > 0 ==> forall k :: total <= k < sentTotal ==> clock(tick, k) < limits.maxTime
      invariant limits.maxNumTxs > 0 && |nonces| > 0 ==> sentTotal <= limits.maxNumTxs
    {
      if Finished(limits, sentTotal, clock(tick, sentTotal)) {
        break;
      }
      nonces := nonces + [next];
      txsSentInInterval := txsSentInInterval + 1;
      next := next + 1;
      sentTotal := sentTotal + 1;
    }
  }

  function Min(a: nat, b: nat): nat { if a < b then a else b }

  /** The number of transactions in a number of full batches. */
  function FullBatches(ticks: nat, rate: nat): nat {
    if ticks == 0 then 0 else FullBatches(ticks - 1, rate) + rate
  }

  lemma {:induction false} FullBatchesIsProduct(ticks: nat, rate: nat)
    ensures FullBatches(ticks, rate) == ticks * rate
  {
    if ticks > 0 {
      FullBatchesIsProduct(ticks - 1, rate);
      assert ticks * rate == (ticks - 1) * rate + rate;
    }
  }

  /** Without a time limit, what the loop has sent after a number of ticks, and whether it is done. */
  ghost predicate Paced(limits: Limits, sent: nat, ticks: nat, finished: bool) {
    limits.maxTime == 0 && limits.maxNumTxs > 0 && limits.maxRate > 0 ==>
      && sent == Min(limits.maxNumTxs, FullBatches(ticks, limits.maxRate))
      && (finished <==> ticks > 0 && FullBatches(ticks, limits.maxRate) >= limits.maxNumTxs)
      && (finished ==> FullBatches(ticks - 1, limits.maxRate) < limits.maxNumTxs)
  }

  ghost predicate NoneAbove(batches: seq<nat>, rate: nat) {
    forall i :: 0 <= i < |batches| ==> batches[i] <= rate
  }

  lemma ConsecutiveAppend(earlier: seq<nat>, later: seq<nat>, from: nat)
    requires Consecutive(earlier, from) && Consecutive(later, from + |earlier|)
    ensures Consecutive(earlier + later, from)
  {
  }

  lemma NoneAboveAppend(batches: seq<nat>, last: nat, rate: nat)
    requires NoneAbove(batches, rate) && last <= rate
    ensures NoneAbove(batches + [last], rate)
  {
  }

  lemma PacedNext(limits: Limits, before: nat, sent: nat, ticks: nat, elapsed: nat)
    requires Paced(limits, before, ticks, false) && before <= sent <= before + limits.maxRate
    requires limits.maxNumTxs > 0 ==> sent <= limits.maxNumTxs
    requires limits.maxTime == 0 ==> sent == before + limits.maxRate || Finished(limits, sent, 0)
    ensures Paced(limits, sent, ticks + 1, Finished(limits, sent, elapsed))
  {
  }

  /** What has been sent, batch by batch, after a number of ticks. */
  ghost predicate SentSoFar(limits: Limits, from: nat, nonces: seq<nat>, batches: seq<nat>) {
    && Consecutive(nonces, from) && Total(batches) == |nonces|
    && NoneAbove(batches, limits.maxRate)
    && (limits.maxNumTxs > 0 ==> |nonces| <= limits.maxNumTxs)
  }

  lemma SentNext(limits: Limits, from: nat, nonces: seq<nat>, batches: seq<nat>, batch: seq<nat>)
    requires SentSoFar(limits, from, nonces, batches)
    requires Consecutive(batch, from + |nonces|) && |batch| <= limits.maxRate
    requires limits.maxNumTxs > 0 && |batch| > 0 ==> |nonces| + |batch| <= limits.maxNumTxs
    ensures SentSoFar(limits, from, nonces + batch, batches + [|batch|])
  {
    ConsecutiveAppend(nonces, batch, from);
    TotalAppend(batches, |batch|);
    NoneAboveAppend(batches, |batch|, limits.maxRate);
  }

  /** One tick: a batch, then the exit test. */
  method Tick(limits: Limits, nonce: nat, sent: nat, clock: (nat, nat) -> nat, elapsed: nat, tick: nat)
    returns (batch: seq<nat>, total: nat, finished: bool)
    requires Paced(limits, sent, tick, false) && (limits.maxNumTxs > 0 ==> sent <= limits.maxNumTxs)
    ensures Consecutive(batch, nonce) && total == sent + |batch| && BatchFits(limits, clock, tick, sent, total)
    ensures finished <==>
              || (limits.maxNumTxs > 0 && total >= limits.maxNumTxs)
              || (limits.maxTime > 0 && elapsed >= limits.maxTime)
    ensures Paced(limits, total, tick + 1, finished)
  {
    batch, total := SendBatch(limits, nonce, sent, clock, tick);
    finished := Finished(limits, total, elapsed);
    PacedNext(limits, sent, total, tick, elapsed);
  }

  /** No limit is reached after the i-th tick. */
  ghost predicate GoesOnAfter(limits: Limits, clockAfter: nat -> nat, batches: seq<nat>, i: nat)
    requires i < |batches|
  {
    && (limits.maxNumTxs > 0 ==> TotalOf(batches, i + 1) < limits.maxNumTxs)
    && (limits.maxTime > 0 ==> clockAfter(i) < limits.maxTime)
  }

  /** Every tick sends what the limits and the clock allow, and the loop ends exactly after
      the first tick that reaches a limit. */
  ghost predicate KeepsLimits(limits: Limits, clock: (nat, nat) -> nat, clockAfter: nat -> nat, batches: seq<nat>,
                              finished: bool)
  {
    && (forall i {:trigger TickFits(limits, clock, batches, i)} :: 0 <= i < |batches| ==>
          TickFits(limits, clock, batches, i))
    && (forall i {:trigger GoesOnAfter(limits, clockAfter, batches, i)} ::
          0 <= i < |batches| && (i < |batches| - 1 || !finished) ==>
          GoesOnAfter(limits, clockAfter, batches, i))
    && (finished ==> batches != [] && !GoesOnAfter(limits, clockAfter, batches, |batches| - 1))
  }

  ghost predicate TickFits(limits: Limits, clock: (nat, nat) -> nat, batches: seq<nat>, i: nat)
    requires i < |batches|
  {
    BatchFits(limits, clock, i, TotalOf(batches, i), TotalOf(batches, i + 1))
  }

  lemma EarlierTick(limits: Limits, clock: (nat, nat) -> nat, clockAfter: nat -> nat, batches: seq<nat>, batch: nat,
                    i: nat)
    requires i < |batches| && TickFits(limits, clock, batches, i) && GoesOnAfter(limits, clockAfter, batches, i)
    ensures TickFits(limits, clock, batches + [batch], i) && GoesOnAfter(limits, clockAfter, batches + [batch], i)
  {
    TotalOfAppend(batches, batch, i);
    TotalOfAppend(batches, batch, i + 1);
  }

  lemma KeepsLimitsNext(limits: Limits, clock: (nat, nat) -> nat, clockAfter: nat -> nat, batches: seq<nat>,
                        batch: nat, finished: bool)
    requires KeepsLimits(limits, clock, clockAfter, batches, false)
    requires BatchFits(limits, clock, |batches|, Total(batches), Total(batches) + batch)
    requires finished <==>
               || (limits.maxNumTxs > 0 && Total(batches) + batch >= limits.maxNumTxs)
               || (limits.maxTime > 0 && clockAfter(|batches|) >= limits.maxTime)
    ensures KeepsLimits(limits, clock, clockAfter, batches + [batch], finished)
  {
    LastTick(limits, clock, clockAfter, batches, batch);
    forall i | 0 <= i < |batches| {
      EarlierTick(limits, clock, clockAfter, batches, batch, i);
    }
  }

  lemma LastTick(limits: Limits, clock: (nat, nat) -> nat, clockAfter: nat -> nat, batches: seq<nat>, batch: nat)
    requires BatchFits(limits, clock, |batches|, Total(batches), Total(batches) + batch)
    ensures TickFits(limits, clock, batches + [batch], |batches|)
    ensures GoesOnAfter(limits, clockAfter, batches + [batch], |batches|) <==>
            && (limits.maxNumTxs > 0 ==> Total(batches) + batch < limits.maxNumTxs)
            && (limits.maxTime > 0 ==> clockAfter(|batches|) < limits.maxTime)
  {
    TotalOfAppend(batches, batch, |batches|);
  }

  /** Without any limit the loop never ends and every tick sends what the rate allows. */
  lemma NoLimits(limits: Limits, clock: (nat, nat) -> nat, clockAfter: nat -> nat, batches: seq<nat>, finished: bool)
    requires KeepsLimits(limits, clock, clockAfter, batches, finished)
    requires limits.maxNumTxs == 0 && limits.maxTime == 0
    ensures !finished && forall i :: 0 <= i < |batches| ==> batches[i] == limits.maxRate
  {
    forall i | 0 <= i < |batches| ensures batches[i] == limits.maxRate {
      assert TickFits(limits, clock, batches, i);
    }
  }

  /** With a time limit only, the loop ends exactly after the first tick whose reading
      reaches it, and a tick all of whose readings are below it sends what the rate allows. */
  lemma OnlyTimeLimit(limits: Limits, clock: (nat, nat) -> nat, clockAfter: nat -> nat, batches: seq<nat>,
                      finished: bool)
    requires KeepsLimits(limits, clock, clockAfter, batches, finished)
    requires limits.maxNumTxs == 0 && limits.maxTime > 0
    ensures finished <==> batches != [] && clockAfter(|batches| - 1) >= limits.maxTime
    ensures forall i :: 0 <= i < |batches| - 1 ==> clockAfter(i) < limits.maxTime
    ensures forall i :: 0 <= i < |batches| && (forall k :: clock(i, k) < limits.maxTime) ==>
              batches[i] == limits.maxRate
  {
    forall i | 0 <= i < |batches| && forall k :: clock(i, k) < limits.maxTime
      ensures batches[i] == limits.maxRate
    {
      assert TickFits(limits, clock, batches, i);
      assert clock(i, TotalOf(batches, i + 1)) < limits.maxTime;
    }
    forall i | 0 <= i < |batches| - 1 ensures clockAfter(i) < limits.maxTime {
      assert GoesOnAfter(limits, clockAfter, batches, i);
    }
    if batches != [] && !finished {
      assert GoesOnAfter(limits, clockAfter, batches, |batches| - 1);
    }
  }

  /** Without a time limit, the loop is done exactly when the full batches of its ticks
      would reach the number of transactions; it has then sent exactly that number, and
      it takes the rounded-up quotient of ticks. */
  lemma TicksNeeded(limits: Limits, sent: nat, ticks: nat, finished: bool)
    requires limits.maxTime == 0 && limits.maxNumTxs > 0 && limits.maxRate > 0
    requires Paced(limits, sent, ticks, finished)
    ensures finished <==> ticks > 0 && ticks * limits.maxRate >= limits.maxNumTxs
    ensures finished ==>
              && sent == limits.maxNumTxs
              && ticks == (limits.maxNumTxs + limits.maxRate - 1) / limits.maxRate
  {
    FullBatchesIsProduct(ticks, limits.maxRate);
    if finished {
      FullBatchesIsProduct(ticks - 1, limits.maxRate);
      QuotientOf(limits.maxRate, ticks,
                 limits.maxNumTxs + limits.maxRate - 1 - FullBatches(ticks, limits.maxRate));
    }
  }

  lemma EnoughTicks(limits: Limits, sent: nat, used: nat, ticks: nat, finished: bool)
    requires Paced(limits, sent, used, finished) && used <= ticks && (!finished ==> used == ticks)
    ensures limits.maxTime == 0 && limits.maxNumTxs > 0 && limits.maxRate > 0 ==>
              && (finished <==> ticks > 0 && ticks * limits.maxRate >= limits.maxNumTxs)
              && (finished ==>
                    && sent == limits.maxNumTxs
                    && used == (limits.maxNumTxs + limits.maxRate - 1) / limits.maxRate)
  {
    if limits.maxTime == 0 && limits.maxNumTxs > 0 && limits.maxRate > 0 {
      TicksNeeded(limits, sent, used, finished);
      if finished {
        MultipleBounds(limits.maxRate, ticks - used);
        assert ticks * limits.maxRate == used * limits.maxRate + limits.maxRate * (ticks - used);
      }
    }
  }

  /** The first `ticks` seconds of the spammer, or fewer when it finishes earlier. Without
      errors it sends each nonce from the latest on exactly once, in order and at most
      `maxRate` a tick; without a time limit it has sent `ticks * maxRate` transactions
      or reached its number, and it finishes, given enough ticks, exactly at the tick
      that reaches it. */
  method Spam(limits: Limits, latestNonce: nat, clock: (nat, nat) -> nat, clockAfter: nat -> nat, ticks: nat)
    returns (nonces: seq<nat>, batches: seq<nat>, finished: bool)
    ensures SentSoFar(limits, latestNonce, nonces, batches)
    ensures !finished ==> |batches| == ticks
    ensures KeepsLimits(limits, clock, clockAfter, batches, finished)
    ensures Paced(limits, |nonces|, |batches|, finished)
    ensures limits.maxTime == 0 && limits.maxNumTxs > 0 && limits.maxRate > 0 ==>
              && (finished <==> ticks > 0 && ticks * limits.maxRate >= limits.maxNumTxs)
              && (finished ==>
                    && |nonces| == limits.maxNumTxs
                    && |batches| == (limits.maxNumTxs + limits.maxRate - 1) / limits.maxRate)
  {
    nonces, batches, finished := [], [], false;
    while |batches| < ticks && !finished
      invariant |batches| <= ticks
      invariant SentSoFar(limits, latestNonce, nonces, batches)
      invariant Paced(limits, |nonces|, |batches|, finished)
      invariant KeepsLimits(limits, clock, clockAfter, batches, finished)
      decreases ticks - |batches|, !finished
    {
      var n := |batches|;
      var batch, total;
      batch, total, finished := Tick(limits, latestNonce + |nonces|, |nonces|, clock, clockAfter(n), n);
      SentNext(limits, latestNonce, nonces, batches, batch);
      KeepsLimitsNext(limits, clock, clockAfter, batches, |batch|, finished);
      nonces := nonces + batch;
      batches := batches + [|batch|];
    }
    EnoughTicks(limits, |nonces|, |batches|, ticks, finished);
  }

  // -------------------------------------------------------------- accounting

  /** The counters as a value: successes, bytes, and failures by message. */
  datatype Counts = Counts(succeed: nat, bytes: nat, errors: map<string, nat>)

  const NO_COUNTS := Counts(0, 0, map[])

  function CountOf(m: map<string, nat>, k: string): nat {
    if k in m then m[k] else 0
  }

  class Stats {
    var succeed: nat
    var bytes: nat
    var errorsCounter: map<string, nat>

    ghost function View(): Counts
      reads this
    {
      Counts(succeed, bytes, errorsCounter)
    }

    constructor ()
      ensures View() == NO_COUNTS
    {
      succeed, bytes, errorsCounter := 0, 0, map[];
    }

    method IncrOk(txLength: nat)
      modifies this
      ensures View() == Counts(old(succeed) + 1, old(bytes) + txLength, old(errorsCounter))
    {
      succeed := succeed + 1;
      bytes := bytes + txLength;
    }

    method IncrErr(error: string)
      modifies this
      ensures View() == Counts(old(succeed), old(bytes),
                               old(errorsCounter)[error := CountOf(old(errorsCounter), error) + 1])
    {
      errorsCounter := errorsCounter[error := if error in errorsCounter then errorsCounter[error] + 1 else 1];
    }

    /** Adds another set of counters, message by message. */
    method Add(other: Stats)
      requires other != this
      modifies this
      ensures succeed == old(succeed) + other.succeed && bytes == old(bytes) + other.bytes
      ensures errorsCounter.Keys == old(errorsCounter).Keys + other.errorsCounter.Keys
      ensures forall e :: CountOf(errorsCounter, e) == CountOf(old(errorsCounter), e) + CountOf(other.errorsCounter, e)
    {
      succeed := succeed + other.succeed;
      bytes := bytes + other.bytes;
      var todo := other.errorsCounter.Keys;
      while todo != {}
        invariant todo <= other.errorsCounter.Keys
        invariant succeed == old(succeed) + other.succeed && bytes == old(bytes) + other.bytes
        invariant errorsCounter.Keys == old(errorsCounter).Keys + (other.errorsCounter.Keys - todo)
        invariant forall e :: CountOf(errorsCounter, e) ==
                    CountOf(old(errorsCounter), e) + (if e in todo then 0 else CountOf(other.errorsCounter, e))
        decreases todo
      {
        var error :| error in todo;
        var count := other.errorsCounter[error];
        errorsCounter := errorsCounter[error := if error in errorsCounter then errorsCounter[error] + count else count];
        todo := todo - {error};
      }
    }

    method Reset()
      modifies this
      ensures View() == NO_COUNTS
    {
      succeed, bytes, errorsCounter := 0, 0, map[];
    }
  }

  /** What the tracker is woken up by. A report fails when the pool cannot be queried. */
  datatype Wake = Sent(txLength: nat) | Failed(error: string) | Report(poolQueried: bool) | Finish

  /** The messages the tracker processes before it stops. */
  function Processed(wakes: seq<Wake>): seq<Wake> {
    if wakes == [] || wakes[0].Finish? || wakes[0] == Report(false) then []
    else [wakes[0]] + Processed(wakes[1..])
  }

  function Successes(wakes: seq<Wake>): nat {
    if wakes == [] then 0
    else Successes(wakes[..|wakes| - 1]) + (if wakes[|wakes| - 1].Sent? then 1 else 0)
  }

  function BytesSent(wakes: seq<Wake>): nat {
    if wakes == [] then 0
    else
      var last := wakes[|wakes| - 1];
      BytesSent(wakes[..|wakes| - 1]) + (if last.Sent? then last.txLength else 0)
  }

  function Failures(wakes: seq<Wake>, error: string): nat {
    if wakes == [] then 0
    else Failures(wakes[..|wakes| - 1], error) + (if wakes[|wakes| - 1] == Failed(error) then 1 else 0)
  }

  /** The counters are those of the results among some wake-ups. */
  ghost predicate CountersOf(counts: Counts, wakes: seq<Wake>) {
    && counts.succeed == Successes(wakes)
    && counts.bytes == BytesSent(wakes)
    && forall e :: CountOf(counts.errors, e) == Failures(wakes, e)
  }

  /** How many of the wake-ups are up to the last report, that report included. */
  function UpToReport(wakes: seq<Wake>): (n: nat)
    ensures n <= |wakes|
  {
    if wakes == [] then 0
    else if wakes[|wakes| - 1].Report? then |wakes|
    else UpToReport(wakes[..|wakes| - 1])
  }

  /** The totals are of all results up to the last report, the recent counters of all
      results since. */
  ghost predicate Accounts(total: Counts, recent: Counts, wakes: seq<Wake>) {
    var n := UpToReport(wakes);
    CountersOf(total, wakes[..n]) && CountersOf(recent, wakes[n..])
  }

  lemma {:induction false} ResultsAppend(first: seq<Wake>, second: seq<Wake>, error: string)
    ensures Successes(first + second) == Successes(first) + Successes(second)
    ensures BytesSent(first + second) == BytesSent(first) + BytesSent(second)
    ensures Failures(first + second, error) == Failures(first, error) + Failures(second, error)
    decreases |second|
  {
    var all := first + second;
    if second == [] {
      assert all == first;
    } else {
      var n := |second| - 1;
      ResultsAppend(first, second[..n], error);
      assert all[..|all| - 1] == first + second[..n] && all[|all| - 1] == second[n];
    }
  }

  /** The two sets of counters together account for every result received, per message. */
  lemma AccountsAddUp(total: Counts, recent: Counts, wakes: seq<Wake>)
    requires Accounts(total, recent, wakes)
    ensures total.succeed + recent.succeed == Successes(wakes) && total.bytes + recent.bytes == BytesSent(wakes)
    ensures forall e :: CountOf(total.errors, e) + CountOf(recent.errors, e) == Failures(wakes, e)
  {
    var n := UpToReport(wakes);
    assert wakes[..n] + wakes[n..] == wakes;
    ResultsAppend(wakes[..n], wakes[n..], "");
    forall e ensures CountOf(total.errors, e) + CountOf(recent.errors, e) == Failures(wakes, e) {
      ResultsAppend(wakes[..n], wakes[n..], e);
    }
  }

  lemma NothingYet(total: Counts, recent: Counts, wakes: seq<Wake>)
    requires total == recent == NO_COUNTS && wakes == []
    ensures Accounts(total, recent, wakes)
  {
  }

  lemma CountersNext(counts: Counts, after: Counts, wakes: seq<Wake>, wake: Wake)
    requires CountersOf(counts, wakes) && (wake.Sent? || wake.Failed?)
    requires wake.Sent? ==> after == Counts(counts.succeed + 1, counts.bytes + wake.txLength, counts.errors)
    requires wake.Failed? ==>
               after == Counts(counts.succeed, counts.bytes,
                               counts.errors[wake.error := CountOf(counts.errors, wake.error) + 1])
    ensures CountersOf(after, wakes + [wake])
  {
    assert (wakes + [wake])[..|wakes|] == wakes;
  }

  /** A result joins the recent counters. */
  lemma ResultCounted(total: Counts, recent: Counts, after: Counts, before: seq<Wake>, wake: Wake)
    requires Accounts(total, recent, before) && (wake.Sent? || wake.Failed?)
    requires wake.Sent? ==> after == Counts(recent.succeed + 1, recent.bytes + wake.txLength, recent.errors)
    requires wake.Failed? ==>
               after == Counts(recent.succeed, recent.bytes,
                               recent.errors[wake.error := CountOf(recent.errors, wake.error) + 1])
    ensures Accounts(total, after, before + [wake])
  {
    var n, all := UpToReport(before), before + [wake];
    CountersNext(recent, after, before[n..], wake);
    assert all[..|before|] == before;
    assert UpToReport(all) == n && all[..n] == before[..n] && all[n..] == before[n..] + [wake];
  }

  /** A report moves the recent counters to the totals. */
  lemma ReportCounted(total: Counts, recent: Counts, added: Counts, before: seq<Wake>, wake: Wake)
    requires Accounts(total, recent, before) && wake.Report?
    requires added.succeed == total.succeed + recent.succeed && added.bytes == total.bytes + recent.bytes
    requires forall e :: CountOf(added.errors, e) == CountOf(total.errors, e) + CountOf(recent.errors, e)
    ensures Accounts(added, NO_COUNTS, before + [wake])
  {
    var all := before + [wake];
    AccountsAddUp(total, recent, before);
    assert all[..|before|] == before;
    assert all[..|all|] == all && all[|all|..] == [];
  }

  /** One pass of the tracker's loop; false when it stops there. */
  method HandleWake(total: Stats, recent: Stats, wake: Wake, ghost before: seq<Wake>) returns (goesOn: bool)
    requires total != recent && Accounts(total.View(), recent.View(), before)
    modifies total, recent
    ensures goesOn <==> !wake.Finish? && wake != Report(false)
    ensures Accounts(total.View(), recent.View(), if goesOn then before + [wake] else before)
  {
    goesOn := true;
    ghost var t, r := total.View(), recent.View();
    match wake {
      case Sent(txLength) =>
        recent.IncrOk(txLength);
        ResultCounted(t, r, recent.View(), before, wake);
      case Failed(error) =>
        recent.IncrErr(error);
        ResultCounted(t, r, recent.View(), before, wake);
      case Report(poolQueried) =>
        if !poolQueried {
          return false;
        }
        total.Add(recent);
        ghost var added := total.View();
        recent.Reset();
        ReportCounted(t, r, added, before, wake);
      case Finish => return false;
    }
  }

  /** What is processed is everything up to the first wake-up that stops the tracker. */
  lemma {:induction false} ProcessedIsMaximal(wakes: seq<Wake>)
    ensures var n := |Processed(wakes)|;
            && n <= |wakes| && Processed(wakes) == wakes[..n]
            && (forall i :: 0 <= i < n ==> !wakes[i].Finish? && wakes[i] != Report(false))
            && (n < |wakes| ==> wakes[n].Finish? || wakes[n] == Report(false))
  {
    if wakes != [] && !wakes[0].Finish? && wakes[0] != Report(false) {
      ProcessedIsMaximal(wakes[1..]);
    }
  }

  /** `done` has been processed; `queue` remains, unless the tracker has stopped. */
  ghost predicate Continues(wakes: seq<Wake>, done: seq<Wake>, queue: seq<Wake>, goesOn: bool) {
    Processed(wakes) == if goesOn then done + Processed(queue) else done
  }

  lemma ContinuesStart(wakes: seq<Wake>, none: seq<Wake>)
    requires none == []
    ensures Continues(wakes, none, wakes, true)
  {
    assert none + Processed(wakes) == Processed(wakes);
  }

  lemma ContinuesNext(wakes: seq<Wake>, done: seq<Wake>, queue: seq<Wake>)
    requires queue != [] && Continues(wakes, done, queue, true)
    ensures if queue[0].Finish? || queue[0] == Report(false) then Continues(wakes, done, queue, false)
            else Continues(wakes, done + [queue[0]], queue[1..], true)
  {
    assert done + ([queue[0]] + Processed(queue[1..])) == done + [queue[0]] + Processed(queue[1..]);
    assert done + [] == done;
  }

  lemma AccountsAtEnd(wakes: seq<Wake>, done: seq<Wake>, queue: seq<Wake>, goesOn: bool, total: Counts, recent: Counts)
    requires Continues(wakes, done, queue, goesOn) && (goesOn ==> queue == [])
    requires Accounts(total, recent, done)
    ensures Accounts(total, recent, Processed(wakes))
  {
    assert done + [] == done;
    assert Processed(wakes) == done;
  }

  /** Processes one wake-up and moves on in the queue. */
  method TrackNext(total: Stats, recent: Stats, ghost wakes: seq<Wake>, ghost done: seq<Wake>, queue: seq<Wake>)
    returns (goesOn: bool)
    requires total != recent && queue != []
    requires Accounts(total.View(), recent.View(), done) && Continues(wakes, done, queue, true)
    modifies total, recent
    ensures var next := if goesOn then done + [queue[0]] else done;
            && Accounts(total.View(), recent.View(), next)
            && Continues(wakes, next, if goesOn then queue[1..] else queue, goesOn)
  {
    ContinuesNext(wakes, done, queue);
    goesOn := HandleWake(total, recent, queue[0], done);
  }

  /** The tracker's loop, from empty counters. */
  method TrackAll(total: Stats, recent: Stats, wakes: seq<Wake>)
    requires total != recent && total.View() == recent.View() == NO_COUNTS
    modifies total, recent
    ensures Accounts(total.View(), recent.View(), Processed(wakes))
  {
    var queue, goesOn := wakes, true;
    ghost var done := wakes[..0];
    ContinuesStart(wakes, done);
    NothingYet(total.View(), recent.View(), done);
    while goesOn && queue != []
      invariant Accounts(total.View(), recent.View(), done)
      invariant Continues(wakes, done, queue, goesOn)
      decreases |queue|, goesOn
    {
      goesOn := TrackNext(total, recent, wakes, done, queue);
      done := if goesOn then done + [queue[0]] else done;
      queue := if goesOn then queue[1..] else queue;
    }
    AccountsAtEnd(wakes, done, queue, goesOn, total.View(), recent.View());
  }

  /** In every interleaving of results and reports, the tracker has totalled the results
      received up to the last report and counted those received since. */
  method Tracker(wakes: seq<Wake>) returns (total: Stats, recent: Stats)
    ensures Accounts(total.View(), recent.View(), Processed(wakes))
  {
    total := new Stats();
    recent := new Stats();
    TrackAll(total, recent, wakes);
  }
}
