/** How long what has been stored can be relied on: an undecided entry is written
    once and pruned once, and a decided block stays available while it is kept. */
module Stability {
  import opened Types
  import opened ProposalStream
  import opened Store
  import opened Node
  import opened NodeRuns
  import opened TableAgreement

  /** An undecided entry is either kept as it is or below the heights retained by a commit. */
  ghost predicate KeptOrPruned<V>(before: map<RoundKey, V>, after: map<RoundKey, V>, event: Event) {
    forall k :: k in before ==>
      if k in after then after[k] == before[k]
      else event.Decided? && k.0 < SaturatingSub(event.certificate.height, 5)
  }

  lemma CommitKeepsUndecided(s: NodeState, event: Event)
    requires event.Decided?
    ensures var s' := Commit(s, event.certificate).0;
            && KeptOrPruned(s.store.undecidedProposals, s'.store.undecidedProposals, event)
            && KeptOrPruned(s.store.undecidedBlocks, s'.store.undecidedBlocks, event)
  {
    forall k: RoundKey ensures KeyBefore(k, (SaturatingSub(event.certificate.height, 5), Nil)) <==>
                               k.0 < SaturatingSub(event.certificate.height, 5) {
      NilBoundIsHeightBound(k, SaturatingSub(event.certificate.height, 5));
    }
  }

  lemma InsertsKeepUndecided(t: Tables, p: ProposedValue, height: Height, round: Round, data: Bytes, event: Event)
    ensures var t' := InsertUndecidedBlock(InsertUndecidedProposal(t, p), height, round, data);
            && KeptOrPruned(t.undecidedProposals, t'.undecidedProposals, event)
            && KeptOrPruned(t.undecidedBlocks, t'.undecidedBlocks, event)
  {
  }

  lemma NoChangeKeepsUndecided(t: Tables, event: Event)
    ensures KeptOrPruned(t.undecidedProposals, t.undecidedProposals, event)
    ensures KeptOrPruned(t.undecidedBlocks, t.undecidedBlocks, event)
  {
  }

  /** In every step of any node, an undecided entry never changes between its first
      insertion and its pruning. */
  lemma UndecidedNeverChanges(cfg: Config, s: NodeState, event: Event)
    ensures var s' := Step(cfg, s, event).0;
            && KeptOrPruned(s.store.undecidedProposals, s'.store.undecidedProposals, event)
            && KeptOrPruned(s.store.undecidedBlocks, s'.store.undecidedBlocks, event)
  {
    NoChangeKeepsUndecided(s.store, event);
    match event {
      case ConsensusReady(_, _) =>
      case StartedRound(_, _, _) =>
      case GetValue(height, round, _, _) =>
        ProposeOutcomes(cfg, s, event);
        var block := BuiltBlock(s, event);
        if block.Some? {
          InsertsKeepUndecided(s.store, OwnProposal(cfg, height, round, block.value), height, round,
                               cfg.encode(block.value), event);
        }
      case ReceivedProposalPart(from, part) =>
        ReceiveOutcomes(cfg, s, from, part);
        var stored := StoredProposal(cfg, s, event);
        if stored.Some? {
          InsertsKeepUndecided(s.store, Assemble(cfg.crypto, stored.value), s.currentHeight, s.currentRound,
                               DataOf(stored.value.parts), event);
        }
      case Decided(certificate, status, head) =>
        DecideOutcomes(cfg, s, certificate, status, head);
        var found := DecidedBlock(cfg, s, certificate);
        if found.Some? {
          CommitKeepsUndecided(Counted(s, found.value.0, found.value.1), event);
        }
    }
  }

  lemma DecideAddsNoUndecided(cfg: Config, s: NodeState, event: Event)
    requires event.Decided?
    ensures Step(cfg, s, event).0.store.undecidedProposals.Keys <= s.store.undecidedProposals.Keys
    ensures Step(cfg, s, event).0.store.undecidedBlocks.Keys <= s.store.undecidedBlocks.Keys
  {
    DecideOutcomes(cfg, s, event.certificate, event.status, event.head);
  }

  /** Whatever a step adds to the undecided tables is at the current height or above. */
  ghost predicate AddsFrom<V>(before: map<RoundKey, V>, after: map<RoundKey, V>, height: Height) {
    forall k :: k in after && k !in before ==> height <= k.0
  }

  lemma InsertsAddFrom(t: Tables, p: ProposedValue, height: Height, round: Round, data: Bytes)
    requires height <= p.height
    ensures var t' := InsertUndecidedBlock(InsertUndecidedProposal(t, p), height, round, data);
            && AddsFrom(t.undecidedProposals, t'.undecidedProposals, height)
            && AddsFrom(t.undecidedBlocks, t'.undecidedBlocks, height)
  {
  }

  lemma ProposeAddsFrom(cfg: Config, s: NodeState, event: Event)
    requires event.GetValue?
    ensures var t := Step(cfg, s, event).0.store;
            && AddsFrom(s.store.undecidedProposals, t.undecidedProposals, s.currentHeight)
            && AddsFrom(s.store.undecidedBlocks, t.undecidedBlocks, s.currentHeight)
  {
    ProposeOutcomes(cfg, s, event);
    var block := BuiltBlock(s, event);
    if block.Some? {
      InsertsAddFrom(s.store, OwnProposal(cfg, event.height, event.round, block.value), event.height, event.round,
                     cfg.encode(block.value));
    }
  }

  lemma ReceiveAddsFrom(cfg: Config, s: NodeState, event: Event)
    requires event.ReceivedProposalPart?
    ensures var t := Step(cfg, s, event).0.store;
            && AddsFrom(s.store.undecidedProposals, t.undecidedProposals, s.currentHeight)
            && AddsFrom(s.store.undecidedBlocks, t.undecidedBlocks, s.currentHeight)
  {
    ReceiveOutcomes(cfg, s, event.from, event.part);
    ReceivedStep(cfg, s, event.from, event.part);
    var stored := StoredProposal(cfg, s, event);
    if stored.Some? {
      InsertsAddFrom(s.store, Assemble(cfg.crypto, stored.value), s.currentHeight, s.currentRound,
                     DataOf(stored.value.parts));
    }
  }

  lemma AddedKeysAreCurrent(cfg: Config, s: NodeState, event: Event)
    ensures var t := Step(cfg, s, event).0.store;
            && AddsFrom(s.store.undecidedProposals, t.undecidedProposals, s.currentHeight)
            && AddsFrom(s.store.undecidedBlocks, t.undecidedBlocks, s.currentHeight)
  {
    match event {
      case ConsensusReady(_, _) =>
      case StartedRound(_, _, _) =>
      case GetValue(_, _, _, _) => ProposeAddsFrom(cfg, s, event);
      case ReceivedProposalPart(_, _) => ReceiveAddsFrom(cfg, s, event);
      case Decided(_, _, _) => DecideAddsNoUndecided(cfg, s, event);
    }
  }

  /** The heights below which nothing will be stored any more; all of them once stopped. */
  ghost predicate Past(p: Progress, h: Height) {
    p.halted || h < p.node.currentHeight
  }

  /** From `p` to `q`, entries of a table are held unchanged or gone from the past, and
      nothing returns to the past. */
  ghost predicate Steady<V>(before: map<RoundKey, V>, p: Progress, after: map<RoundKey, V>, q: Progress) {
    && (forall h: Height :: Past(p, h) ==> Past(q, h))
    && (forall k :: k in before && k in after ==> after[k] == before[k])
    && (forall k :: k in before && k !in after ==> Past(q, k.0))
    && (forall k :: k !in before && Past(p, k.0) ==> k !in after)
  }

  lemma SteadyTransitive<V>(t1: map<RoundKey, V>, p1: Progress, t2: map<RoundKey, V>, p2: Progress,
                            t3: map<RoundKey, V>, p3: Progress)
    requires Steady(t1, p1, t2, p2) && Steady(t2, p2, t3, p3)
    ensures Steady(t1, p1, t3, p3)
  {
  }

  lemma KeptUnchanged<V>(before: map<RoundKey, V>, after: map<RoundKey, V>, event: Event, k: RoundKey)
    requires KeptOrPruned(before, after, event) && k in before
    ensures k in after ==> after[k] == before[k]
    ensures k !in after ==> event.Decided? && k.0 < SaturatingSub(event.certificate.height, 5)
  {
  }

  lemma SteadyNext<V>(before: map<RoundKey, V>, p: Progress, after: map<RoundKey, V>, q: Progress, event: Event)
    requires KeptOrPruned(before, after, event) && AddsFrom(before, after, p.node.currentHeight) && !p.halted
    requires event.Decided? ==> event.certificate.height == p.node.currentHeight
    requires q.halted || p.node.currentHeight <= q.node.currentHeight
    ensures Steady(before, p, after, q)
  {
    forall k: RoundKey | k in before
      ensures k in after ==> after[k] == before[k]
      ensures k !in after ==> Past(q, k.0)
    {
      KeptUnchanged(before, after, event, k);
    }
  }

  lemma DecisionsRaiseHeight(cfg: Config, p: Progress, event: Event)
    requires !p.halted && event.Decided? && !Advance(cfg, p, event).halted
    ensures p.node.currentHeight <= Advance(cfg, p, event).node.currentHeight
  {
    DecideOutcomes(cfg, p.node, event.certificate, event.status, event.head);
  }

  lemma AdvanceIsSteady(cfg: Config, h0: Height, p: Progress, event: Event)
    requires TablesInvariant(h0, p) && Allowed(p, event)
    ensures var q := Advance(cfg, p, event);
            && Steady(p.node.store.undecidedProposals, p, q.node.store.undecidedProposals, q)
            && Steady(p.node.store.undecidedBlocks, p, q.node.store.undecidedBlocks, q)
  {
    var q := Advance(cfg, p, event);
    if !p.halted {
      UndecidedNeverChanges(cfg, p.node, event);
      AddedKeysAreCurrent(cfg, p.node, event);
      if event.Decided? {
        if !q.halted {
          DecisionsRaiseHeight(cfg, p, event);
        }
      } else {
        HeightOnlyMovesOnDecisions(cfg, h0, p, event);
      }
      SteadyNext(p.node.store.undecidedProposals, p, q.node.store.undecidedProposals, q, event);
      SteadyNext(p.node.store.undecidedBlocks, p, q.node.store.undecidedBlocks, q, event);
    }
  }

  lemma {:induction false} RunIsSteady(cfg: Config, h0: Height, p: Progress, later: seq<Event>)
    requires TablesInvariant(h0, p) && AllowedRun(cfg, p, later)
    ensures TablesInvariant(h0, After(cfg, p, later))
    ensures var q := After(cfg, p, later);
            && Steady(p.node.store.undecidedProposals, p, q.node.store.undecidedProposals, q)
            && Steady(p.node.store.undecidedBlocks, p, q.node.store.undecidedBlocks, q)
  {
    if later != [] {
      var n := |later| - 1;
      var q, r := After(cfg, p, later[..n]), After(cfg, p, later);
      AllowedPrefix(cfg, p, later, n);
      RunIsSteady(cfg, h0, p, later[..n]);
      AdvanceIsSteady(cfg, h0, q, later[n]);
      AdvanceKeepsTables(cfg, h0, q, later[n]);
      SteadyTransitive(p.node.store.undecidedProposals, p, q.node.store.undecidedProposals, q,
                       r.node.store.undecidedProposals, r);
      SteadyTransitive(p.node.store.undecidedBlocks, p, q.node.store.undecidedBlocks, q,
                       r.node.store.undecidedBlocks, r);
    }
  }

  /** What two of three successive states of a table hold under one key. */
  ghost predicate HeldThroughout<V>(first: map<RoundKey, V>, mid: map<RoundKey, V>, last: map<RoundKey, V>,
                                    k: RoundKey)
  {
    k in first && k in last ==> k in mid && first[k] == mid[k] == last[k]
  }

  lemma SegmentIsSteady(cfg: Config, h0: Height, events: seq<Event>, i: nat, j: nat)
    requires AllowedRun(cfg, Begin(h0), events) && i <= j <= |events|
    ensures var p, q := After(cfg, Begin(h0), events[..i]), After(cfg, Begin(h0), events[..j]);
            && Steady(p.node.store.undecidedProposals, p, q.node.store.undecidedProposals, q)
            && Steady(p.node.store.undecidedBlocks, p, q.node.store.undecidedBlocks, q)
  {
    assert events[..j] == events[..i] + events[i..j];
    AllowedPrefix(cfg, Begin(h0), events, j);
    AllowedAppend(cfg, Begin(h0), events[..i], events[i..j]);
    AfterAppend(cfg, Begin(h0), events[..i], events[i..j]);
    RunKeepsTables(cfg, h0, events[..i]);
    RunIsSteady(cfg, h0, After(cfg, Begin(h0), events[..i]), events[i..j]);
  }

  /** Over every allowed run, each key of the undecided tables is held during one
      stretch of the run only, and with one value: an entry never changes, and once
      pruned its key never comes back. */
  lemma UndecidedHeldOnce(cfg: Config, h0: Height, events: seq<Event>, i: nat, j: nat, l: nat, k: RoundKey)
    requires AllowedRun(cfg, Begin(h0), events) && i <= j <= l <= |events|
    ensures var first := After(cfg, Begin(h0), events[..i]).node.store;
            var mid := After(cfg, Begin(h0), events[..j]).node.store;
            var last := After(cfg, Begin(h0), events[..l]).node.store;
            && HeldThroughout(first.undecidedProposals, mid.undecidedProposals, last.undecidedProposals, k)
            && HeldThroughout(first.undecidedBlocks, mid.undecidedBlocks, last.undecidedBlocks, k)
  {
    SegmentIsSteady(cfg, h0, events, i, j);
    SegmentIsSteady(cfg, h0, events, j, l);
  }

  /** The block recorded for a decided height is `data` in both tables that hold one. */
  ghost predicate Settled(s: NodeState, h: Height, round: Round, data: Bytes) {
    && h < s.currentHeight
    && (h in s.store.decidedValues ==> h in s.store.decidedBlocks)
    && (h in s.store.decidedBlocks ==> s.store.decidedBlocks[h] == data)
    && ((h, round) in s.store.undecidedBlocks ==> s.store.undecidedBlocks[(h, round)] == data)
  }

  lemma CommitKeepsSettled(s: NodeState, certificate: CommitCertificate, h: Height, round: Round, data: Bytes)
    requires Settled(s, h, round, data) && certificate.height == s.currentHeight
    ensures var (s', committed) := Commit(s, certificate);
            committed.Done? ==> Settled(s', h, round, data)
  {
  }

  lemma ReceiveKeepsSettled(cfg: Config, s: NodeState, from: PeerId, msg: StreamMessage,
                            h: Height, round: Round, data: Bytes)
    requires Settled(s, h, round, data)
    ensures Settled(ReceivePart(cfg, s, from, msg).0, h, round, data)
  {
    ReceiveOutcomes(cfg, s, from, msg);
  }

  lemma AdvanceKeepsSettled(cfg: Config, h0: Height, p: Progress, event: Event, h: Height, round: Round, data: Bytes)
    requires TablesInvariant(h0, p) && Allowed(p, event) && !p.halted
    requires Settled(p.node, h, round, data)
    ensures var p' := Advance(cfg, p, event); !p'.halted ==> Settled(p'.node, h, round, data)
  {
    var s := p.node;
    assert Advance(cfg, p, event).node == Step(cfg, s, event).0;
    match event {
      case ConsensusReady(_, _) =>
      case StartedRound(_, _, _) =>
      case GetValue(_, _, _, _) => ProposeOutcomes(cfg, s, event);
      case ReceivedProposalPart(from, part) => ReceiveKeepsSettled(cfg, s, from, part, h, round, data);
      case Decided(certificate, status, head) =>
        DecideOutcomes(cfg, s, certificate, status, head);
        var found := DecidedBlock(cfg, s, certificate);
        if found.Some? {
          CommitKeepsSettled(Counted(s, found.value.0, found.value.1), certificate, h, round, data);
        }
    }
  }

  lemma {:induction false} RunKeepsSettled(cfg: Config, h0: Height, p: Progress, later: seq<Event>,
                                           h: Height, round: Round, data: Bytes)
    requires TablesInvariant(h0, p) && !p.halted && Settled(p.node, h, round, data)
    requires AllowedRun(cfg, p, later)
    ensures TablesInvariant(h0, After(cfg, p, later))
    ensures var q := After(cfg, p, later); !q.halted ==> Settled(q.node, h, round, data)
  {
    if later != [] {
      var n := |later| - 1;
      AllowedPrefix(cfg, p, later, n);
      RunKeepsSettled(cfg, h0, p, later[..n], h, round, data);
      var q := After(cfg, p, later[..n]);
      AdvanceKeepsTables(cfg, h0, q, later[n]);
      if !q.halted {
        AdvanceKeepsSettled(cfg, h0, q, later[n], h, round, data);
      }
    }
  }

  /** While the height is kept, the slot holds `data`. */
  ghost predicate HeldWhileKept(h0: Height, p: Progress, slot: RoundKey, data: Bytes) {
    !p.halted && LowestKept(h0, p.node.currentHeight) <= slot.0 ==>
      slot in p.node.store.undecidedBlocks && p.node.store.undecidedBlocks[slot] == data
  }

  lemma KeptHeightIsNotPruned(h0: Height, h: Height, k: Height)
    requires h0 <= h && h + 1 < U64_LIMIT && LowestKept(h0, h + 1) <= k
    ensures SaturatingSub(h, 5) <= k && LowestKept(h0, h) <= k
  {
  }

  lemma AdvanceHolds(cfg: Config, h0: Height, p: Progress, event: Event, slot: RoundKey, data: Bytes)
    requires TablesInvariant(h0, p) && Allowed(p, event) && !p.halted
    requires HeldWhileKept(h0, p, slot, data)
    ensures HeldWhileKept(h0, Advance(cfg, p, event), slot, data)
  {
    var q := Advance(cfg, p, event);
    if !q.halted && LowestKept(h0, q.node.currentHeight) <= slot.0 {
      UndecidedNeverChanges(cfg, p.node, event);
      if event.Decided? {
        DecisionMovesHeight(cfg, p, event);
        if q.node.currentHeight == p.node.currentHeight + 1 {
          KeptHeightIsNotPruned(h0, p.node.currentHeight, slot.0);
        }
      } else {
        HeightOnlyMovesOnDecisions(cfg, h0, p, event);
      }
      KeptUnchanged(p.node.store.undecidedBlocks, q.node.store.undecidedBlocks, event, slot);
    }
  }

  /** A decision that goes through moves to the next height, or, when it finds no
      proposal, leaves height and tables alone. */
  lemma DecisionMovesHeight(cfg: Config, p: Progress, event: Event)
    requires !p.halted && event.Decided? && !Advance(cfg, p, event).halted
    ensures var q := Advance(cfg, p, event);
            || q.node.currentHeight == p.node.currentHeight + 1
            || (q.node.currentHeight == p.node.currentHeight && q.node.store == p.node.store)
  {
    DecideOutcomes(cfg, p.node, event.certificate, event.status, event.head);
  }

  /** Over every allowed run, a block that a slot holds is held unchanged for as long as
      the height is kept. */
  lemma {:induction false} RunHolds(cfg: Config, h0: Height, p: Progress, later: seq<Event>,
                                    slot: RoundKey, data: Bytes)
    requires TablesInvariant(h0, p) && AllowedRun(cfg, p, later) && HeldWhileKept(h0, p, slot, data)
    ensures HeldWhileKept(h0, After(cfg, p, later), slot, data)
  {
    if later != [] {
      var n := |later| - 1;
      AllowedPrefix(cfg, p, later, n);
      RunHolds(cfg, h0, p, later[..n], slot, data);
      RunIsSteady(cfg, h0, p, later[..n]);
      if !After(cfg, p, later[..n]).halted {
        AdvanceHolds(cfg, h0, After(cfg, p, later[..n]), later[n], slot, data);
      }
    }
  }

  /** A decision that goes through executes the bytes that its slot holds. */
  lemma ExecutedIsHeld(cfg: Config, h0: Height, p: Progress, event: Event)
    requires TablesInvariant(h0, p) && Allowed(p, event)
    requires !p.halted && event.Decided? && Step(cfg, p.node, event).1.Done?
    ensures var d := DecisionOf(cfg, p.node, event.certificate);
            && d.height == p.node.currentHeight
            && HeldWhileKept(h0, p, (d.height, d.round), d.data)
  {
    DecideOutcomes(cfg, p.node, event.certificate, event.status, event.head);
    assert event.certificate.height !in p.node.store.decidedBlocks;
  }

  /** In every allowed run, from the step that carries a decision through until its
      height leaves the window of kept heights, looking up its block gives the bytes that
      were executed, and it is the table of undecided blocks that answers. */
  lemma DecidedBlockStaysAvailable(cfg: Config, h0: Height, p: Progress, event: Event, later: seq<Event>)
    requires TablesInvariant(h0, p) && Allowed(p, event)
    requires !p.halted && event.Decided? && Step(cfg, p.node, event).1.Done?
    requires AllowedRun(cfg, Advance(cfg, p, event), later)
    ensures var q := After(cfg, Advance(cfg, p, event), later);
            var d := DecisionOf(cfg, p.node, event.certificate);
            !q.halted && q.node.currentHeight <= d.height + 6 ==>
              && GetBlockData(q.node.store, d.height, d.round) == Some(d.data)
              && (d.height, d.round) in q.node.store.undecidedBlocks
  {
    var d := DecisionOf(cfg, p.node, event.certificate);
    ExecutedIsHeld(cfg, h0, p, event);
    AdvanceHolds(cfg, h0, p, event, (d.height, d.round), d.data);
    AdvanceKeepsTables(cfg, h0, p, event);
    RunHolds(cfg, h0, Advance(cfg, p, event), later, (d.height, d.round), d.data);
  }

  lemma DecisionSettles(cfg: Config, h0: Height, p: Progress, event: Event)
    requires TablesInvariant(h0, p) && Allowed(p, event)
    requires !p.halted && event.Decided? && Step(cfg, p.node, event).1.Done?
    requires (event.certificate.height, event.certificate.round) in p.node.store.undecidedProposals
    ensures var d := DecisionOf(cfg, p.node, event.certificate);
            Settled(Advance(cfg, p, event).node, d.height, d.round, d.data)
  {
    var certificate := event.certificate;
    DecideOutcomes(cfg, p.node, certificate, event.status, event.head);
    ExecutedIsHeld(cfg, h0, p, event);
    var found := DecidedBlock(cfg, p.node, certificate);
    CommitRecords(Counted(p.node, found.value.0, found.value.1), certificate);
    UndecidedNeverChanges(cfg, p.node, event);
    DecideAddsNoUndecided(cfg, p.node, event);
  }

  /** When the decision finds its proposal, the table of decided blocks holds the executed
      bytes too, from that step until the height leaves the window. */
  lemma RecordedBlockStays(cfg: Config, h0: Height, p: Progress, event: Event, later: seq<Event>)
    requires TablesInvariant(h0, p) && Allowed(p, event)
    requires !p.halted && event.Decided? && Step(cfg, p.node, event).1.Done?
    requires (event.certificate.height, event.certificate.round) in p.node.store.undecidedProposals
    requires AllowedRun(cfg, Advance(cfg, p, event), later)
    ensures var q := After(cfg, Advance(cfg, p, event), later);
            var d := DecisionOf(cfg, p.node, event.certificate);
            !q.halted && q.node.currentHeight <= d.height + 6 ==>
              d.height in q.node.store.decidedBlocks && q.node.store.decidedBlocks[d.height] == d.data
  {
    var d := DecisionOf(cfg, p.node, event.certificate);
    DecisionSettles(cfg, h0, p, event);
    AdvanceKeepsTables(cfg, h0, p, event);
    RunKeepsSettled(cfg, h0, Advance(cfg, p, event), later, d.height, d.round, d.data);
  }
}
