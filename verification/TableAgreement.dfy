/** When the block that is executed is the value that is recorded, and how long
    what has been stored can be relied on. */
module TableAgreement {
  import opened Types
  import opened ProposalStream
  import opened Store
  import opened Engine
  import opened Node
  import opened NodeRuns

  /** Both undecided tables hold the same keys, with the same block under each. */
  predicate Synced(t: Tables) {
    && t.undecidedProposals.Keys == t.undecidedBlocks.Keys
    && forall k :: k in t.undecidedProposals ==>
         t.undecidedBlocks[k] == t.undecidedProposals[k].value.extensions
  }

  /** A proposal that is stored is for the round the node is in, or both the slot it
      is for and the slot the node is in are taken already. */
  ghost predicate InItsRound(cfg: Config, s: NodeState, event: Event) {
    var stored := StoredProposal(cfg, s, event);
    var current := (s.currentHeight, s.currentRound);
    stored.Some? ==>
      var slot := (stored.value.height, stored.value.round);
      slot == current || (slot in s.store.undecidedProposals && current in s.store.undecidedBlocks)
  }

  // ---------------------------------------------- agreement, exactly characterised

  lemma StoreSyncedIff(t: Tables, p: ProposedValue, height: Height, round: Round)
    requires Synced(t)
    ensures Synced(InsertUndecidedBlock(InsertUndecidedProposal(t, p), height, round, p.value.extensions)) <==>
            ((p.height, p.round) == (height, round) ||
             ((p.height, p.round) in t.undecidedProposals && (height, round) in t.undecidedBlocks))
  {
    var t' := InsertUndecidedBlock(InsertUndecidedProposal(t, p), height, round, p.value.extensions);
    var slot, current := (p.height, p.round), (height, round);
    if slot != current {
      if slot !in t.undecidedProposals {
        assert slot in t'.undecidedProposals && slot !in t'.undecidedBlocks;
      } else if current !in t.undecidedBlocks {
        assert current in t'.undecidedBlocks && current !in t'.undecidedProposals;
      } else {
        assert t' == t;
      }
    }
  }

  lemma CommitKeepsSynced(s: NodeState, certificate: CommitCertificate)
    requires Synced(s.store)
    ensures Synced(Commit(s, certificate).0.store)
  {
  }

  /** One step keeps the tables in agreement if and only if a proposal it stores is in its round. */
  lemma StepSyncedIff(cfg: Config, s: NodeState, event: Event)
    requires Synced(s.store)
    ensures Synced(Step(cfg, s, event).0.store) <==> InItsRound(cfg, s, event)
  {
    match event {
      case ConsensusReady(_, _) =>
      case StartedRound(_, _, _) =>
      case GetValue(height, round, build, payload) =>
        ProposeKeepsSynced(cfg, s, event);
      case ReceivedProposalPart(from, part) =>
        ReceiveOutcomes(cfg, s, from, part);
        var stored := StoredProposal(cfg, s, event);
        if stored.Some? {
          StoreSyncedIff(s.store, Assemble(cfg.crypto, stored.value), s.currentHeight, s.currentRound);
        }
      case Decided(certificate, status, head) =>
        DecideOutcomes(cfg, s, certificate, status, head);
        var found := DecidedBlock(cfg, s, certificate);
        if found.Some? {
          CommitKeepsSynced(Counted(s, found.value.0, found.value.1), certificate);
        }
    }
  }

  lemma ProposeKeepsSynced(cfg: Config, s: NodeState, event: Event)
    requires Synced(s.store) && event.GetValue?
    ensures Synced(Step(cfg, s, event).0.store)
  {
    ProposeOutcomes(cfg, s, event);
    var block := BuiltBlock(s, event);
    if block.Some? {
      StoreSyncedIff(s.store, OwnProposal(cfg, event.height, event.round, block.value), event.height, event.round);
    }
  }

  ghost predicate RunSynced(cfg: Config, start: Progress, events: seq<Event>) {
    forall i {:trigger After(cfg, start, events[..i])} :: 0 <= i <= |events| ==>
      Synced(After(cfg, start, events[..i]).node.store)
  }

  ghost predicate RunInItsRound(cfg: Config, start: Progress, events: seq<Event>) {
    forall i {:trigger After(cfg, start, events[..i])} :: 0 <= i < |events| ==>
      MeetsGuard(cfg, After(cfg, start, events[..i]), events[i])
  }

  lemma RunSyncedUnfold(cfg: Config, start: Progress, events: seq<Event>)
    requires events != []
    ensures RunSynced(cfg, start, events) <==>
            RunSynced(cfg, start, events[..|events| - 1]) && Synced(After(cfg, start, events).node.store)
  {
    var n := |events| - 1;
    forall i | 0 <= i <= n ensures events[..n][..i] == events[..i] {}
    assert events[..n + 1] == events;
    if RunSynced(cfg, start, events) {
      forall i | 0 <= i <= n ensures Synced(After(cfg, start, events[..n][..i]).node.store) {
        assert Synced(After(cfg, start, events[..i]).node.store);
      }
      assert Synced(After(cfg, start, events[..n + 1]).node.store);
    }
    if RunSynced(cfg, start, events[..n]) && Synced(After(cfg, start, events).node.store) {
      forall i | 0 <= i <= n + 1 ensures Synced(After(cfg, start, events[..i]).node.store) {
        if i <= n {
          assert Synced(After(cfg, start, events[..n][..i]).node.store);
        }
      }
    }
  }

  ghost predicate MeetsGuard(cfg: Config, p: Progress, event: Event) {
    p.halted || InItsRound(cfg, p.node, event)
  }

  lemma RunInItsRoundUnfold(cfg: Config, start: Progress, events: seq<Event>)
    requires events != []
    ensures var n := |events| - 1;
            RunInItsRound(cfg, start, events) <==>
            RunInItsRound(cfg, start, events[..n]) && MeetsGuard(cfg, After(cfg, start, events[..n]), events[n])
  {
    var n := |events| - 1;
    forall i | 0 <= i <= n ensures events[..n][..i] == events[..i] {}
    if RunInItsRound(cfg, start, events) {
      forall i | 0 <= i < n ensures MeetsGuard(cfg, After(cfg, start, events[..n][..i]), events[..n][i]) {
        assert MeetsGuard(cfg, After(cfg, start, events[..i]), events[i]);
      }
      assert MeetsGuard(cfg, After(cfg, start, events[..n]), events[n]);
    }
    if RunInItsRound(cfg, start, events[..n]) && MeetsGuard(cfg, After(cfg, start, events[..n]), events[n]) {
      forall i | 0 <= i <= n ensures MeetsGuard(cfg, After(cfg, start, events[..i]), events[i]) {
        if i < n {
          assert MeetsGuard(cfg, After(cfg, start, events[..n][..i]), events[..n][i]);
        }
      }
    }
  }

  /** A whole run keeps the tables in agreement if and only if every proposal it
      stores is stored in its round. */
  lemma {:induction false} RunSyncedIff(cfg: Config, start: Progress, events: seq<Event>)
    requires Synced(start.node.store)
    ensures RunSynced(cfg, start, events) <==> RunInItsRound(cfg, start, events)
  {
    if events == [] {
      assert events[..0] == [];
    } else {
      var n := |events| - 1;
      var p := After(cfg, start, events[..n]);
      RunSyncedIff(cfg, start, events[..n]);
      RunSyncedUnfold(cfg, start, events);
      RunInItsRoundUnfold(cfg, start, events);
      assert events[..n][..n] == events[..n];
      if RunSynced(cfg, start, events[..n]) {
        assert Synced(After(cfg, start, events[..n][..n]).node.store);
        if !p.halted {
          StepSyncedIff(cfg, p.node, events[n]);
        }
      }
    }
  }

  // ------------------------------------------------ executed equals recorded

  /** The step at which a decision is carried through executes exactly the block whose
      value it records, records its bytes and its certificate, and always advances:
      the branch that finds no proposal is not taken. */
  lemma ExecutedIsRecorded(cfg: Config, h0: Height, p: Progress, event: Event)
    requires TablesInvariant(h0, p) && Synced(p.node.store) && Allowed(p, event)
    requires !p.halted && event.Decided? && Step(cfg, p.node, event).1.Done?
    ensures var h := event.certificate.height;
            var p' := Advance(cfg, p, event);
            var d := DecisionOf(cfg, p.node, event.certificate);
            var t := p'.node.store;
            && (h, event.certificate.round) in p.node.store.undecidedProposals
            && p'.node.currentHeight == h + 1
            && p'.decided == p.decided + [d] && d.height == h && d.round == event.certificate.round
            && h in t.decidedValues && t.decidedValues[h].extensions == d.data
            && h in t.decidedBlocks && t.decidedBlocks[h] == d.data
            && h in t.certificates && t.certificates[h] == event.certificate
            && cfg.decode(d.data) == Some(d.block)
            && p.node.store.undecidedBlocks[(h, event.certificate.round)] == d.data
  {
    var certificate := event.certificate;
    DecideOutcomes(cfg, p.node, certificate, event.status, event.head);
    var found := DecidedBlock(cfg, p.node, certificate);
    var key := (certificate.height, certificate.round);
    assert certificate.height !in p.node.store.decidedBlocks;
    assert key in p.node.store.undecidedBlocks;
    CommitRecords(Counted(p.node, found.value.0, found.value.1), certificate);
  }

  lemma CommitRecords(s: NodeState, certificate: CommitCertificate)
    requires DomainsAgree(s.store) && certificate.height !in s.store.decidedBlocks
    requires var key := (certificate.height, certificate.round);
             && key in s.store.undecidedProposals && key in s.store.undecidedBlocks
    requires Commit(s, certificate).1.Done?
    ensures var key := (certificate.height, certificate.round);
            var h := certificate.height;
            var s' := Commit(s, certificate).0;
            && s'.currentHeight == s.currentHeight + 1
            && h in s'.store.decidedValues && s'.store.decidedValues[h] == s.store.undecidedProposals[key].value
            && h in s'.store.decidedBlocks && s'.store.decidedBlocks[h] == s.store.undecidedBlocks[key]
            && h in s'.store.certificates && s'.store.certificates[h] == certificate
  {
    var value := s.store.undecidedProposals[(certificate.height, certificate.round)].value;
    CommitTransactionsAgree(s.store, value, certificate);
    PruneKeepsExactlyFrom(CommitTransactions(s.store, value, certificate)[1], SaturatingSub(certificate.height, 5));
  }

  // ------------------------------------------------------- the next slot opens

  /** A decision that is carried through and whose slot held a proposal moves the node to
      round 0 of the next height, with the executed block as its latest. */
  lemma DecisionOpensNextHeight(cfg: Config, p: Progress, event: Event)
    requires !p.halted && event.Decided? && Step(cfg, p.node, event).1.Done?
    requires (event.certificate.height, event.certificate.round) in p.node.store.undecidedProposals
    ensures var q := Advance(cfg, p, event);
            var block := DecisionOf(cfg, p.node, event.certificate).block;
            && !q.halted
            && q.node.currentHeight == p.node.currentHeight + 1 && q.node.currentRound == At(0)
            && q.lastStart.Some? && q.lastStart.value == p.node.currentHeight + 1
            && q.node.latestBlock.Some?
            && q.node.latestBlock.value.blockHash == block.blockHash
            && q.node.latestBlock.value.blockNumber == block.blockNumber
            && q.node.latestBlock.value.timestamp == block.timestamp
            && q.node.latestBlock.value.prevRandao == block.prevRandao
  {
    DecideOutcomes(cfg, p.node, event.certificate, event.status, event.head);
  }

  /** A proposal for the slot that the node is in is stored in its round, and leaves the
      slot held in both tables, which stay in agreement. */
  lemma CurrentProposalIsHeld(cfg: Config, s: NodeState, event: Event)
    requires StoredProposal(cfg, s, event).Some?
    requires var p := StoredProposal(cfg, s, event).value;
             (p.height, p.round) == (s.currentHeight, s.currentRound)
    ensures InItsRound(cfg, s, event)
    ensures var t, slot := Step(cfg, s, event).0.store, (s.currentHeight, s.currentRound);
            && slot in t.undecidedProposals && slot in t.undecidedBlocks
            && (Synced(s.store) ==> Synced(t))
            && (slot !in s.store.undecidedProposals && slot !in s.store.undecidedBlocks ==>
                  t.undecidedBlocks[slot] == t.undecidedProposals[slot].value.extensions)
  {
    ReceiveOutcomes(cfg, s, event.from, event.part);
    ReceivedStep(cfg, s, event.from, event.part);
    if Synced(s.store) {
      StepSyncedIff(cfg, s, event);
    }
  }

  /** In every allowed run in which proposals are stored in their rounds: right after a
      decision that goes through, before the next round is started, a round-0 proposal for
      the next height that completes is in its round and is held in both tables. */
  lemma NextHeightMayComeEarly(cfg: Config, h0: Height, events: seq<Event>, p: Progress, decision: Event, part: Event)
    requires AllowedRun(cfg, Begin(h0), events) && RunInItsRound(cfg, Begin(h0), events)
    requires p == After(cfg, Begin(h0), events)
    requires !p.halted && decision.Decided? && Allowed(p, decision) && Step(cfg, p.node, decision).1.Done?
    requires var q := Advance(cfg, p, decision);
             && StoredProposal(cfg, q.node, part).Some?
             && StoredProposal(cfg, q.node, part).value.height == q.node.currentHeight
             && StoredProposal(cfg, q.node, part).value.round == At(0)
    ensures var q := Advance(cfg, p, decision);
            var t := Advance(cfg, q, part).node.store;
            var slot := (q.node.currentHeight, At(0));
            && slot.0 == decision.certificate.height + 1
            && InItsRound(cfg, q.node, part) && Synced(t)
            && slot in t.undecidedProposals && slot in t.undecidedBlocks
            && t.undecidedBlocks[slot] == t.undecidedProposals[slot].value.extensions
  {
    assert TablesInvariant(h0, p) by {
      RunKeepsTables(cfg, h0, events);
    }
    assert Synced(p.node.store) by {
      RunSyncedIff(cfg, Begin(h0), events);
      assert events[..|events|] == events;
      assert Synced(After(cfg, Begin(h0), events[..|events|]).node.store);
    }
    NextHeightHeld(cfg, h0, p, decision, part);
  }

  lemma NextHeightHeld(cfg: Config, h0: Height, p: Progress, decision: Event, part: Event)
    requires TablesInvariant(h0, p) && Synced(p.node.store)
    requires !p.halted && decision.Decided? && Allowed(p, decision) && Step(cfg, p.node, decision).1.Done?
    requires var q := Advance(cfg, p, decision);
             && StoredProposal(cfg, q.node, part).Some?
             && StoredProposal(cfg, q.node, part).value.height == q.node.currentHeight
             && StoredProposal(cfg, q.node, part).value.round == At(0)
    ensures var q := Advance(cfg, p, decision);
            var t := Advance(cfg, q, part).node.store;
            var slot := (q.node.currentHeight, At(0));
            && slot.0 == decision.certificate.height + 1
            && InItsRound(cfg, q.node, part) && Synced(t)
            && slot in t.undecidedProposals && slot in t.undecidedBlocks
            && t.undecidedBlocks[slot] == t.undecidedProposals[slot].value.extensions
  {
    var q := Advance(cfg, p, decision);
    ExecutedIsRecorded(cfg, h0, p, decision);
    DecisionOpensNextHeight(cfg, p, decision);
    StepSyncedIff(cfg, p.node, decision);
    CurrentProposalIsHeld(cfg, q.node, part);
    assert Advance(cfg, q, part).node == Step(cfg, q.node, part).0;
  }

  /** Once a round has started, its proposal is in its round, and a request for a value for
      it is answered when the client builds a block. */
  lemma StartedRoundOpensSlot(cfg: Config, s: NodeState, height: Height, round: Round, proposer: Address, event: Event)
    ensures var s' := Step(cfg, s, StartedRound(height, round, proposer)).0;
            var stored := StoredProposal(cfg, s', event);
            && (stored.Some? && stored.value.height == height && stored.value.round == round ==>
                  InItsRound(cfg, s', event))
            && ((&& event.GetValue? && event.height == height && event.round == round && !round.Nil?
                 && s.latestBlock.Some?
                 && GenerateBlock(s.latestBlock.value, event.build, event.payload).Done?) ==>
                  BuiltBlock(s', event).Some?)
  {
    StartedRoundTakesOver(cfg, s, height, round, proposer);
  }

  /** The history and the decided tables say the same: one decision per height since
      the start, and under each height still kept the bytes that were executed. */
  ghost predicate Recorded(h0: Height, p: Progress) {
    && |p.decided| == p.node.currentHeight - h0
    && (forall i :: 0 <= i < |p.decided| ==> p.decided[i].height == h0 + i)
    && (forall i :: 0 <= i < |p.decided| && p.decided[i].height in p.node.store.decidedValues ==>
          var d := p.decided[i];
          && p.node.store.decidedValues[d.height].extensions == d.data
          && d.height in p.node.store.decidedBlocks && p.node.store.decidedBlocks[d.height] == d.data)
  }

  lemma CommitKeepsOtherHeights(s: NodeState, certificate: CommitCertificate, h: Height)
    requires DomainsAgree(s.store) && certificate.height != h
    ensures var t := Commit(s, certificate).0.store;
            h in t.decidedValues ==>
              && h in s.store.decidedValues && t.decidedValues[h] == s.store.decidedValues[h]
              && (h in s.store.decidedBlocks ==> h in t.decidedBlocks && t.decidedBlocks[h] == s.store.decidedBlocks[h])
  {
  }

  /** Other heights keep what they had, unless a commit prunes them. */
  lemma OtherHeightsKept(cfg: Config, s: NodeState, event: Event, h: Height)
    requires DomainsAgree(s.store)
    requires event.Decided? ==> event.certificate.height != h
    ensures var t := Step(cfg, s, event).0.store;
            h in t.decidedValues ==>
              && h in s.store.decidedValues && t.decidedValues[h] == s.store.decidedValues[h]
              && (h in s.store.decidedBlocks ==> h in t.decidedBlocks && t.decidedBlocks[h] == s.store.decidedBlocks[h])
  {
    match event {
      case ConsensusReady(_, _) =>
      case StartedRound(_, _, _) =>
      case GetValue(_, _, _, _) => ProposeOutcomes(cfg, s, event);
      case ReceivedProposalPart(from, part) => ReceiveOutcomes(cfg, s, from, part);
      case Decided(certificate, status, head) =>
        DecideOutcomes(cfg, s, certificate, status, head);
        var found := DecidedBlock(cfg, s, certificate);
        if found.Some? {
          CommitKeepsOtherHeights(Counted(s, found.value.0, found.value.1), certificate, h);
        }
    }
  }

  lemma HeightOnlyMovesOnDecisions(cfg: Config, h0: Height, p: Progress, event: Event)
    requires TablesInvariant(h0, p) && !p.halted && Allowed(p, event) && !event.Decided?
    ensures var p' := Advance(cfg, p, event);
            p'.node.currentHeight == p.node.currentHeight && p'.decided == p.decided
  {
    match event {
      case ConsensusReady(_, _) =>
      case StartedRound(_, _, _) =>
      case GetValue(_, _, _, _) => ProposeOutcomes(cfg, p.node, event);
      case ReceivedProposalPart(from, part) => ReceiveOutcomes(cfg, p.node, from, part);
    }
  }

  lemma AdvanceKeepsRecorded(cfg: Config, h0: Height, p: Progress, event: Event)
    requires TablesInvariant(h0, p) && Synced(p.node.store) && Allowed(p, event)
    requires !p.halted && Recorded(h0, p)
    ensures var p' := Advance(cfg, p, event); !p'.halted ==> Recorded(h0, p')
  {
    var p' := Advance(cfg, p, event);
    if !p'.halted {
      if event.Decided? {
        ExecutedIsRecorded(cfg, h0, p, event);
      } else {
        HeightOnlyMovesOnDecisions(cfg, h0, p, event);
      }
      forall i | 0 <= i < |p.decided| && p.decided[i].height in p'.node.store.decidedValues
        ensures p.decided[i].height in p.node.store.decidedValues
        ensures var d := p.decided[i];
                && p'.node.store.decidedValues[d.height].extensions == d.data
                && d.height in p'.node.store.decidedBlocks && p'.node.store.decidedBlocks[d.height] == d.data
      {
        OtherHeightsKept(cfg, p.node, event, p.decided[i].height);
      }
    }
  }

  /** In every run from a fresh store in which each proposal is stored in its round:
      there is exactly one carried-through decision per height passed, and the decided
      values, the decided blocks and the executed blocks agree at every kept height. */
  lemma {:induction false} RunRecordsWhatItExecutes(cfg: Config, h0: Height, events: seq<Event>)
    requires AllowedRun(cfg, Begin(h0), events) && RunInItsRound(cfg, Begin(h0), events)
    ensures var p := After(cfg, Begin(h0), events);
            !p.halted ==> Recorded(h0, p) && p.node.store.decidedBlocks.Keys == p.node.store.decidedValues.Keys
  {
    var p := After(cfg, Begin(h0), events);
    RunKeepsTables(cfg, h0, events);
    if events != [] {
      var n := |events| - 1;
      var q := After(cfg, Begin(h0), events[..n]);
      AllowedPrefix(cfg, Begin(h0), events, n);
      RunInItsRoundUnfold(cfg, Begin(h0), events);
      RunRecordsWhatItExecutes(cfg, h0, events[..n]);
      RunKeepsTables(cfg, h0, events[..n]);
      RunSyncedIff(cfg, Begin(h0), events[..n]);
      assert events[..n][..n] == events[..n];
      assert Synced(After(cfg, Begin(h0), events[..n][..n]).node.store);
      if !q.halted {
        AdvanceKeepsRecorded(cfg, h0, q, events[n]);
      }
    }
    if !p.halted {
      forall h | h in p.node.store.decidedValues ensures h in p.node.store.decidedBlocks {
        assert p.decided[h - h0].height == h;
      }
    }
  }

  // ------------------------------------------------------------- accounting

  function BytesDecided(decided: seq<Decision>): nat {
    if decided == [] then 0
    else BytesDecided(decided[..|decided| - 1]) + |decided[|decided| - 1].data|
  }

  function TxsDecided(decided: seq<Decision>): nat {
    if decided == [] then 0
    else TxsDecided(decided[..|decided| - 1]) + |decided[|decided| - 1].block.transactions|
  }

  /** The counters of a running node are the totals of the blocks it has executed. */
  lemma {:induction false} CountersAreTotals(cfg: Config, h0: Height, events: seq<Event>)
    ensures var p := After(cfg, Begin(h0), events);
            !p.halted ==>
              p.node.chainBytes == BytesDecided(p.decided) && p.node.txsCount == TxsDecided(p.decided)
  {
    if events != [] {
      var n := |events| - 1;
      CountersAreTotals(cfg, h0, events[..n]);
      var p := After(cfg, Begin(h0), events[..n]);
      var event := events[n];
      if !p.halted {
        match event {
          case ConsensusReady(_, _) =>
          case StartedRound(_, _, _) =>
          case GetValue(_, _, _, _) => ProposeOutcomes(cfg, p.node, event);
          case ReceivedProposalPart(from, part) => ReceiveOutcomes(cfg, p.node, from, part);
          case Decided(certificate, status, head) =>
            DecideOutcomes(cfg, p.node, certificate, status, head);
            var d := DecisionOf(cfg, p.node, certificate);
            assert (p.decided + [d])[..|p.decided|] == p.decided;
        }
      }
    }
  }
}
