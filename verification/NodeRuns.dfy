/** Runs of one node: its state machine driven by consensus, together with the
    history needed to state what whole runs guarantee about the tables. */
module NodeRuns {
  import opened Types
  import opened Streaming
  import opened ProposalStream
  import opened RoundTrip
  import opened Store
  import opened Engine
  import opened Node

  /** A block handed to the execution client by a decision that was carried through. */
  datatype Decision = Decision(height: Height, round: Round, data: Bytes, block: Payload)

  /** A node and its history. `lastStart` is the height last sent in StartHeight. */
  datatype Progress = Progress(node: NodeState, lastStart: Option<Height>, halted: bool, decided: seq<Decision>)

  /** A node in some state, at the start of a run. */
  function From(s: NodeState): Progress {
    Progress(s, None, false, [])
  }

  function Begin(height: Height): Progress {
    From(InitialState(height))
  }

  ghost function Advance(cfg: Config, p: Progress, event: Event): Progress {
    if p.halted then p
    else
      var (node, outcome) := Step(cfg, p.node, event);
      match outcome
      case Stopped(_) => p.(node := node, halted := true)
      case Done(answer) =>
        Progress(
          node,
          if answer.StartHeight? then Some(answer.height) else p.lastStart,
          false,
          if event.Decided? then p.decided + [DecisionOf(cfg, p.node, event.certificate)] else p.decided)
  }

  function DecisionOf(cfg: Config, s: NodeState, certificate: CommitCertificate): Decision {
    match DecidedBlock(cfg, s, certificate)
    case Some((data, block)) => Decision(certificate.height, certificate.round, data, block)
    case None => Decision(certificate.height, certificate.round, [], Payload(0, 0, 0, 0, 0, 0, []))
  }

  /** What is assumed of consensus: rounds are started at the height it was last told
      to start, and decisions are for the current height. */
  predicate Allowed(p: Progress, event: Event) {
    match event
    case StartedRound(height, _, _) => p.lastStart == Some(height)
    case Decided(certificate, _, _) => certificate.height == p.node.currentHeight
    case _ => true
  }

  ghost function After(cfg: Config, start: Progress, events: seq<Event>): Progress {
    if events == [] then start
    else
      var n := |events| - 1;
      Advance(cfg, After(cfg, start, events[..n]), events[n])
  }

  ghost predicate AllowedRun(cfg: Config, start: Progress, events: seq<Event>) {
    forall i :: 0 <= i < |events| ==> Allowed(After(cfg, start, events[..i]), events[i])
  }

  lemma AllowedPrefix(cfg: Config, start: Progress, events: seq<Event>, n: nat)
    requires AllowedRun(cfg, start, events) && n <= |events|
    ensures AllowedRun(cfg, start, events[..n])
  {
    forall i | 0 <= i < n ensures Allowed(After(cfg, start, events[..n][..i]), events[..n][i]) {
      assert events[..n][..i] == events[..i];
    }
  }

  lemma AfterNext(cfg: Config, start: Progress, events: seq<Event>, event: Event)
    ensures After(cfg, start, events + [event]) == Advance(cfg, After(cfg, start, events), event)
  {
    assert (events + [event])[..|events|] == events;
  }

  lemma AfterNothing(cfg: Config, p: Progress, none: seq<Event>)
    requires none == []
    ensures After(cfg, p, none) == p
  {
  }

  lemma AfterAppendNext(cfg: Config, start: Progress, first: seq<Event>, rest: seq<Event>, last: Event)
    requires After(cfg, start, first + rest) == After(cfg, After(cfg, start, first), rest)
    ensures After(cfg, start, first + (rest + [last])) == After(cfg, After(cfg, start, first), rest + [last])
  {
    assert first + (rest + [last]) == (first + rest) + [last];
    AfterNext(cfg, start, first + rest, last);
    AfterNext(cfg, After(cfg, start, first), rest, last);
  }

  /** A run goes on where an earlier one has ended. */
  ghost predicate Joins(cfg: Config, start: Progress, first: seq<Event>, second: seq<Event>, n: nat)
    requires n <= |second|
  {
    After(cfg, start, first + second[..n]) == After(cfg, After(cfg, start, first), second[..n])
  }

  lemma JoinsNext(cfg: Config, start: Progress, first: seq<Event>, second: seq<Event>, n: nat)
    requires n < |second| && Joins(cfg, start, first, second, n)
    ensures Joins(cfg, start, first, second, n + 1)
  {
    AfterAppendNext(cfg, start, first, second[..n], second[n]);
    assert second[..n] + [second[n]] == second[..n + 1];
  }

  lemma {:induction false} AfterAppend(cfg: Config, start: Progress, first: seq<Event>, second: seq<Event>)
    ensures After(cfg, start, first + second) == After(cfg, After(cfg, start, first), second)
  {
    AfterNothing(cfg, After(cfg, start, first), second[..0]);
    assert first + second[..0] == first;
    for n := 0 to |second|
      invariant Joins(cfg, start, first, second, n)
    {
      JoinsNext(cfg, start, first, second, n);
    }
    assert second[..|second|] == second;
  }

  lemma AllowedAppend(cfg: Config, start: Progress, first: seq<Event>, second: seq<Event>)
    ensures AllowedRun(cfg, start, first + second) <==>
            AllowedRun(cfg, start, first) && AllowedRun(cfg, After(cfg, start, first), second)
  {
    var all := first + second;
    forall i | 0 <= i < |first| ensures all[..i] == first[..i] && all[i] == first[i] {}
    forall i | 0 <= i < |second|
      ensures After(cfg, start, all[..|first| + i]) == After(cfg, After(cfg, start, first), second[..i])
      ensures all[|first| + i] == second[i]
    {
      assert all[..|first| + i] == first + second[..i];
      AfterAppend(cfg, start, first, second[..i]);
    }
    if AllowedRun(cfg, start, all) {
      forall i | 0 <= i < |first| ensures Allowed(After(cfg, start, first[..i]), first[i]) {
        assert Allowed(After(cfg, start, all[..i]), all[i]);
      }
      forall i | 0 <= i < |second| ensures Allowed(After(cfg, After(cfg, start, first), second[..i]), second[i]) {
        assert Allowed(After(cfg, start, all[..|first| + i]), all[|first| + i]);
      }
    }
    if AllowedRun(cfg, start, first) && AllowedRun(cfg, After(cfg, start, first), second) {
      forall i | 0 <= i < |all| ensures Allowed(After(cfg, start, all[..i]), all[i]) {
        if i < |first| {
          assert Allowed(After(cfg, start, first[..i]), first[i]);
        } else {
          assert Allowed(After(cfg, After(cfg, start, first), second[..i - |first|]), second[i - |first|]);
        }
      }
    }
  }

  /** Why the event loop ends: with the reason of the message that stopped the node, or,
      when none did, because there are no more messages. */
  ghost predicate EndsBecause(cfg: Config, start: Progress, events: seq<Event>, reason: StopReason) {
    if After(cfg, start, events).halted then
      exists i :: 0 <= i < |events| && StopsAt(cfg, After(cfg, start, events[..i]), events[i], reason)
    else reason == Error
  }

  ghost predicate StopsAt(cfg: Config, p: Progress, event: Event, reason: StopReason) {
    !p.halted && Step(cfg, p.node, event).1 == Stopped(reason)
  }

  lemma {:induction false} HaltedForGood(cfg: Config, start: Progress, events: seq<Event>, n: nat)
    requires n <= |events| && After(cfg, start, events[..n]).halted
    ensures After(cfg, start, events) == After(cfg, start, events[..n])
  {
    assert events == events[..n] + events[n..];
    AfterAppend(cfg, start, events[..n], events[n..]);
    HaltedStaysPut(cfg, After(cfg, start, events[..n]), events[n..]);
  }

  lemma {:induction false} HaltedStaysPut(cfg: Config, p: Progress, later: seq<Event>)
    requires p.halted
    ensures After(cfg, p, later) == p
  {
    if later != [] {
      HaltedStaysPut(cfg, p, later[..|later| - 1]);
    }
  }

  /** `events` is an allowed run from `p` to `q`. */
  ghost predicate Leads(cfg: Config, p: Progress, events: seq<Event>, q: Progress) {
    AllowedRun(cfg, p, events) && After(cfg, p, events) == q
  }

  lemma LeadsAppend(cfg: Config, p: Progress, first: seq<Event>, mid: Progress, second: seq<Event>, q: Progress)
    requires Leads(cfg, p, first, mid) && Leads(cfg, mid, second, q)
    ensures Leads(cfg, p, first + second, q)
  {
    AfterAppend(cfg, p, first, second);
    AllowedAppend(cfg, p, first, second);
  }

  lemma LeadsOne(cfg: Config, p: Progress, event: Event)
    requires Allowed(p, event)
    ensures Leads(cfg, p, [event], Advance(cfg, p, event))
  {
    var events := [event];
    assert events[..0] == [];
    assert After(cfg, p, events[..0]) == p;
  }

  // ------------------------------------------------- what a handler can do

  /** A decision is carried through only by committing after a VALID forkchoice
      reply; one that is not leaves the tables alone or stops right after the commit. */
  lemma DecideOutcomes(cfg: Config, s: NodeState, certificate: CommitCertificate,
                       status: NewPayloadReply, head: ForkchoiceReply)
    ensures var (s', outcome) := Decide(cfg, s, certificate, status, head);
            var found := DecidedBlock(cfg, s, certificate);
            && (found.None? ==> outcome.Stopped? && s' == s)
            && (found.Some? ==>
                  var (data, block) := found.value;
                  var (s2, committed) := Commit(Counted(s, data, block), certificate);
                  if outcome.Stopped? then s'.store == s.store || s'.store == s2.store
                  else
                    && committed.Done?
                    && cfg.blobHashes(block).Some? && status.Some? && status.value.status != Invalid
                    && SetLatestForkchoiceState(head).Done?
                    && outcome.value == StartHeight(s2.currentHeight)
                    && s' == s2.(latestBlock := Some(ExecutionBlock(block.blockHash, block.blockNumber,
                                   SetLatestForkchoiceState(head).value, block.timestamp, block.prevRandao))))
  {
  }

  /** Receiving a part changes the streams and, when a proposal is stored, both undecided tables. */
  lemma ReceiveOutcomes(cfg: Config, s: NodeState, from: PeerId, msg: StreamMessage)
    ensures var (s', outcome) := ReceivePart(cfg, s, from, msg);
            var reply := Receive(s.streams, from, msg).1;
            var stored := StoredProposal(cfg, s, ReceivedProposalPart(from, msg));
            && s'.streams == Receive(s.streams, from, msg).0
            && s'.currentHeight == s.currentHeight && s'.currentRound == s.currentRound
            && s'.latestBlock == s.latestBlock
            && s'.txsCount == s.txsCount && s'.chainBytes == s.chainBytes
            && (stored.None? ==> s'.store == s.store)
            && (stored.Some? ==>
                  && reply == Complete(stored.value)
                  && s.currentHeight <= stored.value.height
                  && Verify(cfg.crypto, cfg.validators, stored.value) == Verified
                  && outcome.Done?
                  && s'.store == InsertUndecidedBlock(
                                   InsertUndecidedProposal(s.store, Assemble(cfg.crypto, stored.value)),
                                   s.currentHeight, s.currentRound, DataOf(stored.value.parts)))
  {
  }

  /** The value that a proposal stands for. */
  function ValueIn(crypto: Crypto, p: ProposalParts): ProposedValue {
    var data := DataOf(p.parts);
    ProposedValue(p.height, p.round, Nil, p.proposer, Value(crypto.sipHash(data), data), true)
  }

  /** What becomes of a complete proposal: refused, without any change, exactly when it is
      outdated or not authenticated. */
  lemma AcceptAnswers(cfg: Config, s: NodeState, p: ProposalParts)
    ensures var (s', result) := AcceptProposal(cfg, s, p);
            var accepted := s.currentHeight <= p.height && Authenticated(cfg.crypto, cfg.validators, p);
            && (!accepted ==> s' == s && result == Done(None))
            && (accepted && p.round.Nil? ==> s' == s && result == Stopped(Error))
            && (accepted && !p.round.Nil? ==>
                  && result == Done(Some(ValueIn(cfg.crypto, p)))
                  && s' == s.(store := InsertUndecidedBlock(InsertUndecidedProposal(s.store, ValueIn(cfg.crypto, p)),
                                                            s.currentHeight, s.currentRound, DataOf(p.parts))))
  {
    VerifyIff(cfg.crypto, cfg.validators, p);
  }

  /** What consensus is told of a received part, in every state: a value exactly when the
      part completes a proposal that is not outdated, is authenticated and has a round, and
      then the value is that of the proposal and both undecided tables take it in; in
      every other case that does not stop the node, nothing, and no table changes. */
  lemma ReceiveAnswers(cfg: Config, s: NodeState, from: PeerId, msg: StreamMessage)
    ensures var (s', outcome) := Step(cfg, s, ReceivedProposalPart(from, msg));
            var (streams, reply) := Receive(s.streams, from, msg);
            var accepted := && reply.Complete? && s.currentHeight <= reply.parts.height
                            && Authenticated(cfg.crypto, cfg.validators, reply.parts);
            && s'.streams == streams
            && (outcome == Stopped(Panic) <==> reply.Overflow?)
            && (outcome == Stopped(Error) <==> accepted && reply.parts.round.Nil?)
            && (accepted && !reply.parts.round.Nil? ==>
                  var value := ValueIn(cfg.crypto, reply.parts);
                  && outcome == Done(Reassembled(Some(value)))
                  && s'.store == InsertUndecidedBlock(InsertUndecidedProposal(s.store, value), s.currentHeight,
                                                      s.currentRound, value.value.extensions))
            && (!accepted && !reply.Overflow? ==> outcome == Done(Reassembled(None)))
            && (!accepted ==> s'.store == s.store)
  {
    var (streams, reply) := Receive(s.streams, from, msg);
    ReceivedStep(cfg, s, from, msg);
    if reply.Complete? {
      AcceptAnswers(cfg, s.(streams := streams), reply.parts);
    }
  }

  /** A received part changes a table only with a proposal that it completes and whose
      last signature verifies under the key of the validator it names. */
  lemma StoredIsAuthenticated(cfg: Config, s: NodeState, from: PeerId, msg: StreamMessage)
    requires Step(cfg, s, ReceivedProposalPart(from, msg)).0.store != s.store
    ensures var reply := Receive(s.streams, from, msg).1;
            && reply.Complete? && Authenticated(cfg.crypto, cfg.validators, reply.parts)
            && HasFin(reply.parts.parts) && HasValidator(cfg.validators, reply.parts.proposer)
  {
    ReceiveAnswers(cfg, s, from, msg);
    var p := Receive(s.streams, from, msg).1.parts;
    VerifyIff(cfg.crypto, cfg.validators, p);
  }

  /** A round that starts is the one the node is in, and changes nothing else. */
  lemma StartedRoundTakesOver(cfg: Config, s: NodeState, height: Height, round: Round, proposer: Address)
    ensures var (s', outcome) := Step(cfg, s, StartedRound(height, round, proposer));
            && s'.currentHeight == height && s'.currentRound == round && s'.currentProposer == Some(proposer)
            && s'.latestBlock == s.latestBlock && s'.streams == s.streams && s'.streamNonce == s.streamNonce
            && s'.store == s.store && s'.txsCount == s.txsCount && s'.chainBytes == s.chainBytes
            && outcome == Done(Nothing)
  {
  }

  /** The block a request for a value makes the node record as its own proposal, if any. */
  function BuiltBlock(s: NodeState, event: Event): Option<Payload> {
    if event.GetValue? && s.latestBlock.Some? && event.height == s.currentHeight
       && event.round == s.currentRound && !event.round.Nil?
       && GenerateBlock(s.latestBlock.value, event.build, event.payload).Done?
    then Some(GenerateBlock(s.latestBlock.value, event.build, event.payload).value) else None
  }

  function OwnProposal(cfg: Config, height: Height, round: Round, block: Payload): ProposedValue {
    ProposedValue(height, round, Nil, cfg.address, NewValue(cfg.crypto, cfg.encode(block)), true)
  }

  /** Proposing records one block in both undecided tables, or nothing at all. */
  lemma ProposeOutcomes(cfg: Config, s: NodeState, event: Event)
    requires event.GetValue?
    ensures var (s', outcome) := Step(cfg, s, event);
            var block := BuiltBlock(s, event);
            && s'.currentHeight == s.currentHeight && s'.currentRound == s.currentRound
            && s'.latestBlock == s.latestBlock && s'.streams == s.streams
            && s'.txsCount == s.txsCount && s'.chainBytes == s.chainBytes
            && (block.None? ==> outcome.Stopped? && s'.store == s.store)
            && (block.Some? ==>
                  s'.store == InsertUndecidedBlock(
                                InsertUndecidedProposal(s.store,
                                                        OwnProposal(cfg, event.height, event.round, block.value)),
                                event.height, event.round, cfg.encode(block.value)))
            && (outcome.Done? ==> block.Some? && outcome.value.Proposed?)
  {
  }

  /** A request for a value is answered exactly when a block is built for the current slot
      and the stream can be opened and numbered. It panics without a latest block, when the
      client's reply is unusable, off the current slot, or when the stream cannot be opened
      or numbered; otherwise it fails. */
  lemma ProposeAnsweredIff(cfg: Config, s: NodeState, event: Event)
    requires event.GetValue?
    ensures var outcome := Step(cfg, s, event).1;
            var block := if s.latestBlock.None? then Stopped(Panic)
                         else GenerateBlock(s.latestBlock.value, event.build, event.payload);
            var here := event.height == s.currentHeight && event.round == s.currentRound;
            var opens := && block.Done? && s.streamNonce + 1 < U32_LIMIT
                         && |BlockContents(cfg.crypto, cfg.key, cfg.address, event.height, event.round,
                                           cfg.encode(block.value))| <= U64_LIMIT;
            && (outcome.Done? <==> block.Done? && here && !event.round.Nil? && opens)
            && (outcome == Stopped(Panic) <==>
                  block == Stopped(Panic) || (block.Done? && (!here || (!event.round.Nil? && !opens))))
  {
  }

  /** A decision goes through exactly when its block is stored, decodes, extends the latest
      block and is accepted by the client, and the next height, if there is a proposal to
      record, fits 64 bits; otherwise it panics or fails as its first obstacle does. */
  lemma DecisionGoesThroughIff(cfg: Config, s: NodeState, certificate: CommitCertificate,
                               status: NewPayloadReply, head: ForkchoiceReply)
    ensures var (s', outcome) := Decide(cfg, s, certificate, status, head);
            var found := DecidedBlock(cfg, s, certificate);
            var usable := found.Some? && cfg.blobHashes(found.value.1).Some?;
            var taken := usable && status.Some? && status.value.status != Invalid;
            var adopted := taken && SetLatestForkchoiceState(head).Done?;
            var recorded := (certificate.height, certificate.round) in s.store.undecidedProposals;
            var last := s.currentHeight + 1 == U64_LIMIT;
            && (outcome.Done? <==> adopted && (recorded ==> !certificate.round.Nil? && !last))
            && (outcome == Stopped(Panic) <==>
                  || !usable || (taken && SetLatestForkchoiceState(head) == Stopped(Panic))
                  || (adopted && recorded && !certificate.round.Nil? && last))
            && (outcome.Stopped? && !(adopted && recorded) ==> s'.store == s.store)
  {
  }

  /** The block of a decision is the one stored for its slot, when it decodes and extends
      the latest block. */
  lemma DecidedBlockIff(cfg: Config, s: NodeState, certificate: CommitCertificate, data: Bytes, block: Payload)
    ensures DecidedBlock(cfg, s, certificate) == Some((data, block)) <==>
            && GetBlockData(s.store, certificate.height, certificate.round) == Some(data)
            && cfg.decode(data) == Some(block)
            && s.latestBlock.Some? && s.latestBlock.value.blockHash == block.parentHash
  {
  }

  /** The proposal that a message makes the node store, if any. */
  ghost function StoredProposal(cfg: Config, s: NodeState, event: Event): Option<ProposalParts> {
    if !event.ReceivedProposalPart? then None
    else
      var reply := Receive(s.streams, event.from, event.part).1;
      if reply.Complete? && reply.parts.height >= s.currentHeight && !reply.parts.round.Nil?
         && Verify(cfg.crypto, cfg.validators, reply.parts) == Verified
      then Some(reply.parts) else None
  }

  // -------------------------------------------------- tables over whole runs

  function Max(a: u64, b: u64): u64 { if a > b then a else b }

  /** The lowest height still stored by a node that started at `h0` and is now at `h`. */
  function LowestKept(h0: Height, h: Height): Height {
    if h0 > SaturatingSub(h, 6) then h0 else SaturatingSub(h, 6)
  }

  /** The decided heights are exactly a window that ends just below the current height. */
  ghost predicate Window(t: Tables, h0: Height, h: Height) {
    && (forall k: Height :: k in t.decidedValues <==> LowestKept(h0, h) <= k < h)
    && (forall k :: k in t.undecidedProposals ==> LowestKept(h0, h) <= k.0)
    && (forall k :: k in t.undecidedBlocks ==> LowestKept(h0, h) <= k.0)
  }

  ghost predicate TablesInvariant(h0: Height, p: Progress) {
    && DomainsAgree(p.node.store)
    && (!p.halted ==>
          && h0 <= p.node.currentHeight
          && (p.lastStart.Some? ==> p.lastStart.value == p.node.currentHeight)
          && Window(p.node.store, h0, p.node.currentHeight))
  }

  /** Every transaction of a commit leaves the tables in agreement, hence so does a
      crash between two of them. */
  lemma CommitTransactionsAgree(t: Tables, value: Value, certificate: CommitCertificate)
    requires DomainsAgree(t)
    ensures forall i :: 0 <= i < 3 ==> DomainsAgree(CommitTransactions(t, value, certificate)[i])
  {
    var ts := CommitTransactions(t, value, certificate);
    assert DomainsAgree(ts[0]);
    assert DomainsAgree(ts[1]);
    PruneKeepsExactlyFrom(ts[1], SaturatingSub(certificate.height, 5));
  }

  lemma PruneKeepsWindow(t: Tables, h0: Height, h: Height)
    requires DomainsAgree(t) && h0 <= h && h + 1 < U64_LIMIT
    requires forall k: Height :: k in t.decidedValues <==> LowestKept(h0, h) <= k <= h
    requires forall k :: k in t.undecidedProposals ==> LowestKept(h0, h) <= k.0
    requires forall k :: k in t.undecidedBlocks ==> LowestKept(h0, h) <= k.0
    ensures Window(Prune(t, SaturatingSub(h, 5)), h0, h + 1)
  {
    PruneKeepsExactlyFrom(t, SaturatingSub(h, 5));
  }

  lemma CommitKeepsWindow(t: Tables, value: Value, certificate: CommitCertificate, h0: Height)
    requires DomainsAgree(t) && h0 <= certificate.height && certificate.height + 1 < U64_LIMIT
    requires Window(t, h0, certificate.height)
    ensures Window(CommitTransactions(t, value, certificate)[2], h0, certificate.height + 1)
  {
    CommitTransactionsAgree(t, value, certificate);
    PruneKeepsWindow(CommitTransactions(t, value, certificate)[1], h0, certificate.height);
  }

  lemma InsertsKeepWindow(t: Tables, p: ProposedValue, height: Height, round: Round, data: Bytes, h0: Height)
    requires DomainsAgree(t) && Window(t, h0, height) && h0 <= height <= p.height
    ensures var t' := InsertUndecidedProposal(t, p); DomainsAgree(t') && Window(t', h0, height)
    ensures var t' := InsertUndecidedBlock(InsertUndecidedProposal(t, p), height, round, data);
            DomainsAgree(t') && Window(t', h0, height)
  {
  }

  lemma ProposeKeepsTables(cfg: Config, h0: Height, p: Progress, event: Event)
    requires TablesInvariant(h0, p) && !p.halted && event.GetValue?
    ensures TablesInvariant(h0, Advance(cfg, p, event))
  {
    var s := p.node;
    ProposeOutcomes(cfg, s, event);
    var block := BuiltBlock(s, event);
    if block.Some? {
      InsertsKeepWindow(s.store, OwnProposal(cfg, event.height, event.round, block.value),
                        event.height, event.round, cfg.encode(block.value), h0);
    }
  }

  lemma ReceiveKeepsTables(cfg: Config, h0: Height, p: Progress, event: Event)
    requires TablesInvariant(h0, p) && !p.halted && event.ReceivedProposalPart?
    ensures TablesInvariant(h0, Advance(cfg, p, event))
  {
    var s := p.node;
    ReceiveOutcomes(cfg, s, event.from, event.part);
    var stored := StoredProposal(cfg, s, event);
    if stored.Some? {
      InsertsKeepWindow(s.store, Assemble(cfg.crypto, stored.value), s.currentHeight, s.currentRound,
                        DataOf(stored.value.parts), h0);
    }
  }

  lemma CommitKeepsTables(h0: Height, s: NodeState, certificate: CommitCertificate)
    requires DomainsAgree(s.store) && h0 <= s.currentHeight && Window(s.store, h0, s.currentHeight)
    requires certificate.height == s.currentHeight
    ensures var (s', committed) := Commit(s, certificate);
            && DomainsAgree(s'.store)
            && (committed.Done? ==> h0 <= s'.currentHeight && Window(s'.store, h0, s'.currentHeight))
  {
    var key := (certificate.height, certificate.round);
    if key in s.store.undecidedProposals {
      var value := s.store.undecidedProposals[key].value;
      CommitTransactionsAgree(s.store, value, certificate);
      if certificate.height + 1 < U64_LIMIT {
        CommitKeepsWindow(s.store, value, certificate, h0);
      }
    }
  }

  lemma DecideKeepsTables(cfg: Config, h0: Height, p: Progress, event: Event)
    requires TablesInvariant(h0, p) && !p.halted && event.Decided? && Allowed(p, event)
    ensures TablesInvariant(h0, Advance(cfg, p, event))
  {
    DecideOutcomes(cfg, p.node, event.certificate, event.status, event.head);
    var found := DecidedBlock(cfg, p.node, event.certificate);
    if found.Some? {
      CommitKeepsTables(h0, Counted(p.node, found.value.0, found.value.1), event.certificate);
    }
  }

  lemma AdvanceKeepsTables(cfg: Config, h0: Height, p: Progress, event: Event)
    requires TablesInvariant(h0, p) && Allowed(p, event)
    ensures TablesInvariant(h0, Advance(cfg, p, event))
  {
    if !p.halted {
      match event {
        case ConsensusReady(_, _) =>
        case StartedRound(_, _, _) =>
        case GetValue(_, _, _, _) => ProposeKeepsTables(cfg, h0, p, event);
        case ReceivedProposalPart(_, _) => ReceiveKeepsTables(cfg, h0, p, event);
        case Decided(_, _, _) => DecideKeepsTables(cfg, h0, p, event);
      }
    }
  }

  lemma {:induction false} RunKeepsTables(cfg: Config, h0: Height, events: seq<Event>)
    requires AllowedRun(cfg, Begin(h0), events)
    ensures TablesInvariant(h0, After(cfg, Begin(h0), events))
  {
    if events != [] {
      var n := |events| - 1;
      AllowedPrefix(cfg, Begin(h0), events, n);
      RunKeepsTables(cfg, h0, events[..n]);
      AdvanceKeepsTables(cfg, h0, After(cfg, Begin(h0), events[..n]), events[n]);
    }
  }

  /** The decided heights are exactly `low` to `h`, the earliest is `low`, and nothing
      undecided lies below it. */
  ghost predicate HoldsExactly(t: Tables, low: Height, h: Height) {
    && (forall k: Height :: k in t.decidedValues <==> low <= k <= h)
    && t.certificates.Keys == t.decidedValues.Keys
    && EarliestHeight(t) == low
    && (forall k :: k in t.undecidedProposals ==> low <= k.0)
    && (forall k :: k in t.undecidedBlocks ==> low <= k.0)
  }

  lemma WindowBounds(t: Tables, h0: Height, h: Height)
    requires DomainsAgree(t) && h0 <= h && h + 1 < U64_LIMIT && Window(t, h0, h + 1)
    ensures HoldsExactly(t, Max(h0, SaturatingSub(h, 5)), h)
  {
    assert h in t.decidedValues;
    assert LowestKept(h0, h + 1) in t.decidedValues;
  }

  lemma InvariantBounds(h0: Height, p: Progress)
    requires TablesInvariant(h0, p) && !p.halted && p.node.currentHeight > h0
    ensures var h := p.node.currentHeight - 1;
            HoldsExactly(p.node.store, Max(h0, SaturatingSub(h, 5)), h)
  {
    WindowBounds(p.node.store, h0, p.node.currentHeight - 1);
  }

  /** From a fresh store, a running node whose last commit was at height h holds the
      decided heights max(h0, h - 5) .. h and no others, reports that lower end as its
      earliest height, and holds nothing undecided below it. */
  lemma RetentionWindow(cfg: Config, h0: Height, events: seq<Event>, p: Progress)
    requires AllowedRun(cfg, Begin(h0), events) && p == After(cfg, Begin(h0), events)
    requires !p.halted && p.node.currentHeight > h0
    ensures var h := p.node.currentHeight - 1;
            var low := EarliestHeight(p.node.store);
            && h0 <= low <= h <= low + 5 && (low == h0 || h == low + 5)
            && HoldsExactly(p.node.store, low, h)
  {
    assert TablesInvariant(h0, p) by {
      RunKeepsTables(cfg, h0, events);
    }
    InvariantBounds(h0, p);
  }
}
