/** Two nodes that execute different blocks at one height, in a run in which everything
    assumed of consensus, signatures and proposals holds but one proposal completes in
    a round it is not for. */
module Disagreement {
  import opened Types
  import opened Streaming
  import opened StreamingProperties
  import opened RoundTrip
  import opened Node
  import opened NodeRuns
  import opened Reception
  import opened OutOfRound
  import opened Agreement

  function ToNode(n: NodeId, events: seq<Event>): seq<GroupEvent> {
    seq(|events|, i requires 0 <= i < |events| => (n, events[i]))
  }

  ghost function GroupAfter(world: World, group: Group, n: NodeId, events: seq<Event>): Group
    requires n in world.cfg && n in group
  {
    group[n := After(world.cfg[n], group[n], events)]
  }

  lemma {:induction false} RunsNext(world: World, signed: map<RoundKey, Bytes>, guard: Guard, first: Group,
                                    events: seq<GroupEvent>, mid: Group, n: NodeId, event: Event)
    requires RunsTo(world, signed, guard, first, events, mid) && MayReach(world, signed, guard, mid, n, event)
    ensures RunsTo(world, signed, guard, first, events + [(n, event)], Arrive(world, mid, n, event))
    decreases |events|
  {
    var all: seq<GroupEvent> := events + [(n, event)];
    if events == [] {
      assert all[1..] == [];
    } else {
      assert all[1..] == events[1..] + [(n, event)];
      RunsNext(world, signed, guard, Arrive(world, first, events[0].0, events[0].1), events[1..], mid, n, event);
    }
  }

  /** Every message of a node's run is sound; nothing is said of the rounds. */
  ghost predicate AllSound(world: World, signed: map<RoundKey, Bytes>, cfg: Config, p: Progress, events: seq<Event>) {
    forall i :: 0 <= i < |events| ==> Sound(world, signed, cfg, After(cfg, p, events[..i]).node, events[i])
  }

  lemma SoundPrefix(world: World, signed: map<RoundKey, Bytes>, cfg: Config, p: Progress, events: seq<Event>, n: nat)
    requires AllSound(world, signed, cfg, p, events) && n <= |events|
    ensures AllSound(world, signed, cfg, p, events[..n])
  {
    forall i | 0 <= i < n ensures Sound(world, signed, cfg, After(cfg, p, events[..n][..i]).node, events[..n][i]) {
      assert events[..n][..i] == events[..i];
    }
  }

  lemma SoundInFirst(world: World, signed: map<RoundKey, Bytes>, cfg: Config, p: Progress,
                     first: seq<Event>, second: seq<Event>, i: nat)
    requires AllSound(world, signed, cfg, p, first) && i < |first|
    ensures Sound(world, signed, cfg, After(cfg, p, (first + second)[..i]).node, (first + second)[i])
  {
    assert (first + second)[..i] == first[..i];
    assert Sound(world, signed, cfg, After(cfg, p, first[..i]).node, first[i]);
  }

  lemma SoundInSecond(world: World, signed: map<RoundKey, Bytes>, cfg: Config, p: Progress,
                      first: seq<Event>, second: seq<Event>, i: nat)
    requires AllSound(world, signed, cfg, After(cfg, p, first), second) && |first| <= i < |first + second|
    ensures Sound(world, signed, cfg, After(cfg, p, (first + second)[..i]).node, (first + second)[i])
  {
    var k := i - |first|;
    assert (first + second)[..i] == first + second[..k];
    AfterAppend(cfg, p, first, second[..k]);
    assert Sound(world, signed, cfg, After(cfg, After(cfg, p, first), second[..k]).node, second[k]);
  }

  lemma SoundAppend(world: World, signed: map<RoundKey, Bytes>, cfg: Config, p: Progress,
                    first: seq<Event>, second: seq<Event>)
    requires AllSound(world, signed, cfg, p, first)
    requires AllSound(world, signed, cfg, After(cfg, p, first), second)
    ensures AllSound(world, signed, cfg, p, first + second)
  {
    forall i | 0 <= i < |first| {
      SoundInFirst(world, signed, cfg, p, first, second, i);
    }
    forall i | |first| <= i < |first + second| {
      SoundInSecond(world, signed, cfg, p, first, second, i);
    }
  }

  lemma SoundOne(world: World, signed: map<RoundKey, Bytes>, cfg: Config, p: Progress, event: Event)
    requires Sound(world, signed, cfg, p.node, event)
    ensures AllSound(world, signed, cfg, p, [event])
  {
    assert [event][..0] == [];
    assert After(cfg, p, [event][..0]) == p;
  }

  lemma ToNodeNext(n: NodeId, events: seq<Event>, event: Event)
    ensures ToNode(n, events + [event]) == ToNode(n, events) + [(n, event)]
  {
  }

  lemma GroupAfterNext(world: World, group: Group, n: NodeId, events: seq<Event>, event: Event)
    requires n in world.cfg && n in group
    ensures GroupAfter(world, group, n, events + [event]) ==
            Arrive(world, GroupAfter(world, group, n, events), n, event)
  {
    AfterNext(world.cfg[n], group[n], events, event);
  }

  /** An allowed and sound run of one node extends a run of the group. */
  lemma {:induction false} NodeRunExtends(world: World, signed: map<RoundKey, Bytes>, first: Group,
                                          past: seq<GroupEvent>, mid: Group, n: NodeId, events: seq<Event>)
    requires RunsTo(world, signed, Unguarded, first, past, mid) && n in world.cfg && n in mid
    requires AllowedRun(world.cfg[n], mid[n], events) && AllSound(world, signed, world.cfg[n], mid[n], events)
    ensures RunsTo(world, signed, Unguarded, first, past + ToNode(n, events), GroupAfter(world, mid, n, events))
  {
    if events == [] {
      assert past + ToNode(n, events) == past;
      assert mid[n := mid[n]] == mid;
    } else {
      var k := |events| - 1;
      var earlier, last := events[..k], events[k];
      assert events == earlier + [last];
      AllowedPrefix(world.cfg[n], mid[n], events, k);
      SoundPrefix(world, signed, world.cfg[n], mid[n], events, k);
      NodeRunExtends(world, signed, first, past, mid, n, earlier);
      RunsNext(world, signed, Unguarded, first, past + ToNode(n, earlier), GroupAfter(world, mid, n, earlier), n, last);
      ToNodeNext(n, earlier, last);
      GroupAfterNext(world, mid, n, earlier, last);
      assert past + ToNode(n, events) == past + ToNode(n, earlier) + [(n, last)];
    }
  }

  // ----------------------------------------------------- the messages of a script

  lemma OpeningSound(world: World, signed: map<RoundKey, Bytes>, cfg: Config, script: Script)
    ensures AllSound(world, signed, cfg, Begin(script.h0), Opening(script.h0, script.latest, script.proposer))
  {
  }

  /** The parts of an offered block are sound when that block is the one signed for its slot. */
  lemma OfferSound(world: World, signed: map<RoundKey, Bytes>, cfg: Config, p: Progress, offer: Offer)
    requires !p.halted && Plausible(cfg, p.node.currentHeight, offer)
    requires Lookup(p.node.streams, (offer.peer, offer.id)) == EMPTY_STREAM
    requires var slot := (p.node.currentHeight, offer.round);
             slot in signed && signed[slot] == cfg.encode(offer.block)
    ensures AllSound(world, signed, cfg, p, OfferEvents(cfg, p.node.currentHeight, offer))
  {
    var h := p.node.currentHeight;
    var contents, events := ContentsOf(cfg, h, offer), OfferEvents(cfg, h, offer);
    BlockProposalCarries(cfg.crypto, offer.key, offer.address, cfg.validators, h, offer.round, cfg.encode(offer.block));
    HonestProposalIsSigned(cfg.crypto, cfg.validators, Proposal(contents), h, offer.round, offer.address,
                           cfg.encode(offer.block), signed);
    forall i | 0 <= i < |events| ensures Sound(world, signed, cfg, After(cfg, p, events[..i]).node, events[i]) {
      PartIsSound(world, signed, cfg, p, offer.peer, offer.id, contents, offer.arrivals, i);
    }
  }

  lemma PartIsSound(world: World, signed: map<RoundKey, Bytes>, cfg: Config, p: Progress, peer: PeerId, id: StreamId,
                    contents: seq<StreamContent>, arrivals: seq<u64>, i: nat)
    requires WellFormed(contents) && i < |arrivals| && forall k :: k in arrivals ==> k < |contents|
    requires !p.halted && Welcome(cfg, p.node, Proposal(contents))
    requires Lookup(p.node.streams, (peer, id)) == EMPTY_STREAM
    requires WasSigned(signed, Proposal(contents)) && OneInit(Proposal(contents))
    ensures var events := PartEvents(peer, id, contents, arrivals);
            Sound(world, signed, cfg, After(cfg, p, events[..i]).node, events[i])
  {
    var earlier, k := arrivals[..i], arrivals[i];
    assert k in arrivals && forall j :: j in earlier ==> j in arrivals;
    assert PartEvents(peer, id, contents, arrivals)[..i] == PartEvents(peer, id, contents, earlier);
    TakeAll(cfg, p, peer, id, contents, earlier);
    TakeNext(cfg, p, After(cfg, p, PartEvents(peer, id, contents, earlier)), peer, id, contents, earlier, k);
  }

  /** The script is one for this world, and its block is the one signed for its slot. */
  ghost predicate Fits(world: World, signed: map<RoundKey, Bytes>, cfg: Config, script: Script) {
    && Playable(cfg, script) && script.h0 == world.h0
    && DecisionEvent(script).certificate == world.certificate(world.h0)
    && (world.h0, script.offer.round) in signed
    && signed[(world.h0, script.offer.round)] == cfg.encode(script.offer.block)
  }

  lemma ScriptSound(world: World, signed: map<RoundKey, Bytes>, cfg: Config, script: Script)
    requires Fits(world, signed, cfg, script)
    ensures AllSound(world, signed, cfg, Begin(world.h0), RunOf(cfg, script))
  {
    var opening := Opening(script.h0, script.latest, script.proposer);
    var start, events := Opened(script.h0, script.latest, script.proposer), OfferEvents(cfg, script.h0, script.offer);
    OpeningLeads(cfg, script.h0, script.latest, script.proposer);
    OpeningSound(world, signed, cfg, script);
    OfferSound(world, signed, cfg, start, script.offer);
    SoundAppend(world, signed, cfg, Begin(world.h0), opening, events);
    AfterAppend(cfg, Begin(world.h0), opening, events);
    SoundOne(world, signed, cfg, Offered(cfg, script), DecisionEvent(script));
    SoundAppend(world, signed, cfg, Begin(world.h0), opening + events, [DecisionEvent(script)]);
  }

  /** A script played by one node of the group, whatever the others do. */
  lemma ScriptRuns(world: World, signed: map<RoundKey, Bytes>, first: Group, past: seq<GroupEvent>, mid: Group,
                   n: NodeId, script: Script)
    requires RunsTo(world, signed, Unguarded, first, past, mid) && n in world.cfg && n in mid
    requires mid[n] == Begin(world.h0) && Fits(world, signed, world.cfg[n], script)
    ensures var last := GroupAfter(world, mid, n, RunOf(world.cfg[n], script));
            && RunsTo(world, signed, Unguarded, first, past + ToNode(n, RunOf(world.cfg[n], script)), last)
            && Executed(last[n].decided) == [world.cfg[n].encode(script.offer.block)]
  {
    var cfg := world.cfg[n];
    ScriptSound(world, signed, cfg, script);
    ScriptLeads(cfg, script);
    ScriptExecutes(cfg, script, Offered(cfg, script));
    NodeRunExtends(world, signed, first, past, mid, n, RunOf(cfg, script));
  }

  /** For every world in which round 0 is decided at the first height, and every two
      different blocks signed for round 0 and for a later round of it: when one node
      receives the first and another node, in round 0, the second, both carry the
      decision through and their histories differ. The run meets every assumption of the
      agreement of nodes but the guard on rounds. */
  lemma NodesDisagree(world: World, signed: map<RoundKey, Bytes>, first: Group, a: NodeId, b: NodeId,
                      onTime: Script, late: Script)
    requires WorldOk(world) && Fresh(world, first) && a in world.cfg && b in world.cfg && a != b
    requires Fits(world, signed, world.cfg[a], onTime) && Fits(world, signed, world.cfg[b], late)
    requires onTime.offer.round == At(0) && late.offer.round != At(0)
    requires signed[(world.h0, At(0))] != signed[(world.h0, late.offer.round)]
    ensures var events := ToNode(a, RunOf(world.cfg[a], onTime)) + ToNode(b, RunOf(world.cfg[b], late));
            var mid := GroupAfter(world, first, a, RunOf(world.cfg[a], onTime));
            var last := GroupAfter(world, mid, b, RunOf(world.cfg[b], late));
            && RunsTo(world, signed, Unguarded, first, events, last)
            && !RunsTo(world, signed, Guarded, first, events, last)
            && |Executed(last[a].decided)| == |Executed(last[b].decided)| == 1
            && Executed(last[a].decided) != Executed(last[b].decided)
  {
    var none: seq<GroupEvent> := [];
    var mine, theirs := ToNode(a, RunOf(world.cfg[a], onTime)), ToNode(b, RunOf(world.cfg[b], late));
    var mid := GroupAfter(world, first, a, RunOf(world.cfg[a], onTime));
    var last := GroupAfter(world, mid, b, RunOf(world.cfg[b], late));
    ScriptRuns(world, signed, first, none, first, a, onTime);
    assert none + mine == mine;
    ScriptRuns(world, signed, first, mine, mid, b, late);
    assert Executed(last[a].decided)[0] != Executed(last[b].decided)[0];
    if RunsTo(world, signed, Guarded, first, mine + theirs, last) {
      NodesAgree(world, signed, first, mine + theirs, last, a, b);
    }
  }
}
