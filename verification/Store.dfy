/** The five tables of the application's database. */
module Store {
  import opened Types
  import opened Sets

  // ------------------------------------------------------------------- keys

  /** The order of (height, round) keys: by height, then by round with the absent round first. */
  predicate KeyBefore(a: RoundKey, b: RoundKey) {
    a.0 < b.0 || (a.0 == b.0 && a.1.AsI64() < b.1.AsI64())
  }

  /** The key order is a strict total order. */
  lemma KeyOrderIsTotal(a: RoundKey, b: RoundKey, c: RoundKey)
    ensures !KeyBefore(a, a)
    ensures a != b ==> KeyBefore(a, b) || KeyBefore(b, a)
    ensures KeyBefore(a, b) && KeyBefore(b, c) ==> KeyBefore(a, c)
  {
    if a != b && a.0 == b.0 {
      assert a.1 != b.1;
      assert a.1.AsI64() != b.1.AsI64();
    }
  }

  /** The keys before (height, absent round) are exactly those of smaller height. */
  lemma NilBoundIsHeightBound(key: RoundKey, height: Height)
    ensures KeyBefore(key, (height, Nil)) <==> key.0 < height
  {
    assert key.1.AsI64() >= -1;
  }

  // ----------------------------------------------------------------- tables

  /** Specification: the contents of the tables. */
  datatype Tables = Tables(
    undecidedProposals: map<RoundKey, ProposedValue>,
    undecidedBlocks: map<RoundKey, Bytes>,
    decidedValues: map<Height, Value>,
    certificates: map<Height, CommitCertificate>,
    decidedBlocks: map<Height, Bytes>)

  const EMPTY_TABLES := Tables(map[], map[], map[], map[], map[])

  /** Adds an entry unless the key is taken. */
  function WriteOnce<K, V>(table: map<K, V>, key: K, value: V): map<K, V> {
    if key in table then table else table[key := value]
  }

  function InsertUndecidedProposal(t: Tables, p: ProposedValue): Tables {
    t.(undecidedProposals := WriteOnce(t.undecidedProposals, (p.height, p.round), p))
  }

  function InsertUndecidedBlock(t: Tables, height: Height, round: Round, data: Bytes): Tables {
    t.(undecidedBlocks := WriteOnce(t.undecidedBlocks, (height, round), data))
  }

  function InsertDecidedValue(t: Tables, value: Value, certificate: CommitCertificate): Tables {
    t.(decidedValues := t.decidedValues[certificate.height := value],
       certificates := t.certificates[certificate.height := certificate])
  }

  function InsertDecidedBlock(t: Tables, height: Height, data: Bytes): Tables {
    t.(decidedBlocks := WriteOnce(t.decidedBlocks, height, data))
  }

  function GetBlockData(t: Tables, height: Height, round: Round): Option<Bytes> {
    if (height, round) in t.undecidedBlocks then Some(t.undecidedBlocks[(height, round)])
    else if height in t.decidedBlocks then Some(t.decidedBlocks[height])
    else None
  }

  function KeepFrom<V>(table: map<RoundKey, V>, retain: Height): map<RoundKey, V> {
    map k | k in table && k.0 >= retain :: table[k]
  }

  function KeepHeightsFrom<V>(table: map<Height, V>, retain: Height): map<Height, V> {
    map h | h in table && h >= retain :: table[h]
  }

  /** The undecided tables are cut by key range; the decided tables lose the heights
      below `retain` that are found in the table of values. */
  function Prune(t: Tables, retain: Height): Tables {
    var pruned := set h | h in t.decidedValues && h < retain;
    Tables(
      map k | k in t.undecidedProposals && !KeyBefore(k, (retain, Nil)) :: t.undecidedProposals[k],
      map k | k in t.undecidedBlocks && !KeyBefore(k, (retain, Nil)) :: t.undecidedBlocks[k],
      t.decidedValues - pruned,
      t.certificates - pruned,
      t.decidedBlocks - pruned)
  }

  /** The relation between the tables that every transaction keeps. */
  predicate DomainsAgree(t: Tables) {
    && t.decidedValues.Keys == t.certificates.Keys
    && t.decidedBlocks.Keys <= t.decidedValues.Keys
    && (forall h :: h in t.certificates ==> t.certificates[h].height == h)
    && (forall k :: k in t.undecidedProposals ==>
          t.undecidedProposals[k].height == k.0 && t.undecidedProposals[k].round == k.1)
  }

  /** While the decided tables agree on their heights, pruning keeps exactly the
      entries at the retained height and above, in all five tables. */
  lemma PruneKeepsExactlyFrom(t: Tables, retain: Height)
    requires DomainsAgree(t)
    ensures DomainsAgree(Prune(t, retain))
    ensures Prune(t, retain) == Tables(
              KeepFrom(t.undecidedProposals, retain),
              KeepFrom(t.undecidedBlocks, retain),
              KeepHeightsFrom(t.decidedValues, retain),
              KeepHeightsFrom(t.certificates, retain),
              KeepHeightsFrom(t.decidedBlocks, retain))
  {
    forall k: RoundKey ensures KeyBefore(k, (retain, Nil)) <==> k.0 < retain {
      NilBoundIsHeightBound(k, retain);
    }
    var p := Prune(t, retain);
    assert p.undecidedProposals == KeepFrom(t.undecidedProposals, retain);
    assert p.undecidedBlocks == KeepFrom(t.undecidedBlocks, retain);
    assert p.decidedValues == KeepHeightsFrom(t.decidedValues, retain);
    assert p.certificates == KeepHeightsFrom(t.certificates, retain);
    assert p.decidedBlocks == KeepHeightsFrom(t.decidedBlocks, retain);
  }

  /** The earliest decided height; 1 when nothing is decided. */
  ghost function EarliestHeight(t: Tables): Height {
    if t.decidedValues == map[] then 1 else Least(t.decidedValues.Keys)
  }

  class Db {
    var undecidedProposals: map<RoundKey, ProposedValue>
    var undecidedBlocks: map<RoundKey, Bytes>
    var decidedValues: map<Height, Value>
    var certificates: map<Height, CommitCertificate>
    var decidedBlocks: map<Height, Bytes>

    ghost function View(): Tables
      reads this
    {
      Tables(undecidedProposals, undecidedBlocks, decidedValues, certificates, decidedBlocks)
    }

    constructor ()
      ensures View() == EMPTY_TABLES
    {
      undecidedProposals, undecidedBlocks := map[], map[];
      decidedValues, certificates, decidedBlocks := map[], map[], map[];
    }

    /** False when the proposal cannot be encoded, because its round is absent. */
    method StoreUndecidedProposal(p: ProposedValue) returns (ok: bool)
      modifies this`undecidedProposals
      ensures ok == !p.round.Nil?
      ensures View() == if ok then InsertUndecidedProposal(old(View()), p) else old(View())
    {
      if p.round.Nil? {
        return false;
      }
      var key := (p.height, p.round);
      if key !in undecidedProposals {
        undecidedProposals := undecidedProposals[key := p];
      }
      ok := true;
    }

    method StoreUndecidedBlock(height: Height, round: Round, data: Bytes)
      modifies this`undecidedBlocks
      ensures View() == InsertUndecidedBlock(old(View()), height, round, data)
      ensures (height, round) in old(undecidedBlocks) ==> undecidedBlocks == old(undecidedBlocks)
      ensures (height, round) !in old(undecidedBlocks) ==>
                undecidedBlocks == old(undecidedBlocks)[(height, round) := data]
    {
      var key := (height, round);
      if key !in undecidedBlocks {
        undecidedBlocks := undecidedBlocks[key := data];
      }
    }

    /** False when the certificate cannot be encoded; the transaction is then dropped whole. */
    method StoreDecidedValue(certificate: CommitCertificate, value: Value) returns (ok: bool)
      modifies this`decidedValues, this`certificates
      ensures ok == !certificate.round.Nil?
      ensures View() == if ok then InsertDecidedValue(old(View()), value, certificate) else old(View())
    {
      if certificate.round.Nil? {
        return false;
      }
      decidedValues := decidedValues[certificate.height := value];
      certificates := certificates[certificate.height := certificate];
      ok := true;
    }

    method StoreDecidedBlock(height: Height, data: Bytes)
      modifies this`decidedBlocks
      ensures View() == InsertDecidedBlock(old(View()), height, data)
      ensures height in old(decidedBlocks) ==> decidedBlocks == old(decidedBlocks)
      ensures height !in old(decidedBlocks) ==> decidedBlocks == old(decidedBlocks)[height := data]
    {
      if height !in decidedBlocks {
        decidedBlocks := decidedBlocks[height := data];
      }
    }

    method FindBlockData(height: Height, round: Round) returns (data: Option<Bytes>)
      ensures data == GetBlockData(View(), height, round)
      ensures (height, round) in undecidedBlocks ==> data == Some(undecidedBlocks[(height, round)])
      ensures (height, round) !in undecidedBlocks && height in decidedBlocks ==> data == Some(decidedBlocks[height])
      ensures data.None? <==> (height, round) !in undecidedBlocks && height !in decidedBlocks
    {
      if (height, round) in undecidedBlocks {
        return Some(undecidedBlocks[(height, round)]);
      }
      if height in decidedBlocks {
        return Some(decidedBlocks[height]);
      }
      data := None;
    }

    method MinDecidedHeight() returns (height: Option<Height>)
      ensures decidedValues == map[] ==> height == None
      ensures decidedValues != map[] ==> height == Some(Least(decidedValues.Keys))
    {
      if decidedValues == map[] {
        return None;
      }
      assert Least(decidedValues.Keys) in decidedValues.Keys;
      var h :| h in decidedValues && forall k :: k in decidedValues ==> h <= k;
      height := Some(h);
    }

    method PruneProposals(retain: Height)
      modifies this`undecidedProposals
      ensures View() == old(View()).(undecidedProposals := Prune(old(View()), retain).undecidedProposals)
    {
      var keys := set k | k in undecidedProposals && KeyBefore(k, (retain, Nil));
      ghost var table, before := undecidedProposals, keys;
      while keys != {}
        invariant keys <= before
        invariant undecidedProposals == table - (before - keys)
        decreases keys
      {
        var key :| key in keys;
        undecidedProposals := undecidedProposals - {key};
        keys := keys - {key};
      }
    }

    method PruneBlocks(retain: Height)
      modifies this`undecidedBlocks
      ensures View() == old(View()).(undecidedBlocks := Prune(old(View()), retain).undecidedBlocks)
    {
      var keys := set k | k in undecidedBlocks && KeyBefore(k, (retain, Nil));
      ghost var table, before := undecidedBlocks, keys;
      while keys != {}
        invariant keys <= before
        invariant undecidedBlocks == table - (before - keys)
        decreases keys
      {
        var key :| key in keys;
        undecidedBlocks := undecidedBlocks - {key};
        keys := keys - {key};
      }
    }

    method PruneDecided(retain: Height) returns (pruned: set<Height>)
      modifies this`decidedValues, this`certificates, this`decidedBlocks
      ensures pruned == set h | h in old(decidedValues) && h < retain
      ensures decidedValues == old(decidedValues) - pruned
      ensures certificates == old(certificates) - pruned
      ensures decidedBlocks == old(decidedBlocks) - pruned
    {
      pruned := set h | h in decidedValues && h < retain;
      var keys := pruned;
      while keys != {}
        invariant keys <= pruned
        invariant decidedValues == old(decidedValues) - (pruned - keys)
        invariant certificates == old(certificates) - (pruned - keys)
        invariant decidedBlocks == old(decidedBlocks) - (pruned - keys)
        decreases keys
      {
        var key :| key in keys;
        decidedValues := decidedValues - {key};
        certificates := certificates - {key};
        decidedBlocks := decidedBlocks - {key};
        keys := keys - {key};
      }
    }

    /** Removes everything below the retained height: the undecided tables by key
        range, the decided tables at the heights found in the table of values. */
    method PruneBelow(retain: Height) returns (pruned: set<Height>)
      modifies this
      ensures View() == Prune(old(View()), retain)
      ensures pruned == set h | h in old(decidedValues) && h < retain
    {
      PruneProposals(retain);
      PruneBlocks(retain);
      pruned := PruneDecided(retain);
    }
  }
}
