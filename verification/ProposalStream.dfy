/** Turning a block into a signed stream of parts, and a set of parts back into a block. */
module ProposalStream {
  import opened Types

  /** Size of the chunks in which block data is streamed. */
  const CHUNK_SIZE: nat := 128 * 1024

  /** No byte buffer is longer than this. */
  const MAX_BUFFER: nat := U64_LIMIT / 2 - 1

  // ----------------------------------------------------- fixed-width encoding

  function BigEndian(width: nat, x: nat): (bytes: Bytes)
    ensures |bytes| == width
  {
    if width == 0 then [] else BigEndian(width - 1, x / 256) + [x % 256]
  }

  function Capacity(width: nat): nat {
    if width == 0 then 1 else 256 * Capacity(width - 1)
  }

  lemma {:induction false} BigEndianInjective(width: nat, x: nat, y: nat)
    requires x < Capacity(width) && y < Capacity(width)
    requires BigEndian(width, x) == BigEndian(width, y)
    ensures x == y
  {
    if width > 0 {
      var hx, hy := BigEndian(width - 1, x / 256), BigEndian(width - 1, y / 256);
      assert (hx + [x % 256])[..width - 1] == hx && (hy + [y % 256])[..width - 1] == hy;
      assert (hx + [x % 256])[width - 1] == x % 256 && (hy + [y % 256])[width - 1] == y % 256;
      BigEndianInjective(width - 1, x / 256, y / 256);
    }
  }

  /** The number that bytes stand for, most significant byte first. */
  function ValueOf(bytes: Bytes): nat {
    if bytes == [] then 0 else ValueOf(bytes[..|bytes| - 1]) * 256 + bytes[|bytes| - 1]
  }

  /** The encoding is of the number, most significant byte first. */
  lemma {:induction false} BigEndianValue(width: nat, x: nat)
    requires x < Capacity(width)
    ensures ValueOf(BigEndian(width, x)) == x
  {
    if width > 0 {
      BigEndianValue(width - 1, x / 256);
      var head := BigEndian(width - 1, x / 256);
      assert (head + [x % 256])[..width - 1] == head;
    }
  }

  /** The 64-bit pattern of a round; the absent round is minus one. */
  function RoundBits(round: Round): u64 {
    var i := round.AsI64();
    if i < 0 then i + U64_LIMIT else i
  }

  /** The bytes that precede the block data in what is signed. */
  function Header(height: Height, round: Round): (bytes: Bytes)
    ensures |bytes| == 16
  {
    BigEndian(8, height) + BigEndian(8, RoundBits(round))
  }

  /** The header is the height in eight bytes, then the round in eight; the absent round
      is the two's complement of minus one. */
  lemma HeaderLayout(height: Height, round: Round)
    ensures ValueOf(Header(height, round)[..8]) == height
    ensures ValueOf(Header(height, round)[8..]) == if round.Nil? then 0xFFFF_FFFF_FFFF_FFFF else round.number
  {
    assert Capacity(8) == 0x1_0000_0000_0000_0000;
    BigEndianValue(8, height);
    BigEndianValue(8, RoundBits(round));
    assert Header(height, round)[..8] == BigEndian(8, height);
    assert Header(height, round)[8..] == BigEndian(8, RoundBits(round));
  }

  /** What is signed determines the height, the round and the data. */
  lemma SignedBytesInjective(h1: Height, r1: Round, d1: Bytes, h2: Height, r2: Round, d2: Bytes)
    requires Header(h1, r1) + d1 == Header(h2, r2) + d2
    ensures h1 == h2 && r1 == r2 && d1 == d2
  {
    var s1, s2 := Header(h1, r1) + d1, Header(h2, r2) + d2;
    assert s1[..8] == BigEndian(8, h1) && s2[..8] == BigEndian(8, h2);
    assert s1[8..16] == BigEndian(8, RoundBits(r1)) && s2[8..16] == BigEndian(8, RoundBits(r2));
    assert s1[16..] == d1 && s2[16..] == d2;
    assert Capacity(8) == U64_LIMIT;
    BigEndianInjective(8, h1, h2);
    BigEndianInjective(8, RoundBits(r1), RoundBits(r2));
  }

  function StreamIdOf(height: Height, round: u32, nonce: u32): StreamId {
    BigEndian(8, height) + BigEndian(4, round) + BigEndian(4, nonce)
  }

  /** An identifier is the height in eight bytes, the round in four and the counter in four. */
  lemma StreamIdLayout(height: Height, round: u32, nonce: u32)
    ensures var id := StreamIdOf(height, round, nonce);
            && |id| == 16
            && ValueOf(id[..8]) == height && ValueOf(id[8..12]) == round && ValueOf(id[12..]) == nonce
  {
    var id := StreamIdOf(height, round, nonce);
    assert Capacity(8) == 0x1_0000_0000_0000_0000 && Capacity(4) == 0x1_0000_0000;
    BigEndianValue(8, height);
    BigEndianValue(4, round);
    BigEndianValue(4, nonce);
    assert id[..8] == BigEndian(8, height) && id[8..12] == BigEndian(4, round) && id[12..] == BigEndian(4, nonce);
  }

  /** Two streams of a node share an identifier only if opened for the same height,
      round and counter value. */
  lemma StreamIdInjective(h1: Height, r1: u32, n1: u32, h2: Height, r2: u32, n2: u32)
    requires StreamIdOf(h1, r1, n1) == StreamIdOf(h2, r2, n2)
    ensures h1 == h2 && r1 == r2 && n1 == n2
  {
    var s1, s2 := StreamIdOf(h1, r1, n1), StreamIdOf(h2, r2, n2);
    assert s1[..8] == BigEndian(8, h1) && s2[..8] == BigEndian(8, h2);
    assert s1[8..12] == BigEndian(4, r1) && s2[8..12] == BigEndian(4, r2);
    assert s1[12..] == BigEndian(4, n1) && s2[12..] == BigEndian(4, n2);
    assert Capacity(8) == U64_LIMIT && Capacity(4) == U32_LIMIT;
    BigEndianInjective(8, h1, h2);
    BigEndianInjective(4, r1, r2);
    BigEndianInjective(4, n1, n2);
  }

  // ----------------------------------------------------------------- sending

  function ChunkParts(data: Bytes): seq<ProposalPart> {
    if |data| == 0 then []
    else if |data| <= CHUNK_SIZE then [DataPart(data)]
    else [DataPart(data[..CHUNK_SIZE])] + ChunkParts(data[CHUNK_SIZE..])
  }

  function Sign(crypto: Crypto, key: PrivateKey, height: Height, round: Round, data: Bytes): Signature {
    crypto.sign(key, crypto.keccak(Header(height, round) + data))
  }

  function ProposalPartsFor(crypto: Crypto, key: PrivateKey, address: Address,
                            height: Height, round: Round, data: Bytes): seq<ProposalPart>
  {
    [InitPart(ProposalInit(height, round, address))] + ChunkParts(data)
    + [FinPart(Sign(crypto, key, height, round, data))]
  }

  /** Builds the parts of a proposal, feeding the hasher chunk by chunk. */
  method MakeProposalParts(crypto: Crypto, key: PrivateKey, address: Address,
                           height: Height, round: Round, data: Bytes) returns (parts: seq<ProposalPart>)
    ensures parts == ProposalPartsFor(crypto, key, address, height, round, data)
  {
    var hashed := BigEndian(8, height) + BigEndian(8, RoundBits(round));
    parts := [InitPart(ProposalInit(height, round, address))];
    ghost var init := parts;
    var offset := 0;
    while offset < |data|
      invariant 0 <= offset <= |data|
      invariant hashed == Header(height, round) + data[..offset]
      invariant parts + ChunkParts(data[offset..]) == init + ChunkParts(data)
    {
      var end := if offset + CHUNK_SIZE <= |data| then offset + CHUNK_SIZE else |data|;
      var chunk := data[offset..end];
      ghost var rest := data[offset..];
      assert rest[..end - offset] == chunk && rest[end - offset..] == data[end..];
      assert rest[..|rest|] == rest;
      assert ChunkParts(rest) == [DataPart(chunk)] + ChunkParts(data[end..]);
      assert data[..end] == data[..offset] + chunk;
      parts := parts + [DataPart(chunk)];
      hashed := hashed + chunk;
      offset := end;
    }
    assert data[..offset] == data && data[offset..] == [];
    var signature := crypto.sign(key, crypto.keccak(hashed));
    parts := parts + [FinPart(signature)];
  }

  /** Cuts nothing and loses nothing: full chunks, then a shorter non-empty one. */
  lemma {:induction false} ChunksPartitionData(data: Bytes)
    ensures DataOf(ChunkParts(data)) == data
    ensures 131072 * |ChunkParts(data)| < |data| + 131072
    ensures forall i :: 0 <= i < |ChunkParts(data)| ==>
              && ChunkParts(data)[i].DataPart?
              && 0 < |ChunkParts(data)[i].bytes| <= 131072
              && (i < |ChunkParts(data)| - 1 ==> |ChunkParts(data)[i].bytes| == 131072)
    decreases |data|
  {
    if |data| > CHUNK_SIZE {
      ChunksPartitionData(data[CHUNK_SIZE..]);
      assert ChunkParts(data)[1..] == ChunkParts(data[CHUNK_SIZE..]);
      assert data == data[..CHUNK_SIZE] + data[CHUNK_SIZE..];
    } else if |data| > 0 {
      assert ChunkParts(data)[1..] == [];
    }
  }

  // --------------------------------------------------------------- receiving

  /** The bytes the receiver hashes. */
  function HashedBytes(parts: seq<ProposalPart>): Bytes {
    if parts == [] then [] else HashedOf(parts[0]) + HashedBytes(parts[1..])
  }

  function HashedOf(part: ProposalPart): Bytes {
    match part
    case InitPart(init) => Header(init.height, init.round)
    case DataPart(bytes) => bytes
    case FinPart(_) => []
  }

  function LastSignature(parts: seq<ProposalPart>): Option<Signature> {
    if parts == [] then None
    else
      var n := |parts| - 1;
      if parts[n].FinPart? then Some(parts[n].signature) else LastSignature(parts[..n])
  }

  /** The block data carried by the parts. */
  function DataOf(parts: seq<ProposalPart>): Bytes {
    if parts == [] then []
    else (if parts[0].DataPart? then parts[0].bytes else []) + DataOf(parts[1..])
  }

  function InitCount(parts: seq<ProposalPart>): nat {
    if parts == [] then 0 else (if parts[0].InitPart? then 1 else 0) + InitCount(parts[1..])
  }

  function GetByAddress(validators: seq<Validator>, address: Address): Option<Validator> {
    if validators == [] then None
    else if validators[0].address == address then Some(validators[0])
    else GetByAddress(validators[1..], address)
  }

  datatype Verification = Verified | MissingFinPart | ProposerNotFound | InvalidSignature

  function Verify(crypto: Crypto, validators: seq<Validator>, p: ProposalParts): Verification {
    var signature := LastSignature(p.parts);
    var validator := GetByAddress(validators, p.proposer);
    if signature.None? then MissingFinPart
    else if validator.None? then ProposerNotFound
    else if !crypto.verify(crypto.keccak(HashedBytes(p.parts)), signature.value, validator.value.publicKey)
    then InvalidSignature
    else Verified
  }

  /** The last Fin part is the i-th. */
  ghost predicate LastFinAt(parts: seq<ProposalPart>, i: nat) {
    i < |parts| && parts[i].FinPart? && forall k :: i < k < |parts| ==> !parts[k].FinPart?
  }

  /** The first validator with the address is the j-th. */
  ghost predicate FirstAt(validators: seq<Validator>, address: Address, j: nat) {
    j < |validators| && validators[j].address == address && forall k :: 0 <= k < j ==> validators[k].address != address
  }

  ghost predicate HasFin(parts: seq<ProposalPart>) {
    exists i :: 0 <= i < |parts| && parts[i].FinPart?
  }

  ghost predicate HasValidator(validators: seq<Validator>, address: Address) {
    exists j :: 0 <= j < |validators| && validators[j].address == address
  }

  /** The signature of the last Fin verifies, for the hash of the bytes that the parts
      carry, under the key of the first validator with the proposer's address. */
  ghost predicate Authenticated(crypto: Crypto, validators: seq<Validator>, p: ProposalParts) {
    exists i: nat, j: nat :: LastFinAt(p.parts, i) && FirstAt(validators, p.proposer, j) &&
      crypto.verify(crypto.keccak(HashedBytes(p.parts)), p.parts[i].signature, validators[j].publicKey)
  }

  lemma {:induction false} LastSignatureFound(parts: seq<ProposalPart>) returns (i: nat)
    ensures LastSignature(parts).Some? <==> HasFin(parts)
    ensures HasFin(parts) ==> LastFinAt(parts, i) && LastSignature(parts) == Some(parts[i].signature)
  {
    i := 0;
    if parts != [] {
      var n := |parts| - 1;
      if parts[n].FinPart? {
        i := n;
      } else {
        i := LastSignatureFound(parts[..n]);
        if HasFin(parts) {
          var k :| 0 <= k < |parts| && parts[k].FinPart?;
          assert parts[..n][k].FinPart?;
        }
        if HasFin(parts[..n]) {
          var k :| 0 <= k < n && parts[..n][k].FinPart?;
          assert parts[k].FinPart?;
          assert parts[i] == parts[..n][i];
          forall l | i < l < |parts| ensures !parts[l].FinPart? {
            if l < n { assert parts[l] == parts[..n][l]; }
          }
        }
      }
    }
  }

  lemma {:induction false} ValidatorFound(validators: seq<Validator>, address: Address) returns (j: nat)
    ensures GetByAddress(validators, address).Some? <==> HasValidator(validators, address)
    ensures HasValidator(validators, address) ==>
              FirstAt(validators, address, j) && GetByAddress(validators, address) == Some(validators[j])
  {
    j := 0;
    if validators != [] && validators[0].address != address {
      var k := ValidatorFound(validators[1..], address);
      j := k + 1;
      if HasValidator(validators, address) {
        var l :| 0 <= l < |validators| && validators[l].address == address;
        assert validators[1..][l - 1].address == address;
        assert validators[j] == validators[1..][k];
        forall l | 0 <= l < j ensures validators[l].address != address {
          if l > 0 { assert validators[l] == validators[1..][l - 1]; }
        }
      }
    }
  }

  /** Each answer of verification has its own condition on the parts and the validators. */
  lemma VerifyIff(crypto: Crypto, validators: seq<Validator>, p: ProposalParts)
    ensures Verify(crypto, validators, p) == Verified <==> Authenticated(crypto, validators, p)
    ensures Verify(crypto, validators, p) == MissingFinPart <==> !HasFin(p.parts)
    ensures Verify(crypto, validators, p) == ProposerNotFound <==>
            HasFin(p.parts) && !HasValidator(validators, p.proposer)
    ensures Verify(crypto, validators, p) == InvalidSignature <==>
            HasFin(p.parts) && HasValidator(validators, p.proposer) && !Authenticated(crypto, validators, p)
  {
    var i := LastSignatureFound(p.parts);
    var j := ValidatorFound(validators, p.proposer);
    if Authenticated(crypto, validators, p) {
      var k: nat, l: nat :| LastFinAt(p.parts, k) && FirstAt(validators, p.proposer, l) &&
        crypto.verify(crypto.keccak(HashedBytes(p.parts)), p.parts[k].signature, validators[l].publicKey);
      OnlyOneLast(p.parts, i, k);
      OnlyOneFirst(validators, p.proposer, j, l);
    }
  }

  lemma OnlyOneLast(parts: seq<ProposalPart>, i: nat, k: nat)
    requires LastFinAt(parts, i) && LastFinAt(parts, k)
    ensures i == k
  {
  }

  lemma OnlyOneFirst(validators: seq<Validator>, address: Address, j: nat, l: nat)
    requires FirstAt(validators, address, j) && FirstAt(validators, address, l)
    ensures j == l
  {
  }

  lemma HashedFrom(parts: seq<ProposalPart>, i: nat, before: Bytes)
    requires i < |parts|
    ensures before + HashedBytes(parts[i..]) == before + HashedOf(parts[i]) + HashedBytes(parts[i + 1..])
  {
    assert parts[i..][1..] == parts[i + 1..];
  }

  /** The bytes fed to the hasher, and the last signature seen. */
  method HashParts(parts: seq<ProposalPart>) returns (hashed: Bytes, signature: Option<Signature>)
    ensures hashed == HashedBytes(parts) && signature == LastSignature(parts)
  {
    hashed, signature := [], None;
    assert parts[0..] == parts;
    for i := 0 to |parts|
      invariant hashed + HashedBytes(parts[i..]) == HashedBytes(parts)
      invariant signature == LastSignature(parts[..i])
    {
      HashedFrom(parts, i, hashed);
      assert parts[..i + 1][..i] == parts[..i];
      ghost var before := hashed;
      match parts[i] {
        case InitPart(init) =>
          hashed := hashed + BigEndian(8, init.height);
          hashed := hashed + BigEndian(8, RoundBits(init.round));
        case DataPart(bytes) =>
          hashed := hashed + bytes;
        case FinPart(s) =>
          signature := Some(s);
      }
      assert hashed == before + HashedOf(parts[i]);
    }
    assert parts[..|parts|] == parts && parts[|parts|..] == [];
    assert hashed == HashedBytes(parts);
  }

  method VerifyProposalSignature(crypto: Crypto, validators: seq<Validator>, p: ProposalParts)
    returns (result: Verification)
    ensures result == Verify(crypto, validators, p)
    ensures result == Verified <==> Authenticated(crypto, validators, p)
    ensures result == MissingFinPart <==> !HasFin(p.parts)
    ensures result == ProposerNotFound <==> HasFin(p.parts) && !HasValidator(validators, p.proposer)
    ensures result == InvalidSignature <==>
            HasFin(p.parts) && HasValidator(validators, p.proposer) && !Authenticated(crypto, validators, p)
  {
    VerifyIff(crypto, validators, p);
    var hashed, signature := HashParts(p.parts);
    if signature.None? {
      return MissingFinPart;
    }
    var validator := GetByAddress(validators, p.proposer);
    if validator.None? {
      return ProposerNotFound;
    }
    if !crypto.verify(crypto.keccak(hashed), signature.value, validator.value.publicKey) {
      return InvalidSignature;
    }
    return Verified;
  }

  function Assemble(crypto: Crypto, p: ProposalParts): ProposedValue {
    ProposedValue(p.height, p.round, Nil, p.proposer, NewValue(crypto, DataOf(p.parts)), true)
  }

  lemma DataOfFrom(parts: seq<ProposalPart>, i: nat, before: Bytes)
    requires i < |parts|
    ensures before + DataOf(parts[i..]) ==
            (if parts[i].DataPart? then before + parts[i].bytes else before) + DataOf(parts[i + 1..])
  {
    assert parts[i..][1..] == parts[i + 1..];
  }

  method AssembleValueFromParts(crypto: Crypto, p: ProposalParts) returns (value: ProposedValue, data: Bytes)
    ensures value == Assemble(crypto, p) && data == DataOf(p.parts)
  {
    data := [];
    assert p.parts[0..] == p.parts;
    for i := 0 to |p.parts|
      invariant data + DataOf(p.parts[i..]) == DataOf(p.parts)
    {
      DataOfFrom(p.parts, i, data);
      if p.parts[i].DataPart? {
        data := data + p.parts[i].bytes;
      }
    }
    assert p.parts[|p.parts|..] == [];
    assert data == DataOf(p.parts);
    value := ProposedValue(p.height, p.round, Nil, p.proposer, NewValue(crypto, data), true);
  }

  // --------------------------------------- what is hashed, and what is assembled

  lemma {:induction false} HashedLength(parts: seq<ProposalPart>)
    ensures |HashedBytes(parts)| == 16 * InitCount(parts) + |DataOf(parts)|
    ensures InitCount(parts) == 0 ==> HashedBytes(parts) == DataOf(parts)
  {
    if parts != [] {
      HashedLength(parts[1..]);
    }
  }

  /** For any cutting into parts that starts with an Init, the receiver hashes the
      header followed by exactly the data it assembles if and only if there is no
      further Init among the parts. */
  lemma HashedIsHeaderAndData(init: ProposalInit, rest: seq<ProposalPart>)
    ensures var parts := [InitPart(init)] + rest;
            HashedBytes(parts) == Header(init.height, init.round) + DataOf(parts) <==> InitCount(rest) == 0
  {
    var parts := [InitPart(init)] + rest;
    assert parts[1..] == rest;
    HashedLength(rest);
  }

  /** A reassembled proposal starts with the Init that it is delivered under. */
  ghost predicate StartsWithInit(p: ProposalParts) {
    p.parts != [] && p.parts[0] == InitPart(ProposalInit(p.height, p.round, p.proposer))
  }

  /** When what is hashed is what was signed for some slot, that slot is the one the
      proposal names, and the data assembled is the data signed if and only if the
      proposal contains no further Init. */
  lemma SignedDataIffOneInit(p: ProposalParts, height: Height, round: Round, data: Bytes)
    requires StartsWithInit(p) && HashedBytes(p.parts) == Header(height, round) + data
    ensures height == p.height && round == p.round
    ensures DataOf(p.parts) == data <==> InitCount(p.parts) == 1
  {
    var rest := p.parts[1..];
    assert HashedBytes(p.parts) == Header(p.height, p.round) + HashedBytes(rest);
    SignedBytesInjective(p.height, p.round, HashedBytes(rest), height, round, data);
    HashedLength(rest);
  }

  lemma {:induction false} SentPartsData(chunks: seq<ProposalPart>, signature: Signature)
    requires forall c :: c in chunks ==> c.DataPart?
    ensures var rest := chunks + [FinPart(signature)];
            InitCount(rest) == 0 && DataOf(rest) == DataOf(chunks) && LastSignature(rest) == Some(signature)
  {
    var rest := chunks + [FinPart(signature)];
    assert rest[|rest| - 1] == FinPart(signature);
    if chunks == [] {
      assert rest[1..] == [];
    } else {
      assert rest[0] == chunks[0] && rest[1..] == chunks[1..] + [FinPart(signature)];
      SentPartsData(chunks[1..], signature);
      assert chunks[0] in chunks && chunks[0].DataPart?;
      assert DataOf(rest) == chunks[0].bytes + DataOf(rest[1..]);
    }
  }

  lemma FramedPartsCarry(init: ProposalInit, chunks: seq<ProposalPart>, signature: Signature)
    requires forall c :: c in chunks ==> c.DataPart?
    ensures var parts := [InitPart(init)] + (chunks + [FinPart(signature)]);
            && HashedBytes(parts) == Header(init.height, init.round) + DataOf(chunks) && InitCount(parts) == 1
            && DataOf(parts) == DataOf(chunks) && LastSignature(parts) == Some(signature)
  {
    var rest := chunks + [FinPart(signature)];
    var parts := [InitPart(init)] + rest;
    SentPartsData(chunks, signature);
    assert parts[1..] == rest;
    HashedIsHeaderAndData(init, rest);
    assert parts[|parts| - 1] == FinPart(signature);
  }

  lemma BuiltPartsCarry(crypto: Crypto, key: PrivateKey, address: Address, height: Height, round: Round, data: Bytes)
    ensures var parts := ProposalPartsFor(crypto, key, address, height, round, data);
            && HashedBytes(parts) == Header(height, round) + data && InitCount(parts) == 1
            && DataOf(parts) == data
            && LastSignature(parts) == Some(Sign(crypto, key, height, round, data))
  {
    var init, signature := ProposalInit(height, round, address), Sign(crypto, key, height, round, data);
    ChunksPartitionData(data);
    FramedPartsCarry(init, ChunkParts(data), signature);
    assert [InitPart(init)] + (ChunkParts(data) + [FinPart(signature)]) ==
           ProposalPartsFor(crypto, key, address, height, round, data);
  }

  /** The parts a node builds from a block hash to the signed bytes, carry the
      block, and verify under the key of their proposer. */
  lemma BuiltPartsVerify(crypto: Crypto, key: PrivateKey, address: Address, height: Height, round: Round,
                         data: Bytes, validators: seq<Validator>)
    requires SignaturesVerify(crypto)
    requires GetByAddress(validators, address).Some?
    requires GetByAddress(validators, address).value.publicKey == crypto.publicKey(key)
    ensures var parts := ProposalPartsFor(crypto, key, address, height, round, data);
            && HashedBytes(parts) == Header(height, round) + data && InitCount(parts) == 1
            && DataOf(parts) == data
            && Verify(crypto, validators, ProposalParts(height, round, address, parts)) == Verified
  {
    BuiltPartsCarry(crypto, key, address, height, round, data);
  }
}
