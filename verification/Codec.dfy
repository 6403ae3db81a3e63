/** Conversions between the application's values and their protobuf records. */
module Codec {
  import opened Types

  // ---------------------------------------------------------------- records

  datatype SignatureProto = SignatureProto(bytes: Bytes)

  datatype PartProto =
    | InitProto(height: u64, round: u32, proposer: Option<Address>)
    | DataProto(bytes: Bytes)
    | FinProto(signature: Option<SignatureProto>)

  datatype PartMessageProto = PartMessageProto(part: Option<PartProto>)

  /** A part travels inside a stream message as the bytes of its own record. */
  datatype ContentProto = PartContentProto(bytes: Bytes) | FinContentProto(fin: bool)

  datatype StreamMessageProto = StreamMessageProto(streamId: Bytes, sequence: u64, content: Option<ContentProto>)

  datatype ValueProto = ValueProto(value: u64, extensions: Bytes)

  datatype ProposedValueProto =
    ProposedValueProto(height: u64, round: u32, validRound: Option<u32>,
                       proposer: Option<Address>, value: Option<ValueProto>, validity: bool)

  datatype CommitSignatureProto =
    CommitSignatureProto(validatorAddress: Option<Address>, signature: Option<SignatureProto>)

  datatype CertificateProto =
    CertificateProto(height: u64, round: u32, valueId: Option<u64>, signatures: Option<seq<CommitSignatureProto>>)

  datatype VoteType = Prevote | Precommit

  datatype VoteProto =
    VoteProto(voteType: VoteType, height: u64, round: u32, value: Option<u64>, validatorAddress: Option<Address>)

  datatype MessageProto = ProposalMessage(height: u64) | VoteMessage(vote: VoteProto)

  datatype SignedMessageProto = SignedMessageProto(message: Option<MessageProto>, signature: Option<SignatureProto>)

  datatype SyncedValueProto = SyncedValueProto(valueBytes: Bytes, certificate: Option<CertificateProto>)

  datatype SyncResponseProto =
    | ValueResponseProto(height: u64, value: Option<SyncedValueProto>)
    | VoteSetResponseProto(height: u64, round: u32, voteSet: Option<seq<SignedMessageProto>>)

  // ----------------------------------------------------------------- values

  datatype Vote =
    Vote(typ: VoteType, height: Height, round: Round, value: Option<u64>, address: Address, extension: Option<Bytes>)

  datatype SignedVote = SignedVote(message: Vote, signature: Signature)

  datatype RawDecidedValue = RawDecidedValue(valueBytes: Bytes, certificate: CommitCertificate)

  datatype SyncResponse =
    | ValueResponse(height: Height, value: Option<RawDecidedValue>)
    | VoteSetResponse(height: Height, round: Round, votes: seq<SignedVote>)

  // -------------------------------------------- signatures, parts and streams

  function EncodeSignature(s: Signature): SignatureProto {
    SignatureProto(s)
  }

  function DecodeSignature(p: SignatureProto): Option<Signature> {
    if |p.bytes| == 64 then Some(p.bytes) else None
  }

  /** The wire format of a part's record, as far as it matters here. */
  datatype Wire = Wire(write: PartMessageProto -> Bytes, read: Bytes -> Option<PartMessageProto>)

  /** Reading undoes writing. */
  ghost predicate Lossless(wire: Wire) {
    forall p :: wire.read(wire.write(p)) == Some(p)
  }

  /** Encoding stops the application when a required round is absent. */
  function EncodePart(part: ProposalPart): Outcome<PartProto> {
    match part
    case InitPart(init) =>
      if init.round.Nil? then Stopped(Panic)
      else Done(InitProto(init.height, init.round.number, Some(init.proposer)))
    case DataPart(bytes) => Done(DataProto(bytes))
    case FinPart(signature) => Done(FinProto(Some(EncodeSignature(signature))))
  }

  function DecodePart(p: PartProto): Option<ProposalPart> {
    match p
    case InitProto(height, round, proposer) =>
      if proposer.None? then None else Some(InitPart(ProposalInit(height, At(round), proposer.value)))
    case DataProto(bytes) => Some(DataPart(bytes))
    case FinProto(signature) =>
      if signature.None? || DecodeSignature(signature.value).None? then None
      else Some(FinPart(DecodeSignature(signature.value).value))
  }

  function PartToBytes(wire: Wire, part: ProposalPart): Outcome<Bytes> {
    match EncodePart(part)
    case Stopped(reason) => Stopped(reason)
    case Done(p) => Done(wire.write(PartMessageProto(Some(p))))
  }

  function PartFromBytes(wire: Wire, bytes: Bytes): Option<ProposalPart> {
    match wire.read(bytes)
    case None => None
    case Some(message) => if message.part.None? then None else DecodePart(message.part.value)
  }

  function EncodeStreamMessage(wire: Wire, msg: StreamMessage): Outcome<StreamMessageProto> {
    match msg.content
    case EndOfStream => Done(StreamMessageProto(msg.streamId, msg.sequence, Some(FinContentProto(true))))
    case PartContent(part) =>
      match PartToBytes(wire, part)
      case Stopped(reason) => Stopped(reason)
      case Done(bytes) => Done(StreamMessageProto(msg.streamId, msg.sequence, Some(PartContentProto(bytes))))
  }

  function DecodeStreamMessage(wire: Wire, p: StreamMessageProto): Option<StreamMessage> {
    if p.content.None? then None
    else match p.content.value
      case FinContentProto(_) => Some(StreamMessage(p.streamId, p.sequence, EndOfStream))
      case PartContentProto(bytes) =>
        match PartFromBytes(wire, bytes)
        case None => None
        case Some(part) => Some(StreamMessage(p.streamId, p.sequence, PartContent(part)))
  }

  /** Every message that can be encoded is recovered, the part through its own bytes. */
  lemma StreamMessageRoundTrip(wire: Wire, msg: StreamMessage)
    requires Lossless(wire)
    ensures var encoded := EncodeStreamMessage(wire, msg);
            && (encoded.Stopped? <==> AsInit(msg.content).Some? && AsInit(msg.content).value.round.Nil?)
            && (encoded.Done? ==> DecodeStreamMessage(wire, encoded.value) == Some(msg))
  {
  }

  /** No decoded proposal names an absent round. */
  lemma DecodedInitHasRound(wire: Wire, p: StreamMessageProto)
    ensures var msg := DecodeStreamMessage(wire, p);
            msg.Some? && AsInit(msg.value.content).Some? ==> !AsInit(msg.value.content).value.round.Nil?
  {
  }

  /** A part is decoded only from its own encoding. */
  lemma DecodedPartEncodes(p: PartProto)
    ensures DecodePart(p).Some? ==> EncodePart(DecodePart(p).value) == Done(p)
  {
  }

  /** A message is decoded only from a record that has a content: the end mark, or bytes
      that read as a part; the identifier and the sequence number are those of the record. */
  lemma DecodedMessageIsRecorded(wire: Wire, p: StreamMessageProto)
    ensures DecodeStreamMessage(wire, p).Some? ==>
              var msg := DecodeStreamMessage(wire, p).value;
              && msg.streamId == p.streamId && msg.sequence == p.sequence && p.content.Some?
              && match msg.content
                 case EndOfStream => p.content.value.FinContentProto?
                 case PartContent(part) =>
                   && p.content.value.PartContentProto? && EncodePart(part).Done?
                   && wire.read(p.content.value.bytes) == Some(PartMessageProto(Some(EncodePart(part).value)))
  {
    if p.content.Some? && p.content.value.PartContentProto? {
      var read := wire.read(p.content.value.bytes);
      if read.Some? && read.value.part.Some? {
        DecodedPartEncodes(read.value.part.value);
      }
    }
  }

  // ---------------------------------------------------------- proposed values

  function AsU32(round: Round): Option<u32> {
    match round
    case Nil => None
    case At(n) => Some(n)
  }

  function EncodeProposedValue(v: ProposedValue): Outcome<ProposedValueProto> {
    if v.round.Nil? then Stopped(Panic)
    else Done(ProposedValueProto(v.height, v.round.number, AsU32(v.validRound), Some(v.proposer),
                                 Some(ValueProto(v.value.value, v.value.extensions)), v.valid))
  }

  function DecodeProposedValue(p: ProposedValueProto): Option<ProposedValue> {
    if p.proposer.None? || p.value.None? then None
    else Some(ProposedValue(p.height, At(p.round), if p.validRound.None? then Nil else At(p.validRound.value),
                            p.proposer.value, Value(p.value.value.value, p.value.value.extensions), p.validity))
  }

  /** Every proposed value with a round is recovered, its valid round absent or not. */
  lemma ProposedValueRoundTrip(v: ProposedValue)
    ensures var encoded := EncodeProposedValue(v);
            && (encoded.Stopped? <==> v.round.Nil?)
            && (encoded.Done? ==> DecodeProposedValue(encoded.value) == Some(v))
  {
  }

  /** A proposed value is decoded only from its own encoding. */
  lemma DecodedProposedValueEncodes(p: ProposedValueProto)
    ensures DecodeProposedValue(p).Some? ==> EncodeProposedValue(DecodeProposedValue(p).value) == Done(p)
  {
  }

  // ------------------------------------------------------------- certificates

  function EncodeCommitSignatures(signatures: seq<CommitSignature>): seq<CommitSignatureProto> {
    seq(|signatures|, i requires 0 <= i < |signatures| =>
      CommitSignatureProto(Some(signatures[i].address), Some(EncodeSignature(signatures[i].signature))))
  }

  /** Fails as a whole on the first entry that cannot be decoded. */
  function DecodeCommitSignatures(ps: seq<CommitSignatureProto>): Option<seq<CommitSignature>> {
    if ps == [] then Some([])
    else
      var s := ps[0];
      if s.signature.None? || DecodeSignature(s.signature.value).None? || s.validatorAddress.None? then None
      else
        var rest := DecodeCommitSignatures(ps[1..]);
        if rest.None? then None
        else Some([CommitSignature(s.validatorAddress.value, DecodeSignature(s.signature.value).value)] + rest.value)
  }

  lemma {:induction false} CommitSignaturesRoundTrip(signatures: seq<CommitSignature>)
    ensures DecodeCommitSignatures(EncodeCommitSignatures(signatures)) == Some(signatures)
  {
    if signatures != [] {
      assert EncodeCommitSignatures(signatures)[1..] == EncodeCommitSignatures(signatures[1..]);
      CommitSignaturesRoundTrip(signatures[1..]);
      assert signatures == [signatures[0]] + signatures[1..];
    }
  }

  function EncodeCertificate(c: CommitCertificate): Outcome<CertificateProto> {
    if c.round.Nil? then Stopped(Panic)
    else Done(CertificateProto(c.height, c.round.number, Some(c.valueId), Some(EncodeCommitSignatures(c.signatures))))
  }

  function DecodeCertificate(p: CertificateProto): Option<CommitCertificate> {
    if p.valueId.None? || p.signatures.None? || DecodeCommitSignatures(p.signatures.value).None? then None
    else Some(CommitCertificate(p.height, At(p.round), p.valueId.value,
                                DecodeCommitSignatures(p.signatures.value).value))
  }

  /** Every certificate with a round is recovered, its signatures in order. */
  lemma CertificateRoundTrip(c: CommitCertificate)
    ensures var encoded := EncodeCertificate(c);
            && (encoded.Stopped? <==> c.round.Nil?)
            && (encoded.Done? ==> DecodeCertificate(encoded.value) == Some(c))
  {
    CommitSignaturesRoundTrip(c.signatures);
  }

  /** A list of signatures is decoded only from its own encoding: one bad entry fails it. */
  lemma {:induction false} DecodedSignaturesEncode(ps: seq<CommitSignatureProto>)
    ensures DecodeCommitSignatures(ps).Some? ==> EncodeCommitSignatures(DecodeCommitSignatures(ps).value) == ps
  {
    if ps != [] && DecodeCommitSignatures(ps).Some? {
      DecodedSignaturesEncode(ps[1..]);
      var signatures := DecodeCommitSignatures(ps).value;
      assert EncodeCommitSignatures(signatures)[1..] == EncodeCommitSignatures(signatures[1..]);
      assert EncodeCommitSignatures(signatures)[0] == ps[0];
      assert ps == [ps[0]] + ps[1..];
    }
  }

  /** A certificate is decoded only from its own encoding. */
  lemma DecodedCertificateEncodes(p: CertificateProto)
    ensures DecodeCertificate(p).Some? ==> EncodeCertificate(DecodeCertificate(p).value) == Done(p)
  {
    if p.signatures.Some? {
      DecodedSignaturesEncode(p.signatures.value);
    }
  }

  // -------------------------------------------------------------------- votes

  function EncodeVote(v: SignedVote): Outcome<SignedMessageProto> {
    var m := v.message;
    if m.round.Nil? then Stopped(Panic)
    else Done(SignedMessageProto(
                Some(VoteMessage(VoteProto(m.typ, m.height, m.round.number, m.value, Some(m.address)))),
                Some(EncodeSignature(v.signature))))
  }

  function DecodeVote(p: SignedMessageProto): Option<SignedVote> {
    if p.signature.None? || p.message.None? || !p.message.value.VoteMessage? then None
    else
      var v := p.message.value.vote;
      var signature := DecodeSignature(p.signature.value);
      if signature.None? || v.validatorAddress.None? then None
      else Some(SignedVote(Vote(v.voteType, v.height, At(v.round), v.value, v.validatorAddress.value, None),
                           signature.value))
  }

  function EncodeVoteSet(votes: seq<SignedVote>): Outcome<seq<SignedMessageProto>> {
    if votes == [] then Done([])
    else
      var first := EncodeVote(votes[0]);
      if first.Stopped? then Stopped(first.reason)
      else
        var rest := EncodeVoteSet(votes[1..]);
        if rest.Stopped? then Stopped(rest.reason) else Done([first.value] + rest.value)
  }

  function DecodedEntry(p: SignedMessageProto): seq<SignedVote> {
    match DecodeVote(p)
    case None => []
    case Some(vote) => [vote]
  }

  /** Skips the entries that cannot be decoded. */
  function DecodeVoteSet(ps: seq<SignedMessageProto>): seq<SignedVote> {
    if ps == [] then [] else DecodedEntry(ps[0]) + DecodeVoteSet(ps[1..])
  }

  /** What the wire format keeps of a vote: everything but its extension. */
  function WithoutExtension(v: SignedVote): SignedVote {
    v.(message := v.message.(extension := None))
  }

  function WithoutExtensions(votes: seq<SignedVote>): seq<SignedVote> {
    seq(|votes|, i requires 0 <= i < |votes| => WithoutExtension(votes[i]))
  }

  /** A vote set can be encoded exactly when every vote has a round; then no vote is
      lost or reordered, and each comes back without its extension. */
  lemma {:induction false} VoteSetRoundTrip(votes: seq<SignedVote>)
    ensures var encoded := EncodeVoteSet(votes);
            && (encoded.Done? <==> forall i :: 0 <= i < |votes| ==> !votes[i].message.round.Nil?)
            && (encoded.Done? ==> DecodeVoteSet(encoded.value) == WithoutExtensions(votes))
  {
    if votes != [] {
      VoteSetRoundTrip(votes[1..]);
      var rest := EncodeVoteSet(votes[1..]);
      if EncodeVoteSet(votes).Done? {
        assert ([EncodeVote(votes[0]).value] + rest.value)[1..] == rest.value;
        assert WithoutExtensions(votes) == [WithoutExtension(votes[0])] + WithoutExtensions(votes[1..]);
      }
      if forall i :: 0 <= i < |votes| ==> !votes[i].message.round.Nil? {
        forall i | 0 <= i < |votes[1..]| ensures !votes[1..][i].message.round.Nil? {
          assert votes[1..][i] == votes[i + 1];
        }
      } else if !votes[0].message.round.Nil? {
        var i :| 0 <= i < |votes| && votes[i].message.round.Nil?;
        assert votes[1..][i - 1] == votes[i];
      }
    }
  }

  /** A vote set is recovered as it was if and only if no vote carries an extension. */
  lemma VoteSetRecoveredIff(votes: seq<SignedVote>)
    requires EncodeVoteSet(votes).Done?
    ensures DecodeVoteSet(EncodeVoteSet(votes).value) == votes <==>
            forall i :: 0 <= i < |votes| ==> votes[i].message.extension.None?
  {
    VoteSetRoundTrip(votes);
    if WithoutExtensions(votes) == votes {
      forall i | 0 <= i < |votes| ensures votes[i].message.extension.None? {
        assert WithoutExtensions(votes)[i] == votes[i];
      }
    }
  }

  /** A vote is decoded only from its own encoding, and without an extension. */
  lemma DecodedVoteEncodes(p: SignedMessageProto)
    ensures DecodeVote(p).Some? ==>
              EncodeVote(DecodeVote(p).value) == Done(p) && DecodeVote(p).value.message.extension.None?
  {
  }

  /** Each entry of a vote set is decoded or skipped by itself, whatever the others are. */
  lemma {:induction false} VoteSetSkips(ps: seq<SignedMessageProto>, last: SignedMessageProto)
    ensures DecodeVoteSet(ps + [last]) == DecodeVoteSet(ps) + DecodedEntry(last)
  {
    var all := ps + [last];
    if ps == [] {
      assert all[0] == last && all[1..] == ps;
    } else {
      var first, rest := ps[0], ps[1..];
      VoteSetSkips(rest, last);
      assert all[0] == first && all[1..] == rest + [last];
      assert DecodeVoteSet(all) == DecodedEntry(first) + DecodeVoteSet(rest + [last]);
      assert DecodeVoteSet(ps) == DecodedEntry(first) + DecodeVoteSet(rest);
    }
  }

  // ------------------------------------------------------------ sync responses

  function EncodeSyncResponse(r: SyncResponse): Outcome<SyncResponseProto> {
    match r
    case ValueResponse(height, None) => Done(ValueResponseProto(height, None))
    case ValueResponse(height, Some(raw)) =>
      (match EncodeCertificate(raw.certificate)
       case Stopped(reason) => Stopped(reason)
       case Done(c) => Done(ValueResponseProto(height, Some(SyncedValueProto(raw.valueBytes, Some(c))))))
    case VoteSetResponse(height, round, votes) =>
      if round.Nil? then Stopped(Panic)
      else match EncodeVoteSet(votes)
        case Stopped(reason) => Stopped(reason)
        case Done(ps) => Done(VoteSetResponseProto(height, round.number, Some(ps)))
  }

  function DecodeSyncedValue(p: SyncedValueProto): Option<RawDecidedValue> {
    if p.certificate.None? || DecodeCertificate(p.certificate.value).None? then None
    else Some(RawDecidedValue(p.valueBytes, DecodeCertificate(p.certificate.value).value))
  }

  function DecodeSyncResponse(p: SyncResponseProto): Option<SyncResponse> {
    match p
    case ValueResponseProto(height, value) =>
      if value.None? then Some(ValueResponse(height, None))
      else if DecodeSyncedValue(value.value).None? then None
      else Some(ValueResponse(height, DecodeSyncedValue(value.value)))
    case VoteSetResponseProto(height, round, voteSet) =>
      if voteSet.None? then None
      else Some(VoteSetResponse(height, At(round), DecodeVoteSet(voteSet.value)))
  }

  /** A response can be encoded exactly when the rounds it names are present; it is then
      recovered, its votes without their extensions. */
  lemma SyncResponseRoundTrip(r: SyncResponse)
    ensures var encoded := EncodeSyncResponse(r);
            && (encoded.Done? <==>
                  match r
                  case ValueResponse(_, value) => value.Some? ==> !value.value.certificate.round.Nil?
                  case VoteSetResponse(_, round, votes) =>
                    !round.Nil? && forall i :: 0 <= i < |votes| ==> !votes[i].message.round.Nil?)
            && (encoded.Done? ==>
                  DecodeSyncResponse(encoded.value) ==
                  Some(if r.VoteSetResponse? then r.(votes := WithoutExtensions(r.votes)) else r))
  {
    match r {
      case ValueResponse(_, None) =>
      case ValueResponse(_, Some(raw)) => CertificateRoundTrip(raw.certificate);
      case VoteSetResponse(_, _, votes) => VoteSetRoundTrip(votes);
    }
  }

  /** A response is decoded only when the records it needs are present: a value response
      only from its own encoding, a vote set response from the entries that can be decoded. */
  lemma DecodedSyncResponse(p: SyncResponseProto)
    ensures p.ValueResponseProto? && DecodeSyncResponse(p).Some? ==>
              EncodeSyncResponse(DecodeSyncResponse(p).value) == Done(p)
    ensures p.VoteSetResponseProto? && DecodeSyncResponse(p).Some? ==>
              && p.voteSet.Some?
              && DecodeSyncResponse(p).value == VoteSetResponse(p.height, At(p.round), DecodeVoteSet(p.voteSet.value))
  {
    if p.ValueResponseProto? && p.value.Some? && p.value.value.certificate.Some? {
      DecodedCertificateEncodes(p.value.value.certificate.value);
    }
  }
}
