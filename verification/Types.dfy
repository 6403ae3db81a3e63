/** Values shared by every component of the application: heights, rounds,
    proposal parts, stream messages, values and certificates. */
module Types {

  const U32_LIMIT: int := 0x1_0000_0000
  const U64_LIMIT: int := 0x1_0000_0000_0000_0000

  type u32 = x: int | 0 <= x < U32_LIMIT
  type u64 = x: int | 0 <= x < U64_LIMIT
  type Byte = x: int | 0 <= x < 256
  type Bytes = seq<Byte>

  datatype Option<+T> = None | Some(value: T)

  /** How a handler can end: normally, or by stopping the application task. */
  datatype StopReason = Error | Panic
  datatype Outcome<+T> = Done(value: T) | Stopped(reason: StopReason)

  /** Opaque identifiers: only equality is ever used on them. */
  type PeerId = nat
  type Address = nat
  type Hash = nat
  type PrivateKey = nat
  type PublicKey = nat
  type StreamId = Bytes

  /** A stream is identified by the peer that sends it and the identifier it chose. */
  type StreamKey = (PeerId, StreamId)

  type Signature = s: Bytes | |s| == 64 witness seq(64, i => 0)

  type Height = u64

  /** A round number, or the absent round. */
  datatype Round = Nil | At(number: u32) {
    function AsI64(): int {
      match this
      case Nil => -1
      case At(n) => n
    }
  }

  type RoundKey = (Height, Round)

  datatype ProposalInit = ProposalInit(height: Height, round: Round, proposer: Address)

  datatype ProposalPart =
    | InitPart(init: ProposalInit)
    | DataPart(bytes: Bytes)
    | FinPart(signature: Signature)

  /** What a stream message carries: one part, or the end-of-stream mark. */
  datatype StreamContent = PartContent(part: ProposalPart) | EndOfStream

  datatype StreamMessage = StreamMessage(streamId: StreamId, sequence: u64, content: StreamContent) {
    predicate IsFirst() { sequence == 0 }

    predicate IsFin() { content.EndOfStream? }
  }

  datatype ProposalParts =
    ProposalParts(height: Height, round: Round, proposer: Address, parts: seq<ProposalPart>)

  datatype Value = Value(value: u64, extensions: Bytes)

  datatype ProposedValue =
    ProposedValue(height: Height, round: Round, validRound: Round,
                  proposer: Address, value: Value, valid: bool)

  datatype CommitSignature = CommitSignature(address: Address, signature: Signature)

  datatype CommitCertificate =
    CommitCertificate(height: Height, round: Round, valueId: u64, signatures: seq<CommitSignature>)

  datatype Validator = Validator(address: Address, publicKey: PublicKey, votingPower: u64)

  /** Keccak-256, Ed25519 and SipHash, of which only the listed behaviour is used. */
  datatype Crypto = Crypto(
    keccak: Bytes -> Bytes,
    sign: (PrivateKey, Bytes) -> Signature,
    verify: (Bytes, Signature, PublicKey) -> bool,
    publicKey: PrivateKey -> PublicKey,
    sipHash: Bytes -> u64)

  /** The only law assumed of the signature scheme: a genuine signature verifies. */
  ghost predicate SignaturesVerify(crypto: Crypto) {
    forall key: PrivateKey, digest: Bytes ::
      crypto.verify(digest, crypto.sign(key, digest), crypto.publicKey(key))
  }

  function AsInit(content: StreamContent): Option<ProposalInit> {
    if content.PartContent? && content.part.InitPart? then Some(content.part.init) else None
  }

  function NewValue(crypto: Crypto, data: Bytes): Value {
    Value(crypto.sipHash(data), data)
  }
}
