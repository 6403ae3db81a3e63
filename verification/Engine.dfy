/** The Engine API client: what it asks of the execution client, and what it makes
    of the replies. */
module Engine {
  import opened Types

  datatype Payload = Payload(
    parentHash: Hash,
    blockHash: Hash,
    blockNumber: nat,
    timestamp: nat,
    prevRandao: Hash,
    feeRecipient: Address,
    transactions: seq<Bytes>)

  datatype ExecutionBlock = ExecutionBlock(
    blockHash: Hash, blockNumber: nat, parentHash: Hash, timestamp: nat, prevRandao: Hash)

  datatype PayloadAttributes = PayloadAttributes(
    timestamp: nat,
    prevRandao: Hash,
    suggestedFeeRecipient: Address,
    withdrawals: Option<seq<nat>>,
    parentBeaconBlockRoot: Option<Hash>)

  datatype Status = Valid | Invalid | Syncing | Accepted

  datatype PayloadStatus = PayloadStatus(status: Status, latestValidHash: Option<Hash>)

  type PayloadId = nat

  datatype ForkchoiceUpdated = ForkchoiceUpdated(payloadStatus: PayloadStatus, payloadId: Option<PayloadId>)

  /** The forkchoice state sent to the execution client. */
  datatype ForkchoiceState = ForkchoiceState(head: Hash, safe: Hash, finalized: Hash)

  /** Calls return `None` when the request fails or times out. */
  type ForkchoiceReply = Option<ForkchoiceUpdated>
  type NewPayloadReply = Option<PayloadStatus>
  type GetPayloadReply = Option<Payload>

  /** Head, safe and finalized always name the same block. */
  function ForkchoiceFor(head: Hash): ForkchoiceState {
    ForkchoiceState(head, head, head)
  }

  /** The recipient address whose every byte is 42, as an opaque value. */
  const FEE_RECIPIENT: Address := 42

  /** A timestamp above that of the head, and the fields that the third version requires. */
  function AttributesFor(latest: ExecutionBlock): (attributes: PayloadAttributes)
    ensures attributes.timestamp > latest.timestamp && attributes.prevRandao == latest.prevRandao
    ensures attributes.withdrawals == Some([]) && attributes.parentBeaconBlockRoot == Some(latest.blockHash)
  {
    PayloadAttributes(latest.timestamp + 1, latest.prevRandao, FEE_RECIPIENT, Some([]), Some(latest.blockHash))
  }

  /** Which of the methods used the client says it has. */
  datatype Capabilities = Capabilities(forkchoiceUpdatedV3: bool, getPayloadV3: bool, newPayloadV3: bool)

  /** Outcome of asking the client for its methods: it must have all three. */
  function CheckCapabilities(reply: Option<Capabilities>): (r: Outcome<()>)
    ensures r == Done(()) <==>
              reply.Some? && reply.value.forkchoiceUpdatedV3 && reply.value.getPayloadV3 && reply.value.newPayloadV3
    ensures r.Stopped? ==> r.reason == Error
  {
    if reply.None? then Stopped(Error)
    else if !reply.value.forkchoiceUpdatedV3 || !reply.value.getPayloadV3 || !reply.value.newPayloadV3
    then Stopped(Error)
    else Done(())
  }

  /** Outcome of asking for the latest block: the request may fail, and there may be none. */
  function LatestBlock(reply: Option<Option<ExecutionBlock>>): (r: Outcome<ExecutionBlock>)
    ensures r.Done? <==> reply.Some? && reply.value.Some?
    ensures r.Done? ==> reply == Some(Some(r.value))
    ensures r == Stopped(Error) <==> reply.None?
  {
    match reply
    case None => Stopped(Error)
    case Some(None) => Stopped(Panic)
    case Some(Some(block)) => Done(block)
  }

  /** Outcome of moving the head without asking for a block: only a VALID reply that
      names the latest valid hash and starts no build counts. */
  function SetLatestForkchoiceState(reply: ForkchoiceReply): (r: Outcome<Hash>)
    ensures r.Done? ==>
              && reply.Some? && reply.value.payloadId.None?
              && reply.value.payloadStatus == PayloadStatus(Valid, Some(r.value))
    ensures r == Stopped(Panic) <==>
              && reply.Some?
              && (reply.value.payloadId.Some? || reply.value.payloadStatus == PayloadStatus(Valid, None))
    ensures r == Stopped(Error) <==>
              reply.None? || (reply.value.payloadId.None? && reply.value.payloadStatus.status != Valid)
  {
    if reply.None? then Stopped(Error)
    else
      var ForkchoiceUpdated(status, id) := reply.value;
      if id.Some? then Stopped(Panic)
      else if status.status != Valid then Stopped(Error)
      else if status.latestValidHash.None? then Stopped(Panic)
      else Done(status.latestValidHash.value)
  }

  /** Outcome of asking for a block on top of the latest one. */
  function GenerateBlock(latest: ExecutionBlock, reply: ForkchoiceReply, payload: GetPayloadReply)
    : (r: Outcome<Payload>)
    ensures r.Done? ==>
              && reply.Some? && reply.value.payloadId.Some?
              && reply.value.payloadStatus == PayloadStatus(Valid, Some(latest.blockHash))
              && payload == Some(r.value)
    ensures r == Stopped(Panic) <==>
              && reply.Some?
              && var ForkchoiceUpdated(status, id) := reply.value;
                 status.latestValidHash != Some(latest.blockHash) || (status.status == Valid && id.None?)
    ensures r == Stopped(Error) <==>
              reply.None? ||
              (reply.value.payloadStatus.latestValidHash == Some(latest.blockHash) &&
               (reply.value.payloadStatus.status != Valid || (reply.value.payloadId.Some? && payload.None?)))
  {
    if reply.None? then Stopped(Error)
    else
      var ForkchoiceUpdated(status, id) := reply.value;
      if status.latestValidHash != Some(latest.blockHash) then Stopped(Panic)
      else if status.status != Valid then Stopped(Error)
      else if id.None? then Stopped(Panic)
      else if payload.None? then Stopped(Error)
      else Done(payload.value)
  }
}
