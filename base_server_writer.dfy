/** The server side of a streaming RPC: a writer that is open until it is
    finished or moved from, and that sends payloads on its call's channel
    through one output buffer at a time. */
module ServerWriters {
  import opened Base
  import opened Packets
  import opened Channels

  datatype WriterState = Open | Closed

  /** The call a writer answers: its channel and the ids of the service and
      method that were invoked. */
  datatype ServerCall = ServerCall(channel: Channel, serviceId: u32, methodId: u32)

  class BaseServerWriter {
    var call: ServerCall
    var response: OutputBuffer
    var state: WriterState

    /** A writer for an accepted call starts open, holding no buffer. */
    constructor (call: ServerCall)
      ensures this.call == call && response == OutputBuffer(0) && state == Open
    {
      this.call := call;
      response := OutputBuffer(0);
      state := Open;
    }

    predicate IsOpen()
      reads this
    {
      state == Open
    }

    /** The envelope of an outgoing stream message: an RPC packet on the
        call's channel for the call's service and method, carrying payload. */
    function PacketFor(payload: seq<byte>): (p: Packet)
      reads this
      ensures p.ptype == Rpc && p.status == Ok && p.payload == payload
      ensures p.channelId == call.channel.id
      ensures p.serviceId == call.serviceId && p.methodId == call.methodId
    {
      Packet(Rpc, call.channel.id, call.serviceId, call.methodId, payload, Ok)
    }

    /** Move-assignment: this writer takes other's call, buffer and state,
        and other is left closed. Moving a writer onto itself therefore
        closes it. */
    method MoveFrom(other: BaseServerWriter)
      modifies this, other
      ensures call == old(other.call) && response == old(other.response)
      ensures other.state == Closed
      ensures other != this ==> state == old(other.state)
      ensures other == this ==> state == Closed
    {
      call := other.call;
      response := other.response;
      state := other.state;
      other.state := Closed;
    }

    /** Finish closes an open writer; a writer that is not open is left
        exactly as it was, so a second Finish does nothing. */
    method Finish()
      modifies this`state
      ensures state == Closed
      ensures old(state) == Closed ==> unchanged(this)
    {
      if !IsOpen() {
        return;
      }
      state := Closed;
    }

    /** AcquirePayloadBuffer: on a closed writer, the null span and no change,
        whatever the channel. On an open writer, the channel's buffer becomes
        the response buffer and the result is its payload region for this
        writer's packets. */
    method AcquirePayloadBuffer() returns (payload: Span)
      requires IsOpen() ==> call.channel.output != null
      modifies this`response
      ensures !IsOpen() ==> payload == NullSpan && response == old(response)
      ensures IsOpen() ==> response == AcquireBuffer(call.channel)
      ensures IsOpen() ==> payload == Payload(response, PacketFor([]))
    {
      if !IsOpen() {
        return NullSpan;
      }
      response := AcquireBuffer(call.channel);
      return Payload(response, PacketFor([]));
    }

    /** ReleasePayloadBuffer: on a closed writer, FailedPrecondition, and
        neither the writer nor the channel is touched. On an open writer,
        exactly the status of sending the payload in the response buffer; the
        buffer goes to the channel with the send, so the writer holds no
        buffer afterwards. The writer's state never changes. */
    method ReleasePayloadBuffer(payload: seq<byte>) returns (s: Status)
      requires IsOpen() ==> call.channel.output != null
      modifies this`response, call.channel.output
      ensures state == old(state)
      ensures !IsOpen() ==> s == FailedPrecondition && response == old(response)
      ensures !IsOpen() && call.channel.output != null ==>
        call.channel.output.sent == old(call.channel.output.sent)
      ensures IsOpen() ==> s == SendStatus(old(response), PacketFor(payload))
      ensures IsOpen() ==> response == OutputBuffer(0)
      ensures IsOpen() && s == Ok ==>
        call.channel.output.sent
        == old(call.channel.output.sent) + [EncodedSize(PacketFor(payload))]
      ensures IsOpen() && s != Ok ==> call.channel.output.sent == old(call.channel.output.sent)
    {
      if !IsOpen() {
        return FailedPrecondition;
      }
      s := Send(call.channel, response, PacketFor(payload));
      response := OutputBuffer(0);
    }
  }

  /** A writer holding no buffer cannot send anything: every packet needs at
      least its header reserve. */
  lemma ReleasedBufferRefusesSend(p: Packet)
    ensures Payload(OutputBuffer(0), p).IsEmpty()
    ensures SendStatus(OutputBuffer(0), p) == Internal
  {
  }

  /** Acquire then release: the region AcquirePayloadBuffer hands out is the
      payload region of the channel's buffer. A payload that fits it together
      with the extra bytes of its length varint is sent with Ok, in particular
      every payload under 128 bytes no longer than the region; anything longer
      gets Internal. The writer keeps its call, stays open and holds no buffer
      afterwards. */
  method AcquireThenRelease(writer: BaseServerWriter, payload: seq<byte>)
    returns (region: Span, s: Status)
    requires writer.call.channel.output != null && writer.IsOpen()
    modifies writer, writer.call.channel.output
    ensures writer.call == old(writer.call) && writer.IsOpen()
    ensures region == Payload(AcquireBuffer(old(writer.call.channel)), old(writer.PacketFor([])))
    ensures region.Slice? && VarintSize(|payload|) - 1 + |payload| <= region.length ==> s == Ok
    ensures region.Slice? && VarintSize(|payload|) - 1 + |payload| > region.length ==> s == Internal
    ensures region.Slice? && |payload| < 128 && |payload| <= region.length ==> s == Ok
    ensures region.Slice? && |payload| > region.length ==> s == Internal
    ensures region.NullSpan? ==> s == Internal
    ensures writer.response == OutputBuffer(0)
  {
    region := writer.AcquirePayloadBuffer();
    ghost var buffer := writer.response;
    s := writer.ReleasePayloadBuffer(payload);
    if region.Slice? {
      PayloadRegionIsSendable(buffer, writer.PacketFor([]), payload);
      if |payload| > region.length {
        PayloadRegionIsTight(buffer, writer.PacketFor([]), payload);
      }
    }
    assert writer.PacketFor([]).(payload := payload) == writer.PacketFor(payload);
  }

  /** Each acquired buffer serves one release: releasing again without
      acquiring anew is refused, even for an empty payload. */
  method SecondReleaseIsRefused(writer: BaseServerWriter, first: seq<byte>, second: seq<byte>)
    returns (s1: Status, s2: Status)
    requires writer.call.channel.output != null && writer.IsOpen()
    modifies writer, writer.call.channel.output
    ensures s2 == Internal
    ensures writer.call == old(writer.call) && writer.IsOpen()
    ensures writer.call.channel.output.sent == old(writer.call.channel.output.sent)
      || |writer.call.channel.output.sent| == |old(writer.call.channel.output.sent)| + 1
  {
    var region := writer.AcquirePayloadBuffer();
    s1 := writer.ReleasePayloadBuffer(first);
    s2 := writer.ReleasePayloadBuffer(second);
    ReleasedBufferRefusesSend(writer.PacketFor(second));
  }
}
