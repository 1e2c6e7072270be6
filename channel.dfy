/** Channels and their output buffers.

    A ChannelOutput is the transport: it lends a buffer of a fixed size and
    takes back the number of bytes to send. A Channel pairs an id with an
    output. An OutputBuffer is the buffer lent for one outgoing packet; its
    payload region starts after the header reserve of that packet. The
    channel implementation is not part of this model: what is modelled is the
    sizing contract that the channel tests pin down. */
module Channels {
  import opened Base
  import opened Packets

  /** The transport behind a channel. It lends buffers of bufferSize bytes;
      sent records, in order, the byte counts handed back for sending. */
  class ChannelOutput {
    const name: Option<string>
    const bufferSize: nat
    var sent: seq<nat>

    /** The name is kept exactly as given, including no name at all. */
    constructor (name: Option<string>, bufferSize: nat)
      ensures this.name == name && this.bufferSize == bufferSize
      ensures sent == []
    {
      this.name := name;
      this.bufferSize := bufferSize;
      sent := [];
    }
  }

  /** Channel id 0 marks a slot that is not bound to any channel. */
  const UnassignedChannelId: u32 := 0

  datatype Channel = Channel(id: u32, output: ChannelOutput?)

  /** The transport buffer lent for one packet, by its size in bytes. */
  datatype OutputBuffer = OutputBuffer(size: nat)

  /** A byte span inside an output buffer: either the null span, or the
      region of length bytes starting offset bytes into the buffer. */
  datatype Span = NullSpan | Slice(offset: nat, length: nat) {
    predicate IsEmpty() { NullSpan? || length == 0 }
  }

  /** Channel::AcquireBuffer: the buffer the channel's output lends. */
  function AcquireBuffer(channel: Channel): (b: OutputBuffer)
    requires channel.output != null
    ensures b.size == channel.output.bufferSize
  {
    OutputBuffer(channel.output.bufferSize)
  }

  /** OutputBuffer::payload: the part of the buffer after the header reserve
      of packet p, or the null span when the reserve does not fit. */
  function Payload(buffer: OutputBuffer, p: Packet): (r: Span)
    ensures r.NullSpan? <==> buffer.size < MinEncodedSizeBytes(p)
    ensures r.Slice? ==> r.offset == MinEncodedSizeBytes(p) && r.offset + r.length == buffer.size
  {
    var reserve := MinEncodedSizeBytes(p);
    if buffer.size < reserve then NullSpan else Slice(reserve, buffer.size - reserve)
  }

  /** The encoded packet fits in the buffer. */
  predicate Fits(buffer: OutputBuffer, p: Packet)
  {
    EncodedSize(p) <= buffer.size
  }

  /** The status Channel::Send reports for packet p in buffer. */
  function SendStatus(buffer: OutputBuffer, p: Packet): (s: Status)
    ensures s == Ok || s == Internal
    ensures s == Ok <==> Fits(buffer, p)
  {
    if Fits(buffer, p) then Ok else Internal
  }

  /** Channel::Send: encodes p into buffer and hands the encoded bytes to the
      output. A packet that does not fit is reported as Internal and nothing is
      handed over, so no write ever runs past the buffer. */
  method Send(channel: Channel, buffer: OutputBuffer, p: Packet) returns (s: Status)
    requires channel.output != null
    modifies channel.output
    ensures s == SendStatus(buffer, p)
    ensures s == Ok ==> channel.output.sent == old(channel.output.sent) + [EncodedSize(p)]
    ensures s == Ok ==> channel.output.sent[|channel.output.sent| - 1] <= buffer.size
    ensures s != Ok ==> channel.output.sent == old(channel.output.sent)
  {
    if !Fits(buffer, p) {
      return Internal;
    }
    channel.output.sent := channel.output.sent + [EncodedSize(p)];
    return Ok;
  }

  /** Whatever the buffer, a payload put in the region Payload gives for a
      packet is sent with status Ok exactly when it and the extra bytes of its
      length varint fit the region; so every payload under 128 bytes that is
      no longer than the region is sent. */
  lemma PayloadRegionIsSendable(buffer: OutputBuffer, p: Packet, payload: seq<byte>)
    requires Payload(buffer, p).Slice?
    ensures SendStatus(buffer, p.(payload := payload)) == Ok
        <==> VarintSize(|payload|) - 1 + |payload| <= Payload(buffer, p).length
    ensures |payload| < 128 ==>
      (SendStatus(buffer, p.(payload := payload)) == Ok <==> |payload| <= Payload(buffer, p).length)
  {
    ReserveIgnoresPayload(p, payload);
  }

  /** And one byte more than that region is always refused. */
  lemma PayloadRegionIsTight(buffer: OutputBuffer, p: Packet, payload: seq<byte>)
    requires Payload(buffer, p).Slice? && |payload| > Payload(buffer, p).length
    ensures SendStatus(buffer, p.(payload := payload)) == Internal
  {
    ReserveIgnoresPayload(p, payload);
  }

  /** A zero-length buffer has no payload region. */
  lemma EmptyBufferHasNoPayload()
    ensures Payload(OutputBuffer(0), TestPacket).IsEmpty()
  {
  }

  /** A buffer one byte short of the reserve has no payload region and the
      packet cannot be sent. */
  lemma TooSmallBuffer()
    ensures Payload(OutputBuffer(ReservedSize - 1), TestPacket).IsEmpty()
    ensures SendStatus(OutputBuffer(ReservedSize - 1), TestPacket) == Internal
  {
    TestPacketReserve();
  }

  /** A buffer of exactly the reserve gives an empty region right after the
      header, and the packet is sent. */
  lemma ExactFitBuffer()
    ensures Payload(OutputBuffer(ReservedSize), TestPacket) == Slice(ReservedSize, 0)
    ensures SendStatus(OutputBuffer(ReservedSize), TestPacket) == Ok
  {
    TestPacketReserve();
  }

  /** One payload byte in an exact-fit buffer is refused. */
  lemma PayloadDoesNotFit()
    ensures SendStatus(OutputBuffer(ReservedSize), TestPacket.(payload := [0])) == Internal
  {
    TestPacketReserve();
  }

  /** A buffer three reserves long leaves two reserves for the payload. */
  lemma ExtraRoomBuffer()
    ensures Payload(OutputBuffer(3 * ReservedSize), TestPacket)
         == Slice(ReservedSize, 3 * ReservedSize - ReservedSize)
    ensures SendStatus(OutputBuffer(3 * ReservedSize), TestPacket) == Ok
  {
    TestPacketReserve();
  }
}
