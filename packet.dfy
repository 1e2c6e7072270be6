/** The RPC packet envelope and the header room it needs on the wire.

    A packet is encoded as a Protocol Buffers message: every field is a
    one-byte key followed by a base-128 varint (the payload field by its
    varint length and then the bytes). The encoder itself is not part of this
    model; what is modelled is the header reserve, MinEncodedSizeBytes, that a
    channel keeps in front of the payload, and the size of the whole
    encoding, EncodedSize. */
module Packets {
  import opened Base

  /** The kind of a packet; only Rpc is sent by the modelled code. */
  datatype PacketType = Rpc | StreamEnd | Cancel | Error {
    function Code(): (c: nat)
      ensures c < 4
    {
      match this
      case Rpc => 0
      case StreamEnd => 1
      case Cancel => 2
      case Error => 3
    }
  }

  /** One wire message. The payload is borrowed from the enclosing buffer in
      the source; here it is the bytes themselves. */
  datatype Packet = Packet(
    ptype: PacketType,
    channelId: u32,
    serviceId: u32,
    methodId: u32,
    payload: seq<byte>,
    status: Status)

  /** 128 to the power k: the first value that needs k + 1 varint bytes. */
  function Pow128(k: nat): (p: nat)
    ensures p >= 1
  {
    if k == 0 then 1 else 128 * Pow128(k - 1)
  }

  /** Number of bytes of the base-128 varint encoding of n. */
  function VarintSize(n: nat): (r: nat)
    ensures r >= 1
    ensures n < 128 <==> r == 1
  {
    if n < 128 then 1 else 1 + VarintSize(n / 128)
  }

  /** VarintSize(n) is the least k with n < 128^k: the varint holds seven bits
      per byte and uses no byte more than it needs. */
  lemma {:induction false} VarintSizeIsLeast(n: nat)
    ensures n < Pow128(VarintSize(n))
    ensures Pow128(VarintSize(n) - 1) <= n || n == 0
  {
    if n >= 128 {
      VarintSizeIsLeast(n / 128);
      assert VarintSize(n) == 1 + VarintSize(n / 128);
      assert Pow128(VarintSize(n)) == 128 * Pow128(VarintSize(n / 128));
      if n / 128 < 128 {
        assert Pow128(VarintSize(n) - 1) == 128;
      } else {
        assert Pow128(VarintSize(n) - 1) == 128 * Pow128(VarintSize(n / 128) - 1);
      }
    }
  }

  /** A value below 128^k never needs more than k varint bytes. */
  lemma {:induction false} VarintSizeAtMost(n: nat, k: nat)
    requires 1 <= k && n < Pow128(k)
    ensures VarintSize(n) <= k
  {
    if n >= 128 {
      assert k >= 2;
      assert n / 128 < Pow128(k - 1);
      VarintSizeAtMost(n / 128, k - 1);
    }
  }

  /** A 32-bit value takes between one and five varint bytes. */
  lemma VarintSizeOfU32(n: u32)
    ensures 1 <= VarintSize(n) <= 5
  {
    assert Pow128(5) == 34359738368;
    VarintSizeAtMost(n, 5);
  }

  /** Key byte plus varint value of one scalar field. */
  function FieldSize(value: nat): nat
  {
    1 + VarintSize(value)
  }

  /** The header room reserved in front of the payload: the type, channel,
      service, method and status fields at their current values, and two bytes
      for the payload's key and (shortest) length prefix. It does not depend on
      the payload. */
  function MinEncodedSizeBytes(p: Packet): (r: nat)
    ensures 12 <= r <= 24
    ensures r == 12 <==> p.channelId < 128 && p.serviceId < 128 && p.methodId < 128
  {
    VarintSizeOfU32(p.channelId);
    VarintSizeOfU32(p.serviceId);
    VarintSizeOfU32(p.methodId);
    FieldSize(p.ptype.Code())
      + FieldSize(p.channelId)
      + FieldSize(p.serviceId)
      + FieldSize(p.methodId)
      + 2
      + FieldSize(p.status.Code())
  }

  /** The size of p on the wire: the reserve counts a one-byte payload
      length, so a payload of 128 bytes or more adds the extra bytes of its
      longer length varint. */
  function EncodedSize(p: Packet): (r: nat)
    ensures r >= MinEncodedSizeBytes(p) + |p.payload|
    ensures r == MinEncodedSizeBytes(p) + |p.payload| <==> |p.payload| < 128
  {
    MinEncodedSizeBytes(p) - 1 + VarintSize(|p.payload|) + |p.payload|
  }

  /** The reserve is the same whatever payload the packet carries, so a
      buffer sized for a packet with an empty payload serves the same packet
      with its real payload. */
  lemma ReserveIgnoresPayload(p: Packet, payload: seq<byte>)
    ensures MinEncodedSizeBytes(p.(payload := payload)) == MinEncodedSizeBytes(p)
  {
  }

  /** The packet of the channel tests: RPC on channel 1, service 42, method 100. */
  const TestPacket := Packet(Rpc, 1, 42, 100, [], Ok)

  /** Two bytes each for type, channel, service, method, payload key and status. */
  const ReservedSize: nat := 2 + 2 + 2 + 2 + 2 + 2

  lemma TestPacketReserve()
    ensures MinEncodedSizeBytes(TestPacket) == ReservedSize == 12
  {
  }
}
