/** A value kept in RAM that survives a reboot, guarded by a CRC-16-CCITT
    integrity word.

    The value is modelled by its object representation, the size bytes that a
    trivially copyable T occupies. The CRC is the checksum library's, which is
    not part of this model: every Persistent is given it as a function of the
    bytes. */
module PersistentRam {
  import opened Base

  class Persistent {
    /** sizeof(T). */
    const size: nat
    /** CRC-16-CCITT over a value's bytes. */
    const crc: seq<byte> -> u16
    var contents: seq<byte>
    var storedCrc: u16

    ghost predicate Valid()
      reads this
    {
      |contents| == size
    }

    /** The constructor writes nothing: the value and the CRC are whatever
        the RAM held at boot. */
    constructor (size: nat, crc: seq<byte> -> u16, ramContents: seq<byte>, ramCrc: u16)
      requires |ramContents| == size
      ensures Valid() && this.size == size && this.crc == crc
      ensures contents == ramContents && storedCrc == ramCrc
    {
      this.size := size;
      this.crc := crc;
      contents := ramContents;
      storedCrc := ramCrc;
    }

    /** has_value: the stored CRC matches the CRC of the stored bytes. */
    predicate HasValue()
      reads this
    {
      storedCrc == crc(contents)
    }

    /** emplace: constructs the value in place, seals it with its CRC and
        returns the value now held. */
    method Emplace(constructed: seq<byte>) returns (held: seq<byte>)
      requires Valid() && |constructed| == size
      modifies this
      ensures Valid() && contents == constructed && storedCrc == crc(constructed)
      ensures HasValue() && held == contents
    {
      contents := constructed;
      storedCrc := crc(contents);
      held := contents;
    }

    /** operator=: stores value and seals it with its CRC. */
    method Assign(value: seq<byte>)
      requires Valid() && |value| == size
      modifies this
      ensures Valid() && contents == value && storedCrc == crc(value)
      ensures HasValue()
    {
      contents := value;
      storedCrc := crc(contents);
    }

    /** reset: zeroes every byte of the value and the CRC. Whether a value is
        then reported depends on the CRC of all-zero bytes: reset by itself
        does not mean "no value". */
    method Reset()
      requires Valid()
      modifies this
      ensures Valid() && contents == Zeros(size) && storedCrc == 0
      ensures HasValue() <==> crc(Zeros(size)) == 0
    {
      contents := Zeros(size);
      storedCrc := 0;
    }

    /** value: the held bytes; the caller must know a value is held. */
    method Value() returns (value: seq<byte>)
      requires HasValue()
      ensures value == contents && crc(value) == storedCrc
    {
      value := contents;
    }
  }

  /** After a write, any change to the bytes that changes their CRC is
      noticed: has_value turns false. */
  method CorruptionIsDetected(p: Persistent, value: seq<byte>, corrupted: seq<byte>)
    returns (noticed: bool)
    requires p.Valid() && |value| == p.size && |corrupted| == p.size
    requires p.crc(corrupted) != p.crc(value)
    modifies p
    ensures p.contents == corrupted && p.storedCrc == p.crc(value)
    ensures !p.HasValue() && noticed
  {
    p.Assign(value);
    p.contents := corrupted;
    noticed := !p.HasValue();
  }
}
