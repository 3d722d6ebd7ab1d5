/** The buffer in which the tuner backend hands an ATSC section to the
    parser: the frequency in bytes 0..3, the section length in bytes 4..5
    and, from byte DATA_OFFSET to the end, the bytes of the section struct,
    BUFFER_SIZE bytes in all. The integers are copied in host byte order;
    the model takes a little-endian host. */
module Envelope {
  import opened Common

  const BUFFER_SIZE: nat := 4096
  const DATA_OFFSET: nat := 6
  const SIZE_OFFSET: nat := 4
  const FREQUENCY_OFFSET: nat := 0
  const FREQUENCY_WIDTH: nat := 4
  const LENGTH_WIDTH: nat := 2

  /** n in width bytes, least significant first. */
  function LittleEndian(n: nat, width: nat): (bs: seq<uint8>)
    ensures |bs| == width
  {
    if width == 0 then [] else [n % 0x100] + LittleEndian(n / 0x100, width - 1)
  }

  function FromLittleEndian(bs: seq<uint8>): nat
  {
    if bs == [] then 0 else bs[0] + 0x100 * FromLittleEndian(bs[1..])
  }

  function Power256(width: nat): nat
  {
    if width == 0 then 1 else 0x100 * Power256(width - 1)
  }

  lemma {:induction false} LittleEndianRoundTrip(n: nat, width: nat)
    requires n < Power256(width)
    ensures FromLittleEndian(LittleEndian(n, width)) == n
    decreases width
  {
    if width > 0 {
      LittleEndianRoundTrip(n / 0x100, width - 1);
      assert LittleEndian(n, width)[1..] == LittleEndian(n / 0x100, width - 1);
    }
  }

  /** The buffer with the frequency and length written in front of body,
      the bytes of the section struct that the copy to DATA_OFFSET leaves
      inside the buffer; they fill it up to its end. */
  function WriteEnvelope(frequency: uint32, sectionLength: uint16, body: seq<uint8>): (buf: seq<uint8>)
    requires |body| == BUFFER_SIZE - DATA_OFFSET
    ensures |buf| == BUFFER_SIZE
  {
    LittleEndian(frequency, FREQUENCY_WIDTH) + LittleEndian(sectionLength, LENGTH_WIDTH) + body
  }

  /** The memcpy of the first four bytes in ParserATSC::Worker. */
  function ReadFrequency(buf: seq<uint8>): uint32
    requires |buf| >= FREQUENCY_WIDTH
  {
    FromLittleEndianBound(buf[..FREQUENCY_WIDTH]);
    assert Power256(FREQUENCY_WIDTH) == TWO_POW_32;
    FromLittleEndian(buf[..FREQUENCY_WIDTH])
  }

  lemma {:induction false} FromLittleEndianBound(bs: seq<uint8>)
    ensures FromLittleEndian(bs) < Power256(|bs|)
    decreases |bs|
  {
    if bs != [] {
      FromLittleEndianBound(bs[1..]);
    }
  }

  function ReadSectionLength(buf: seq<uint8>): nat
    requires |buf| >= DATA_OFFSET
  {
    FromLittleEndian(buf[SIZE_OFFSET .. SIZE_OFFSET + LENGTH_WIDTH])
  }

  /** Where the parser takes the section from. */
  function SectionBytes(buf: seq<uint8>): seq<uint8>
    requires |buf| >= DATA_OFFSET
  {
    buf[DATA_OFFSET..]
  }

  /** The parser reads back exactly the frequency and the length the backend
      wrote, and finds at DATA_OFFSET the bytes copied there. */
  lemma EnvelopeRoundTrip(frequency: uint32, sectionLength: uint16, body: seq<uint8>)
    requires |body| == BUFFER_SIZE - DATA_OFFSET
    ensures var buf := WriteEnvelope(frequency, sectionLength, body);
      && ReadFrequency(buf) == frequency
      && ReadSectionLength(buf) == sectionLength
      && SectionBytes(buf) == body
  {
    var buf := WriteEnvelope(frequency, sectionLength, body);
    var f := LittleEndian(frequency, FREQUENCY_WIDTH);
    var l := LittleEndian(sectionLength, LENGTH_WIDTH);
    assert buf[..FREQUENCY_WIDTH] == f;
    assert buf[SIZE_OFFSET .. SIZE_OFFSET + LENGTH_WIDTH] == l;
    LittleEndianRoundTrip(sectionLength, LENGTH_WIDTH);
    assert Power256(FREQUENCY_WIDTH) == TWO_POW_32;
    LittleEndianRoundTrip(frequency, FREQUENCY_WIDTH);
  }
}
