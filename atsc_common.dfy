/** Byte-level decoders shared by the ATSC PSIP parser: GPS-to-Unix time,
    indexed lookups in the caption service and service location descriptors
    (ATSC A/65 section 6.9) and the multiple string structure (A/65
    section 6.10). */
module AtscCommon {
  import opened Common

  // ---------------------------------------------------------------------
  // Time
  // ---------------------------------------------------------------------

  /** Seconds from 1970-01-01 00:00:00 UTC to 1980-01-06 00:00:00 UTC. */
  const GPS_EPOCH: int := 315964800

  /** atsctime_to_unixtime: the guint32 argument plus the int constant is an
      unsigned 32-bit sum, so it wraps before it is widened to time_t. */
  function AtscTimeToUnix(atsc: uint32): (t: uint32)
  {
    (atsc + GPS_EPOCH) % TWO_POW_32
  }

  /** Up to GPS second 2^32 - GPS_EPOCH (in 2106) the conversion is the plain
      offset by the GPS epoch. */
  lemma AtscTimeIsOffset(atsc: uint32)
    requires atsc < TWO_POW_32 - GPS_EPOCH
    ensures AtscTimeToUnix(atsc) == atsc + GPS_EPOCH
  {
  }

  lemma AtscTimeMonotone(a: uint32, b: uint32)
    requires a < b < TWO_POW_32 - GPS_EPOCH
    ensures AtscTimeToUnix(a) < AtscTimeToUnix(b)
  {
  }

  /** From GPS second 2^32 - GPS_EPOCH on, the 32-bit sum wraps to 1970. */
  lemma AtscTimeWraps(atsc: uint32)
    requires atsc >= TWO_POW_32 - GPS_EPOCH
    ensures AtscTimeToUnix(atsc) == atsc + GPS_EPOCH - TWO_POW_32
    ensures AtscTimeToUnix(atsc) < GPS_EPOCH
  {
  }

  // An independent civil calendar, to check the epoch constant.

  predicate IsLeapYear(y: int)
  {
    (y % 4 == 0 && y % 100 != 0) || y % 400 == 0
  }

  function DaysInYear(y: int): nat
  {
    if IsLeapYear(y) then 366 else 365
  }

  /** Days from 1970-01-01 to January 1st of year y. */
  function DaysToYear(y: int): nat
    requires y >= 1970
    decreases y - 1970
  {
    if y == 1970 then 0 else DaysToYear(y - 1) + DaysInYear(y - 1)
  }

  function DaysInMonth(y: int, m: int): nat
    requires 1 <= m <= 12
  {
    if m == 2 then (if IsLeapYear(y) then 29 else 28)
    else if m == 4 || m == 6 || m == 9 || m == 11 then 30
    else 31
  }

  function DaysToMonth(y: int, m: int): nat
    requires 1 <= m <= 12
    decreases m
  {
    if m == 1 then 0 else DaysToMonth(y, m - 1) + DaysInMonth(y, m - 1)
  }

  /** Unix time of midnight UTC on the given civil date. */
  function UnixMidnight(y: int, m: int, d: int): int
    requires y >= 1970 && 1 <= m <= 12 && 1 <= d
  {
    (DaysToYear(y) + DaysToMonth(y, m) + d - 1) * 86400
  }

  /** GPS second 0 is the Unix time of 1980-01-06, the start of GPS time. */
  lemma {:induction false} GpsZeroIsGpsEpochDate()
    ensures AtscTimeToUnix(0) == UnixMidnight(1980, 1, 6)
  {
    assert DaysToYear(1972) == 730;
    assert DaysToYear(1976) == 730 + 366 + 365 + 365 + 365;
    assert DaysToYear(1980) == 3652;
  }

  // ---------------------------------------------------------------------
  // Descriptors
  // ---------------------------------------------------------------------

  /** A decoded descriptor; data holds all of its bytes, from the tag byte on,
      so descriptor_length bytes follow the two header bytes. */
  datatype Descriptor = Descriptor(tag: uint8, length: uint8, data: seq<uint8>)

  predicate WellFormed(d: Descriptor)
  {
    |d.data| == d.length + 2
  }

  function Chars(bs: seq<uint8>): (s: string)
    ensures |s| == |bs|
    ensures forall i :: 0 <= i < |bs| ==> s[i] as int == bs[i]
  {
    if bs == [] then [] else [bs[0] as char] + Chars(bs[1..])
  }

  /** The number of whole 6-byte records the lookups accept: the code divides
      descriptor_length by 6 and ignores the element count byte. */
  function RecordCount(d: Descriptor): nat
  {
    d.length / 6
  }

  /** Caption service descriptor: after tag, length and the service count
      byte come 6-byte services whose first 3 bytes are the language; the
      lookup reads only those 3 bytes. */
  function CaptionLanguageBytes(d: Descriptor, idx: nat): (lang: seq<uint8>)
    requires WellFormed(d) && idx < RecordCount(d)
    ensures |lang| == 3
  {
    d.data[3 + 6 * idx .. 6 + 6 * idx]
  }

  /** gst_mpegts_descriptor_parse_atsc_caption_service_idx: the result pairs
      the success flag with the new value of the caller's language. */
  function CaptionServiceIdx(d: Descriptor, idx: nat, language: string): (r: (bool, string))
    requires WellFormed(d)
    ensures r.0 <==> idx < RecordCount(d)
    ensures r.0 ==> r.1 == Chars(CaptionLanguageBytes(d, idx))
    ensures !r.0 ==> r.1 == language
  {
    if d.length / 6 <= idx then (false, language)
    else
      var p := 3 + 6 * idx;
      (true, Chars(d.data[p .. p + 3]))
  }

  /** Service location descriptor: after tag, length, PCR_PID (2 bytes) and
      number_elements come 6-byte elements: stream_type, elementary_PID
      (2 bytes, big-endian) and a 3-byte language. */
  datatype ServiceLocationElement = ServiceLocationElement(streamType: uint8, elementaryPid: uint16, language: string)

  /** The last record the length/6 guard accepts lies inside the descriptor.
      This holds for every descriptor_length of the form 3 + 6 * n that A/65
      prescribes; for a length that is 0, 1 or 2 modulo 6 (and at least 6)
      the guard lets the code read past the descriptor's last byte. */
  predicate LocationRecordsInside(d: Descriptor)
  {
    RecordCount(d) == 0 || 6 * RecordCount(d) + 3 <= d.length
  }

  function LocationRecord(d: Descriptor, idx: nat): (rec: seq<uint8>)
    requires WellFormed(d) && LocationRecordsInside(d) && idx < RecordCount(d)
    ensures |rec| == 6
  {
    d.data[5 + 6 * idx .. 11 + 6 * idx]
  }

  function BigEndian16(hi: uint8, lo: uint8): uint16
  {
    hi * 256 + lo
  }

  /** gst_mpegts_descriptor_parse_atsc_service_location_idx. The pid is masked
      with 0x01ff (nine bits), not with the 13-bit pid mask 0x1fff. */
  function ServiceLocationIdx(d: Descriptor, idx: nat): (r: Option<ServiceLocationElement>)
    requires WellFormed(d) && LocationRecordsInside(d)
    ensures r.Some? <==> idx < RecordCount(d)
    ensures r.Some? ==> r.value.streamType == LocationRecord(d, idx)[0]
    ensures r.Some? ==> r.value.elementaryPid == BigEndian16(LocationRecord(d, idx)[1], LocationRecord(d, idx)[2]) % 0x200
    ensures r.Some? ==> r.value.elementaryPid <= 511
    ensures r.Some? ==> r.value.language == Chars(LocationRecord(d, idx)[3..])
  {
    if d.length / 6 <= idx then None
    else
      var p := 5 + 6 * idx;
      var pid := Mask01ff(BigEndian16(d.data[p + 1], d.data[p + 2]));
      Some(ServiceLocationElement(d.data[p], pid, Chars(d.data[p + 3 .. p + 6])))
  }

  /** x & 0x01ff on a 16-bit value: it keeps the low nine bits. */
  function Mask01ff(x: uint16): uint16
  {
    x % 0x200
  }

  // ---------------------------------------------------------------------
  // Multiple string structure (A/65 section 6.10)
  // ---------------------------------------------------------------------

  /** One segment; compressedData is absent when compressed_data_size is 0. */
  datatype Segment = Segment(compressionType: uint8, mode: uint8, compressedDataSize: uint8, compressedData: Option<seq<uint8>>)

  datatype MultString = MultString(langCode: seq<uint8>, segments: seq<Segment>)

  /** Reference reading of n segments from position pos: each needs a 3-byte
      header and then its compressed_data_size bytes. The result carries the
      position after the last segment. */
  function Segments(data: seq<uint8>, pos: nat, n: nat): (r: Option<(seq<Segment>, nat)>)
    requires pos <= |data|
    ensures r.Some? ==> |r.value.0| == n && pos <= r.value.1 <= |data|
    decreases n
  {
    if n == 0 then Some(([], pos))
    else if |data| - pos < 3 then None
    else
      var size := data[pos + 2];
      if |data| - (pos + 3) < size then None
      else
        var seg := Segment(data[pos], data[pos + 1], size, if size == 0 then None else Some(data[pos + 3 .. pos + 3 + size]));
        match Segments(data, pos + 3 + size, n - 1)
        case None => None
        case Some((rest, end)) => Some(([seg] + rest, end))
  }

  /** Reference reading of n strings from position pos: each needs a 4-byte
      header (3 language bytes and num_segments) and then its segments. */
  function Strings(data: seq<uint8>, pos: nat, n: nat): (r: Option<(seq<MultString>, nat)>)
    requires pos <= |data|
    ensures r.Some? ==> |r.value.0| == n && pos <= r.value.1 <= |data|
    decreases n
  {
    if n == 0 then Some(([], pos))
    else if |data| - pos < 4 then None
    else
      match Segments(data, pos + 4, data[pos + 3])
      case None => None
      case Some((segs, next)) =>
        match Strings(data, next, n - 1)
        case None => None
        case Some((rest, end)) => Some(([MultString(data[pos .. pos + 3], segs)] + rest, end))
  }

  /** What _parse_atsc_mult_string returns; None is its null. */
  function MultStringOf(data: seq<uint8>): Option<seq<MultString>>
  {
    if |data| == 0 then None
    else match Strings(data, 1, data[0])
      case None => None
      case Some((strs, _)) => Some(strs)
  }

  /** _parse_atsc_mult_string, walking a cursor through the bytes and
      leaving at the first header or payload that does not fit. */
  method ParseMultString(data: seq<uint8>) returns (res: Option<seq<MultString>>)
    ensures res == MultStringOf(data)
  {
    if |data| == 0 {
      return None;
    }
    var numStrings := data[0];
    var pos := 1;
    var strs: seq<MultString> := [];
    var i := 0;
    ThenNothing(Strings(data, 1, numStrings));
    while i < numStrings
      invariant 0 <= i <= numStrings && 1 <= pos <= |data| && |strs| == i
      invariant Strings(data, 1, numStrings) == Then(strs, Strings(data, pos, numStrings - i))
      decreases numStrings - i
    {
      if |data| - pos < 4 {
        return None;
      }
      var lang := data[pos .. pos + 3];
      var numSegments := data[pos + 3];
      var segsRead := ParseSegments(data, pos + 4, numSegments);
      if segsRead.None? {
        return None;
      }
      var (segs, next) := segsRead.value;
      assert Strings(data, pos, numStrings - i) == Then([MultString(lang, segs)], Strings(data, next, numStrings - i - 1));
      ThenOne(strs, MultString(lang, segs), Strings(data, next, numStrings - i - 1));
      strs := strs + [MultString(lang, segs)];
      pos := next;
      i := i + 1;
    }
    assert strs + [] == strs;
    return Some(strs);
  }

  /** The inner loop of _parse_atsc_mult_string: reads the segments of one
      string, returning them with the cursor after the last one. */
  method ParseSegments(data: seq<uint8>, start: nat, numSegments: nat) returns (res: Option<(seq<Segment>, nat)>)
    requires start <= |data|
    ensures res == Segments(data, start, numSegments)
  {
    var pos := start;
    var segs: seq<Segment> := [];
    var j := 0;
    ThenNothing(Segments(data, start, numSegments));
    while j < numSegments
      invariant 0 <= j <= numSegments && start <= pos <= |data| && |segs| == j
      invariant Segments(data, start, numSegments) == Then(segs, Segments(data, pos, numSegments - j))
      decreases numSegments - j
    {
      if |data| - pos < 3 {
        return None;
      }
      var compressionType := data[pos];
      var mode := data[pos + 1];
      var size := data[pos + 2];
      pos := pos + 3;
      if |data| - pos < size {
        return None;
      }
      var payload := if size == 0 then None else Some(data[pos .. pos + size]);
      ThenOne(segs, Segment(compressionType, mode, size, payload), Segments(data, pos + size, numSegments - j - 1));
      segs := segs + [Segment(compressionType, mode, size, payload)];
      pos := pos + size;
      j := j + 1;
    }
    assert segs + [] == segs;
    return Some((segs, pos));
  }

  /** Prefixes an already-read part to the reading of the rest. */
  function Then<T>(done: seq<T>, rest: Option<(seq<T>, nat)>): Option<(seq<T>, nat)>
  {
    match rest
    case None => None
    case Some((more, end)) => Some((done + more, end))
  }

  lemma ThenNothing<T>(rest: Option<(seq<T>, nat)>)
    ensures Then([], rest) == rest
  {
    if rest.Some? {
      assert [] + rest.value.0 == rest.value.0;
    }
  }

  lemma ThenOne<T>(done: seq<T>, x: T, rest: Option<(seq<T>, nat)>)
    ensures Then(done, Then([x], rest)) == Then(done + [x], rest)
  {
    if rest.Some? {
      assert done + ([x] + rest.value.0) == done + [x] + rest.value.0;
    }
  }

  // The encoding the reader inverts.

  function EncodeSegment(s: Segment): seq<uint8>
  {
    [s.compressionType, s.mode, s.compressedDataSize] + (if s.compressedData.Some? then s.compressedData.value else [])
  }

  function EncodeSegments(ss: seq<Segment>): seq<uint8>
  {
    if ss == [] then [] else EncodeSegment(ss[0]) + EncodeSegments(ss[1..])
  }

  predicate SegmentEncodable(s: Segment)
  {
    (s.compressedDataSize == 0 <==> s.compressedData.None?) &&
    (s.compressedData.Some? ==> |s.compressedData.value| == s.compressedDataSize)
  }

  predicate StringEncodable(m: MultString)
  {
    |m.langCode| == 3 && |m.segments| < 0x100 &&
    forall k :: 0 <= k < |m.segments| ==> SegmentEncodable(m.segments[k])
  }

  function EncodeString(m: MultString): seq<uint8>
    requires StringEncodable(m)
  {
    m.langCode + [|m.segments|] + EncodeSegments(m.segments)
  }

  function EncodeStrings(ms: seq<MultString>): seq<uint8>
    requires forall k :: 0 <= k < |ms| ==> StringEncodable(ms[k])
  {
    if ms == [] then [] else EncodeString(ms[0]) + EncodeStrings(ms[1..])
  }

  /** Every segment read consumes its 3-byte header and exactly
      compressed_data_size payload bytes, and the payload is the bytes right
      after the header: the segments read re-encode to the bytes consumed. */
  lemma {:induction false} SegmentsConsumeTheirBytes(data: seq<uint8>, pos: nat, n: nat)
    requires pos <= |data| && Segments(data, pos, n).Some?
    ensures var (segs, end) := Segments(data, pos, n).value;
      (forall k :: 0 <= k < |segs| ==> SegmentEncodable(segs[k])) &&
      EncodeSegments(segs) == data[pos .. end]
    decreases n
  {
    if n > 0 {
      var next := pos + 3 + data[pos + 2];
      var seg := Segment(data[pos], data[pos + 1], data[pos + 2],
        if data[pos + 2] == 0 then None else Some(data[pos + 3 .. next]));
      var (segs, end) := Segments(data, pos, n).value;
      var rest := Segments(data, next, n - 1).value.0;
      assert segs == [seg] + rest;
      SegmentsConsumeTheirBytes(data, next, n - 1);
      assert EncodeSegment(seg) == data[pos .. next];
      assert segs[1..] == rest;
      SliceJoin(data, pos, next, end);
    }
  }

  lemma SliceJoin<T>(data: seq<T>, i: nat, j: nat, k: nat)
    requires i <= j <= k <= |data|
    ensures data[i .. k] == data[i .. j] + data[j .. k]
  {
  }

  lemma {:induction false} StringsConsumeTheirBytes(data: seq<uint8>, pos: nat, n: nat)
    requires pos <= |data| && Strings(data, pos, n).Some?
    ensures var (strs, end) := Strings(data, pos, n).value;
      (forall k :: 0 <= k < |strs| ==> StringEncodable(strs[k])) &&
      EncodeStrings(strs) == data[pos .. end]
    decreases n
  {
    if n > 0 {
      var (segs, next) := Segments(data, pos + 4, data[pos + 3]).value;
      var m := MultString(data[pos .. pos + 3], segs);
      var (strs, end) := Strings(data, pos, n).value;
      var rest := Strings(data, next, n - 1).value.0;
      assert strs == [m] + rest;
      assert StringEncodable(m) && EncodeString(m) == data[pos .. next] by {
        SegmentsConsumeTheirBytes(data, pos + 4, data[pos + 3]);
        SliceJoin(data, pos, pos + 3, pos + 4);
        SliceJoin(data, pos, pos + 4, next);
      }
      StringsConsumeTheirBytes(data, next, n - 1);
      assert strs[1..] == rest;
      SliceJoin(data, pos, next, end);
    }
  }

  /** On success the result has num_strings strings, each with its
      num_segments segments, and all bytes consumed lie within datasize: the
      count byte followed by the encoding of the result is a prefix of the
      input. */
  lemma MultStringShape(data: seq<uint8>)
    requires MultStringOf(data).Some?
    ensures var strs := MultStringOf(data).value;
      |data| > 0 && |strs| == data[0] &&
      (forall k :: 0 <= k < |strs| ==> StringEncodable(strs[k])) &&
      [data[0]] + EncodeStrings(strs) <= data
  {
    var (strs, end) := Strings(data, 1, data[0]).value;
    StringsConsumeTheirBytes(data, 1, data[0]);
    assert data[..end] == [data[0]] + data[1 .. end];
  }

  /** The reader is the inverse of the encoding: bytes that hold the encoded
      segments at pos read back as those segments. */
  lemma {:induction false} SegmentsReadEncoding(ss: seq<Segment>, data: seq<uint8>, pos: nat)
    requires forall k :: 0 <= k < |ss| ==> SegmentEncodable(ss[k])
    requires pos + |EncodeSegments(ss)| <= |data|
    requires data[pos .. pos + |EncodeSegments(ss)|] == EncodeSegments(ss)
    ensures Segments(data, pos, |ss|) == Some((ss, pos + |EncodeSegments(ss)|))
    decreases |ss|
  {
    if ss != [] {
      var seg := ss[0];
      var e := EncodeSegment(seg);
      var rest := EncodeSegments(ss[1..]);
      var next := pos + |e|;
      assert EncodeSegments(ss) == e + rest;
      SliceSplit(data, pos, next, e, rest);
      SegmentsReadEncoding(ss[1..], data, next);
      SegmentStepRead(data, pos, seg, ss[1..], next, next + |rest|);
      assert [seg] + ss[1..] == ss;
    }
  }


  /** A segment's encoding followed by readable segments reads as one more. */
  lemma SegmentStepRead(data: seq<uint8>, pos: nat, seg: Segment, rest: seq<Segment>, next: nat, end: nat)
    requires SegmentEncodable(seg)
    requires next == pos + |EncodeSegment(seg)| <= |data|
    requires data[pos .. next] == EncodeSegment(seg)
    requires Segments(data, next, |rest|) == Some((rest, end))
    ensures Segments(data, pos, |rest| + 1) == Some(([seg] + rest, end))
  {
    var size := seg.compressedDataSize;
    assert next == pos + 3 + size && data[pos + 2] == size && seg == Segment(data[pos], data[pos + 1], size,
      if size == 0 then None else Some(data[pos + 3 .. next])) by {
      SegmentHeaderRead(seg, data, pos);
    }
    SegmentsCons(data, pos, |rest| + 1, |rest|, seg, next, rest, end);
  }

  /** Bytes holding a + b at pos hold a at pos and b right after it, at mid. */
  lemma SliceSplit<T>(data: seq<T>, pos: nat, mid: nat, a: seq<T>, b: seq<T>)
    requires mid == pos + |a| && mid + |b| <= |data|
    requires data[pos .. pos + |a + b|] == a + b
    ensures data[pos .. mid] == a
    ensures data[mid .. mid + |b|] == b
  {
    assert data[pos .. mid] == (a + b)[..|a|];
    assert data[mid .. mid + |b|] == (a + b)[|a|..];
  }

  /** One step of the segment reading, with its parts given. */
  lemma SegmentsCons(data: seq<uint8>, pos: nat, n: nat, m: nat, seg: Segment, next: nat, rest: seq<Segment>, end: nat)
    requires n > 0 && m == n - 1 && pos + 3 <= |data| && next == pos + 3 + data[pos + 2] <= |data|
    requires seg == Segment(data[pos], data[pos + 1], data[pos + 2],
      if data[pos + 2] == 0 then None else Some(data[pos + 3 .. next]))
    requires Segments(data, next, m) == Some((rest, end))
    ensures Segments(data, pos, n) == Some(([seg] + rest, end))
  {
  }

  lemma SegmentHeaderRead(seg: Segment, data: seq<uint8>, pos: nat)
    requires SegmentEncodable(seg)
    requires pos + |EncodeSegment(seg)| <= |data|
    requires data[pos .. pos + |EncodeSegment(seg)|] == EncodeSegment(seg)
    ensures |EncodeSegment(seg)| == 3 + seg.compressedDataSize
    ensures data[pos] == seg.compressionType && data[pos + 1] == seg.mode
    ensures data[pos + 2] == seg.compressedDataSize
    ensures seg.compressedData == if seg.compressedDataSize == 0 then None
      else Some(data[pos + 3 .. pos + 3 + seg.compressedDataSize])
  {
    var e := EncodeSegment(seg);
    assert data[pos] == e[0] && data[pos + 1] == e[1] && data[pos + 2] == e[2];
    if seg.compressedDataSize > 0 {
      assert data[pos + 3 .. pos + 3 + seg.compressedDataSize] == e[3..];
    }
  }

  /** One step of the string reading, with its parts given. */
  lemma StringsCons(data: seq<uint8>, pos: nat, n: nat, m: nat, count: nat, segs: seq<Segment>, next: nat, rest: seq<MultString>, end: nat)
    requires n > 0 && m == n - 1 && pos + 4 <= |data| && count == data[pos + 3]
    requires Segments(data, pos + 4, count) == Some((segs, next))
    requires Strings(data, next, m) == Some((rest, end))
    ensures Strings(data, pos, n) == Some(([MultString(data[pos .. pos + 3], segs)] + rest, end))
  {
  }

  lemma {:induction false} StringsReadEncoding(ms: seq<MultString>, data: seq<uint8>, pos: nat)
    requires forall k :: 0 <= k < |ms| ==> StringEncodable(ms[k])
    requires pos + |EncodeStrings(ms)| <= |data|
    requires data[pos .. pos + |EncodeStrings(ms)|] == EncodeStrings(ms)
    ensures Strings(data, pos, |ms|) == Some((ms, pos + |EncodeStrings(ms)|))
    decreases |ms|
  {
    if ms != [] {
      var m := ms[0];
      var e := EncodeString(m);
      var rest := EncodeStrings(ms[1..]);
      var next := pos + |e|;
      assert EncodeStrings(ms) == e + rest;
      SliceSplit(data, pos, next, e, rest);
      StringsReadEncoding(ms[1..], data, next);
      StringStepRead(data, pos, m, ms[1..], next, next + |rest|);
      assert [m] + ms[1..] == ms;
    }
  }

  /** A string's encoding followed by readable strings reads as one more. */
  lemma StringStepRead(data: seq<uint8>, pos: nat, m: MultString, rest: seq<MultString>, next: nat, end: nat)
    requires StringEncodable(m)
    requires next == pos + |EncodeString(m)| <= |data|
    requires data[pos .. next] == EncodeString(m)
    requires Strings(data, next, |rest|) == Some((rest, end))
    ensures Strings(data, pos, |rest| + 1) == Some(([m] + rest, end))
  {
    StringHeaderRead(data, pos, m, next);
    StringsCons(data, pos, |rest| + 1, |rest|, |m.segments|, m.segments, next, rest, end);
  }

  /** The bytes of one encoded string: the language, the segment count and
      the segments, which read back up to the string's end. */
  lemma StringHeaderRead(data: seq<uint8>, pos: nat, m: MultString, next: nat)
    requires StringEncodable(m)
    requires next == pos + |EncodeString(m)| <= |data|
    requires data[pos .. next] == EncodeString(m)
    ensures pos + 4 <= next
    ensures data[pos .. pos + 3] == m.langCode && data[pos + 3] == |m.segments|
    ensures Segments(data, pos + 4, |m.segments|) == Some((m.segments, next))
  {
    var count := |m.segments|;
    var head := m.langCode + [count as uint8];
    var segs := EncodeSegments(m.segments);
    assert EncodeString(m) == head + segs;
    SliceSplit(data, pos, pos + 4, head, segs);
    SliceSplit(data, pos, pos + 3, m.langCode, [count as uint8]);
    assert data[pos + 3 .. pos + 4][0] == data[pos + 3];
    SegmentsReadEncoding(m.segments, data, pos + 4);
  }

  /** Round trip: a count byte and encodable strings read back as those
      strings, whatever bytes follow. */
  lemma MultStringRoundTrip(ms: seq<MultString>, after: seq<uint8>)
    requires |ms| < 0x100
    requires forall k :: 0 <= k < |ms| ==> StringEncodable(ms[k])
    ensures MultStringOf([|ms|] + EncodeStrings(ms) + after) == Some(ms)
  {
    var data := [|ms| as uint8] + EncodeStrings(ms) + after;
    assert data[1 .. 1 + |EncodeStrings(ms)|] == EncodeStrings(ms);
    StringsReadEncoding(ms, data, 1);
  }

  /** A zero size yields null, like the code's untouched nullptr. */
  lemma MultStringOfEmpty()
    ensures MultStringOf([]) == None
  {
  }

  /** A string header that does not fit makes the whole parse fail. */
  lemma ShortStringHeaderFails(data: seq<uint8>)
    requires 0 < |data| < 5 && data[0] > 0
    ensures MultStringOf(data) == None
  {
  }
}
