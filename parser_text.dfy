/** The ParserATSC helpers that turn descriptors and multiple strings into
    text and pid information: ParseAtscCaptionServiceDescriptor,
    ParseAtscServiceLocationDescriptor, ParseAtscContentAdvisoryDescriptor,
    ATSCTextDecode and the per-event descriptor walk of ParseEvents. */
module ParserText {
  import opened Common
  import opened AtscCommon

  /** At most this many audio entries are kept per service location descriptor. */
  const AUDIO_CHAN_MAX: nat := 32

  /** Descriptor tags of ATSC A/65 section 6.9. */
  const TAG_CAPTION_SERVICE: uint8 := 0x86
  const TAG_CONTENT_ADVISORY: uint8 := 0x87
  const TAG_SERVICE_LOCATION: uint8 := 0xA1

  const STREAM_TYPE_VIDEO: uint8 := 0x02
  const STREAM_TYPE_AUDIO: uint8 := 0x81

  // ---------------------------------------------------------------------
  // Caption service descriptor
  // ---------------------------------------------------------------------

  /** The language of the last whole caption service record, "" when there
      is none: every successful lookup overwrites the one before. */
  function LastCaptionLanguage(d: Descriptor): (lang: string)
    requires WellFormed(d)
    ensures |lang| == if RecordCount(d) == 0 then 0 else 3
  {
    if RecordCount(d) == 0 then [] else Chars(CaptionLanguageBytes(d, RecordCount(d) - 1))
  }

  /** ParseAtscCaptionServiceDescriptor: calls the lookup with 0, 1, 2, ...
      until it fails. */
  method ParseCaptionServiceDescriptor(d: Descriptor) returns (language: string)
    requires WellFormed(d)
    ensures language == LastCaptionLanguage(d)
  {
    language := [];
    var i: nat := 0;
    var r := CaptionServiceIdx(d, i, language);
    while r.0
      invariant i <= RecordCount(d)
      invariant r == CaptionServiceIdx(d, i, language)
      invariant language == if i == 0 then [] else Chars(CaptionLanguageBytes(d, i - 1))
      decreases RecordCount(d) - i
    {
      language := r.1;
      i := i + 1;
      r := CaptionServiceIdx(d, i, language);
    }
  }

  // ---------------------------------------------------------------------
  // Service location descriptor
  // ---------------------------------------------------------------------

  /** PmtPidInfo: the video pid and the first _audioNum audio entries; the
      audio pids and languages are kept as sequences of length _audioNum. */
  datatype PmtPidInfo = PmtPidInfo(videoPid: uint16, audioPids: seq<uint16>, audioLangs: seq<string>)

  predicate AudioBounded(s: PmtPidInfo)
  {
    |s.audioPids| == |s.audioLangs| <= AUDIO_CHAN_MAX
  }

  predicate LocationReadable(d: Descriptor)
  {
    WellFormed(d) && LocationRecordsInside(d)
  }

  /** The first n elements the lookup yields. */
  function LocationElements(d: Descriptor, n: nat): (es: seq<ServiceLocationElement>)
    requires LocationReadable(d) && n <= RecordCount(d)
    ensures |es| == n
    ensures forall j :: 0 <= j < n ==> Some(es[j]) == ServiceLocationIdx(d, j)
  {
    if n == 0 then [] else LocationElements(d, n - 1) + [ServiceLocationIdx(d, n - 1).value]
  }

  /** One element's effect on the info: video replaces the video pid, audio
      is appended while there is room, anything else is skipped. */
  function Collect(s: PmtPidInfo, e: ServiceLocationElement): PmtPidInfo
  {
    if e.streamType == STREAM_TYPE_VIDEO then s.(videoPid := e.elementaryPid)
    else if e.streamType == STREAM_TYPE_AUDIO && |s.audioPids| < AUDIO_CHAN_MAX then
      s.(audioPids := s.audioPids + [e.elementaryPid], audioLangs := s.audioLangs + [e.language])
    else s
  }

  function CollectAll(s: PmtPidInfo, es: seq<ServiceLocationElement>): PmtPidInfo
  {
    if es == [] then s else Collect(CollectAll(s, es[..|es| - 1]), es[|es| - 1])
  }

  /** What ParseAtscServiceLocationDescriptor leaves in the caller's info:
      _audioNum restarts at 0, the video pid carries over unless replaced. */
  function ServiceLocationInfo(s: PmtPidInfo, d: Descriptor): PmtPidInfo
    requires LocationReadable(d)
  {
    CollectAll(s.(audioPids := [], audioLangs := []), LocationElements(d, RecordCount(d)))
  }

  method ParseServiceLocationDescriptor(s: PmtPidInfo, d: Descriptor) returns (info: PmtPidInfo)
    requires LocationReadable(d)
    ensures info == ServiceLocationInfo(s, d)
  {
    info := s.(audioPids := [], audioLangs := []);
    var j: nat := 0;
    var e := ServiceLocationIdx(d, j);
    while e.Some?
      invariant j <= RecordCount(d)
      invariant e == ServiceLocationIdx(d, j)
      invariant info == CollectAll(s.(audioPids := [], audioLangs := []), LocationElements(d, j))
      decreases RecordCount(d) - j
    {
      var el := e.value;
      ghost var s0 := s.(audioPids := [], audioLangs := []);
      ghost var es := LocationElements(d, j + 1);
      assert es[j] == el && es[..j] == LocationElements(d, j);
      assert CollectAll(s0, es) == Collect(info, el);
      if el.streamType == STREAM_TYPE_VIDEO {
        info := info.(videoPid := el.elementaryPid);
      } else if el.streamType == STREAM_TYPE_AUDIO {
        if |info.audioPids| < AUDIO_CHAN_MAX {
          info := info.(audioPids := info.audioPids + [el.elementaryPid], audioLangs := info.audioLangs + [el.language]);
        }
      }
      assert info == CollectAll(s0, es);
      j := j + 1;
      e := ServiceLocationIdx(d, j);
    }
  }

  // Independent reference reading of the collected info.

  /** The audio elements, in order. */
  function AudioElements(es: seq<ServiceLocationElement>): seq<ServiceLocationElement>
  {
    if es == [] then []
    else AudioElements(es[..|es| - 1]) + (if es[|es| - 1].streamType == STREAM_TYPE_AUDIO then [es[|es| - 1]] else [])
  }

  function PidsOf(es: seq<ServiceLocationElement>): (ps: seq<uint16>)
    ensures |ps| == |es| && forall i :: 0 <= i < |es| ==> ps[i] == es[i].elementaryPid
  {
    if es == [] then [] else PidsOf(es[..|es| - 1]) + [es[|es| - 1].elementaryPid]
  }

  function LangsOf(es: seq<ServiceLocationElement>): (ls: seq<string>)
    ensures |ls| == |es| && forall i :: 0 <= i < |es| ==> ls[i] == es[i].language
  {
    if es == [] then [] else LangsOf(es[..|es| - 1]) + [es[|es| - 1].language]
  }

  /** The pid of the last video element, if any. */
  function LastVideoPid(es: seq<ServiceLocationElement>): Option<uint16>
  {
    if es == [] then None
    else if es[|es| - 1].streamType == STREAM_TYPE_VIDEO then Some(es[|es| - 1].elementaryPid)
    else LastVideoPid(es[..|es| - 1])
  }

  function Min(a: nat, b: nat): nat { if a < b then a else b }

  /** Collecting keeps the first AUDIO_CHAN_MAX audio elements, in order,
      and the pid of the last video element (or the old one when none). */
  lemma {:induction false} CollectAllSpec(s: PmtPidInfo, es: seq<ServiceLocationElement>)
    requires s.audioPids == [] && s.audioLangs == []
    ensures var r := CollectAll(s, es);
      var a := AudioElements(es);
      var k := Min(|a|, AUDIO_CHAN_MAX);
      && r.audioPids == PidsOf(a[..k])
      && r.audioLangs == LangsOf(a[..k])
      && r.videoPid == (if LastVideoPid(es).Some? then LastVideoPid(es).value else s.videoPid)
    decreases |es|
  {
    if es != [] {
      var init := es[..|es| - 1];
      var e := es[|es| - 1];
      CollectAllSpec(s, init);
      var a0 := AudioElements(init);
      var k0 := Min(|a0|, AUDIO_CHAN_MAX);
      var a := AudioElements(es);
      var k := Min(|a|, AUDIO_CHAN_MAX);
      if e.streamType == STREAM_TYPE_AUDIO {
        assert a == a0 + [e];
        if |a0| < AUDIO_CHAN_MAX {
          assert a[..k] == a0[..k0] + [e];
          assert a[..k][..|a[..k]| - 1] == a0[..k0];
        } else {
          assert a[..k] == a0[..k0];
        }
      } else {
        assert a == a0;
      }
    }
  }

  /** The collected info never holds more than AUDIO_CHAN_MAX audio entries,
      and its pids come from the descriptor's nine-bit pid field. */
  lemma ServiceLocationBounds(s: PmtPidInfo, d: Descriptor)
    requires LocationReadable(d)
    ensures AudioBounded(ServiceLocationInfo(s, d))
    ensures forall i :: 0 <= i < |ServiceLocationInfo(s, d).audioPids| ==> ServiceLocationInfo(s, d).audioPids[i] <= 511
  {
    var es := LocationElements(d, RecordCount(d));
    CollectAllSpec(s.(audioPids := [], audioLangs := []), es);
    AudioElementsFrom(es);
  }

  lemma {:induction false} AudioElementsFrom(es: seq<ServiceLocationElement>)
    requires forall i :: 0 <= i < |es| ==> es[i].elementaryPid <= 511
    ensures forall i :: 0 <= i < |AudioElements(es)| ==> AudioElements(es)[i].elementaryPid <= 511
    ensures |AudioElements(es)| <= |es|
    decreases |es|
  {
    if es != [] {
      AudioElementsFrom(es[..|es| - 1]);
    }
  }

  // ---------------------------------------------------------------------
  // The audio language string of a VCT source
  // ---------------------------------------------------------------------

  /** The comma-joined languages one service location descriptor yields. */
  function DescriptorLanguages(d: Descriptor): string
    requires LocationReadable(d)
  {
    Joined(ServiceLocationInfo(PmtPidInfo(0, [], []), d).audioLangs, ',')
  }

  predicate IsServiceLocation(od: Option<Descriptor>)
  {
    od.Some? && od.value.tag == TAG_SERVICE_LOCATION
  }

  predicate SourceDescriptorsReadable(descs: seq<Option<Descriptor>>)
  {
    forall j :: 0 <= j < |descs| ==> IsServiceLocation(descs[j]) ==> LocationReadable(descs[j].value)
  }

  /** The language of a VCT source: each service location descriptor's
      comma-joined list is appended straight after the previous one. */
  function SourceLanguage(descs: seq<Option<Descriptor>>): string
    requires SourceDescriptorsReadable(descs)
  {
    if descs == [] then []
    else
      SourceLanguage(descs[..|descs| - 1])
      + (if IsServiceLocation(descs[|descs| - 1]) then DescriptorLanguages(descs[|descs| - 1].value) else [])
  }

  /** The language of a descriptor is independent of the video pid the info
      carried in. */
  lemma {:induction false} CollectAudioIgnoresVideo(v: uint16, w: uint16, es: seq<ServiceLocationElement>)
    ensures CollectAll(PmtPidInfo(v, [], []), es).audioLangs == CollectAll(PmtPidInfo(w, [], []), es).audioLangs
    ensures CollectAll(PmtPidInfo(v, [], []), es).audioPids == CollectAll(PmtPidInfo(w, [], []), es).audioPids
    decreases |es|
  {
    if es != [] {
      CollectAudioIgnoresVideo(v, w, es[..|es| - 1]);
    }
  }

  /** The text the ParseVCT inner loop has built after a of the parts: each
      part followed by ',' unless it is the last one. */
  function JoinedPrefix(parts: seq<string>, a: nat, sep: char): string
    requires a <= |parts|
  {
    if a == 0 then []
    else JoinedPrefix(parts, a - 1, sep) + parts[a - 1] + (if a - 1 != |parts| - 1 then [sep] else [])
  }

  lemma {:induction false} JoinedSplit(parts: seq<string>, a: nat, sep: char)
    requires a < |parts|
    ensures JoinedPrefix(parts, a, sep) + Joined(parts[a..], sep) == Joined(parts, sep)
    decreases a
  {
    if a > 0 {
      JoinedSplit(parts, a - 1, sep);
      assert parts[a - 1..][1..] == parts[a..];
      assert Joined(parts[a - 1..], sep) == parts[a - 1] + [sep] + Joined(parts[a..], sep);
    }
  }

  lemma JoinedPrefixAll(parts: seq<string>, sep: char)
    ensures JoinedPrefix(parts, |parts|, sep) == Joined(parts, sep)
  {
    var n := |parts|;
    if n > 0 {
      JoinedSplit(parts, n - 1, sep);
      assert Joined(parts[n - 1..], sep) == parts[n - 1];
    }
  }

  /** The descriptor walk of ParseVCT for one source: it threads one info
      through all service location descriptors and appends each one's
      audio languages, separated by ',', to the language. */
  method SourceLanguageOf(descs: seq<Option<Descriptor>>) returns (language: string)
    requires SourceDescriptorsReadable(descs)
    ensures language == SourceLanguage(descs)
  {
    language := [];
    var pmtInfo := PmtPidInfo(0, [], []);
    var j := 0;
    while j < |descs|
      invariant 0 <= j <= |descs| && SourceDescriptorsReadable(descs[..j])
      invariant language == SourceLanguage(descs[..j])
    {
      SourceLanguageStep(descs, j);
      if descs[j].Some? {
        var desc := descs[j].value;
        if desc.tag == TAG_SERVICE_LOCATION {
          var previous := pmtInfo;
          pmtInfo := ParseServiceLocationDescriptor(pmtInfo, desc);
          LanguagesIgnoreInfo(previous, desc);
          language := AppendJoined(language, pmtInfo.audioLangs);
        }
      }
      j := j + 1;
    }
    assert descs[..|descs|] == descs;
  }

  /** The inner loop of the walk: each language followed by ',' unless it
      is the last one. */
  method AppendJoined(language: string, parts: seq<string>) returns (r: string)
    ensures r == language + Joined(parts, ',')
  {
    r := language;
    var a := 0;
    while a < |parts|
      invariant 0 <= a <= |parts|
      invariant r == language + JoinedPrefix(parts, a, ',')
    {
      r := r + parts[a];
      if a != |parts| - 1 {
        r := r + [','];
      }
      a := a + 1;
    }
    JoinedPrefixAll(parts, ',');
  }

  /** One more descriptor adds its languages, if it is a service location
      descriptor, to those of the ones before it. */
  lemma SourceLanguageStep(descs: seq<Option<Descriptor>>, j: nat)
    requires SourceDescriptorsReadable(descs) && j < |descs|
    ensures SourceDescriptorsReadable(descs[..j]) && SourceDescriptorsReadable(descs[..j + 1])
    ensures IsServiceLocation(descs[j]) ==> LocationReadable(descs[j].value)
    ensures SourceLanguage(descs[..j + 1]) == SourceLanguage(descs[..j])
      + (if IsServiceLocation(descs[j]) then DescriptorLanguages(descs[j].value) else [])
  {
    assert descs[..j + 1][..j] == descs[..j];
  }

  /** The languages a descriptor yields do not depend on the info threaded
      into it. */
  lemma LanguagesIgnoreInfo(s: PmtPidInfo, d: Descriptor)
    requires LocationReadable(d)
    ensures ServiceLocationInfo(s, d).audioLangs == ServiceLocationInfo(PmtPidInfo(0, [], []), d).audioLangs
  {
    assert s.(audioPids := [], audioLangs := []) == PmtPidInfo(s.videoPid, [], []);
    CollectAudioIgnoresVideo(s.videoPid, 0, LocationElements(d, RecordCount(d)));
  }

  /** A source with one service location descriptor whose n >= 1 audio
      languages hold no ',' gets n - 1 commas and no trailing comma. */
  lemma OneDescriptorLanguage(d: Descriptor)
    requires LocationReadable(d)
    requires var ls := ServiceLocationInfo(PmtPidInfo(0, [], []), d).audioLangs;
      ls != [] && forall i :: 0 <= i < |ls| ==> ',' !in ls[i]
    ensures var ls := ServiceLocationInfo(PmtPidInfo(0, [], []), d).audioLangs;
      var lang := SourceLanguage([Some(d)]);
      (d.tag == TAG_SERVICE_LOCATION ==> CountOf(lang, ',') == |ls| - 1 && |lang| > 0 && lang[|lang| - 1] != ',')
  {
    var ls := ServiceLocationInfo(PmtPidInfo(0, [], []), d).audioLangs;
    assert [Some(d)][..0] == [];
    if d.tag == TAG_SERVICE_LOCATION {
      assert SourceLanguage([Some(d)]) == Joined(ls, ',');
      JoinedSeparators(ls, ',');
      var es := LocationElements(d, RecordCount(d));
      CollectAllSpec(PmtPidInfo(0, [], []), es);
      var a := AudioElements(es);
      var k := Min(|a|, AUDIO_CHAN_MAX);
      assert ls == LangsOf(a[..k]);
      AudioLanguagesAreThreeChars(es);
      assert |ls[|ls| - 1]| == 3;
      NoTrailingSeparator(ls, ',');
    }
  }

  lemma {:induction false} AudioLanguagesAreThreeChars(es: seq<ServiceLocationElement>)
    requires forall i :: 0 <= i < |es| ==> |es[i].language| == 3
    ensures forall i :: 0 <= i < |AudioElements(es)| ==> |AudioElements(es)[i].language| == 3
    decreases |es|
  {
    if es != [] {
      AudioLanguagesAreThreeChars(es[..|es| - 1]);
    }
  }

  // ---------------------------------------------------------------------
  // ATSCTextDecode
  // ---------------------------------------------------------------------

  /** All segments of all strings, in order. */
  function AllSegments(ms: seq<MultString>): seq<Segment>
  {
    if ms == [] then [] else AllSegments(ms[..|ms| - 1]) + ms[|ms| - 1].segments
  }

  /** The decoded text of the very last segment, "" when there is none: each
      segment's text replaces the previous one instead of being appended.
      decode stands for gst_mpegts_atsc_string_segment_get_string. */
  function TextOf(ms: seq<MultString>, decode: Segment -> string): string
  {
    var segs := AllSegments(ms);
    if segs == [] then [] else decode(segs[|segs| - 1])
  }

  method ATSCTextDecode(ms: seq<MultString>, decode: Segment -> string) returns (text: string)
    ensures text == TextOf(ms, decode)
  {
    text := [];
    var i := 0;
    while i < |ms|
      invariant 0 <= i <= |ms|
      invariant text == TextOf(ms[..i], decode)
    {
      assert ms[..i + 1][..i] == ms[..i];
      var segments := ms[i].segments;
      var n := |segments|;
      var j := 0;
      while j < n
        invariant 0 <= j <= n
        invariant text == TextOf(ms[..i] + [MultString(ms[i].langCode, segments[..j])], decode)
      {
        text := decode(segments[j]);
        assert (ms[..i] + [MultString(ms[i].langCode, segments[..j + 1])])[..i] == ms[..i];
        j := j + 1;
      }
      assert segments[..n] == segments;
      assert ms[..i + 1] == ms[..i] + [MultString(ms[i].langCode, segments)];
      i := i + 1;
    }
    assert ms[..|ms|] == ms;
  }

  /** A string with segments decides the text alone, whatever came before. */
  lemma LastStringDecides(ms: seq<MultString>, m: MultString, decode: Segment -> string)
    requires m.segments != []
    ensures TextOf(ms + [m], decode) == decode(m.segments[|m.segments| - 1])
  {
    assert (ms + [m])[..|ms|] == ms;
  }

  /** A trailing string without segments leaves the text unchanged. */
  lemma EmptyStringKeepsText(ms: seq<MultString>, lang: seq<uint8>, decode: Segment -> string)
    ensures TextOf(ms + [MultString(lang, [])], decode) == TextOf(ms, decode)
  {
    assert (ms + [MultString(lang, [])])[..|ms|] == ms;
    assert AllSegments(ms + [MultString(lang, [])]) == AllSegments(ms) + [];
  }

  // ---------------------------------------------------------------------
  // Content advisory descriptor (A/65 section 6.9.4)
  // ---------------------------------------------------------------------

  /** One rating region read at p: rating_region, rated_dimensions, 2 bytes
      per dimension, rating_description_length and the description itself.
      None when a byte the code reads is missing, or when the description
      parses to null, which ATSCTextDecode dereferences. */
  function RegionAt(data: seq<uint8>, p: nat): (r: Option<(seq<MultString>, nat)>)
    ensures r.Some? ==> p < r.value.1 <= |data|
  {
    if |data| <= p + 1 then None
    else
      var q: nat := p + 2 + 2 * (data[p + 1] as nat);
      if |data| <= q then None
      else
        var len := data[q];
        var t: nat := q + 1;
        if |data| < t + len then None
        else match MultStringOf(data[t .. t + len])
          case None => None
          case Some(m) => Some((m, t + len))
  }

  /** The k rating regions from byte p on. */
  function Regions(data: seq<uint8>, p: nat, k: nat): (r: Option<(seq<seq<MultString>>, nat)>)
    ensures r.Some? ==> |r.value.0| == k && p <= r.value.1
    decreases k
  {
    if k == 0 then Some(([], p))
    else match RegionAt(data, p)
      case None => None
      case Some((m, next)) => Then([m], Regions(data, next, k - 1))
  }

  /** Successful regions are a chain of single regions: region i starts
      where region i - 1 ends. */
  lemma {:induction false} RegionChain(data: seq<uint8>, p: nat, k: nat) returns (starts: seq<nat>)
    requires Regions(data, p, k).Some?
    ensures |starts| == k + 1 && starts[0] == p
    ensures forall i :: 0 <= i < k ==> RegionAt(data, starts[i]) == Some((Regions(data, p, k).value.0[i], starts[i + 1]))
    decreases k
  {
    if k == 0 {
      starts := [p];
    } else {
      var (m, next) := RegionAt(data, p).value;
      var rest := RegionChain(data, next, k - 1);
      starts := [p] + rest;
      var rs := Regions(data, p, k).value.0;
      assert rs == [m] + Regions(data, next, k - 1).value.0;
      forall i | 0 <= i < k
        ensures RegionAt(data, starts[i]) == Some((rs[i], starts[i + 1]))
      {
        if i > 0 {
          assert starts[i] == rest[i - 1] && starts[i + 1] == rest[i] && rs[i] == Regions(data, next, k - 1).value.0[i - 1];
        }
      }
    }
  }

  /** rating_region_count: the low six bits of the byte after the header. */
  function RegionCount(d: Descriptor): nat
    requires |d.data| >= 3
  {
    d.data[2] % 0x40
  }

  /** What the content advisory walk needs to stay inside the descriptor and
      never to decode a null string. */
  predicate AdvisoryReadable(d: Descriptor)
  {
    |d.data| >= 3 && Regions(d.data, 3, RegionCount(d)).Some?
  }

  /** The rating is the text of the last region's description, "" when
      there are no regions. */
  function AdvisoryRating(d: Descriptor, decode: Segment -> string): string
    requires AdvisoryReadable(d)
  {
    LastText(Regions(d.data, 3, RegionCount(d)).value.0, decode)
  }

  /** The text of the last of several multiple strings, "" when none. */
  function LastText(rs: seq<seq<MultString>>, decode: Segment -> string): string
  {
    if rs == [] then [] else TextOf(rs[|rs| - 1], decode)
  }

  /** ParseAtscContentAdvisoryDescriptor. */
  method ParseContentAdvisoryDescriptor(d: Descriptor, decode: Segment -> string) returns (rating: string)
    requires AdvisoryReadable(d)
    ensures rating == AdvisoryRating(d, decode)
  {
    rating := [];
    var data := d.data;
    var count: nat := data[2] % 0x40;
    var p: nat := 3;
    var i: nat := 0;
    ghost var rs := Regions(data, 3, count).value.0;
    ghost var starts := RegionChain(data, 3, count);
    while i < count
      invariant 0 <= i <= count && p == starts[i]
      invariant rating == LastText(rs[..i], decode)
      decreases count - i
    {
      assert RegionAt(data, starts[i]) == Some((rs[i], starts[i + 1]));
      var text, next := ReadRegion(data, p);
      rating := ATSCTextDecode(text, decode);
      assert rs[..i + 1][i] == text;
      p := next;
      i := i + 1;
    }
    assert rs[..count] == rs;
  }

  /** Every rating region's description parses; the last one decides. */
  lemma AdvisoryRatingOfOne(d: Descriptor, decode: Segment -> string)
    requires AdvisoryReadable(d) && RegionCount(d) == 1
    ensures var rs := Regions(d.data, 3, 1).value.0;
      |rs| == 1 && AdvisoryRating(d, decode) == TextOf(rs[0], decode)
  {
  }

  /** One pass of the region loop: skips rating_region, rated_dimensions and
      the dimensions, reads rating_description_length and parses the
      description that follows. */
  method ReadRegion(data: seq<uint8>, p: nat) returns (text: seq<MultString>, next: nat)
    requires RegionAt(data, p).Some?
    ensures RegionAt(data, p) == Some((text, next))
  {
    var ratedDimensions: nat := data[p + 1];
    var q := p + 2 + 2 * ratedDimensions;
    var len: nat := data[q];
    q := q + 1;
    var parsed := ParseMultString(data[q .. q + len]);
    text := parsed.value;
    next := q + len;
  }

  /** A descriptor that announces no regions rates "". */
  lemma NoRegionsNoRating(d: Descriptor, decode: Segment -> string)
    requires |d.data| >= 3 && d.data[2] % 0x40 == 0
    ensures AdvisoryReadable(d) && AdvisoryRating(d, decode) == []
  {
  }

  // ---------------------------------------------------------------------
  // The descriptors of one EIT event
  // ---------------------------------------------------------------------

  predicate IsTagged(od: Option<Descriptor>, tag: uint8)
  {
    od.Some? && od.value.tag == tag
  }

  predicate EventDescriptorsReadable(descs: seq<Option<Descriptor>>)
  {
    forall j :: 0 <= j < |descs| ==>
      (IsTagged(descs[j], TAG_CONTENT_ADVISORY) ==> AdvisoryReadable(descs[j].value))
      && (IsTagged(descs[j], TAG_CAPTION_SERVICE) ==> WellFormed(descs[j].value))
  }

  /** The rating of the last content advisory descriptor, "" when none. */
  function EventRating(descs: seq<Option<Descriptor>>, decode: Segment -> string): string
    requires EventDescriptorsReadable(descs)
  {
    if descs == [] then []
    else if IsTagged(descs[|descs| - 1], TAG_CONTENT_ADVISORY) then AdvisoryRating(descs[|descs| - 1].value, decode)
    else EventRating(descs[..|descs| - 1], decode)
  }

  /** The caption language of the last caption service descriptor, "" when
      none (a descriptor without records also yields ""). */
  function EventCaption(descs: seq<Option<Descriptor>>): string
    requires EventDescriptorsReadable(descs)
  {
    if descs == [] then []
    else if IsTagged(descs[|descs| - 1], TAG_CAPTION_SERVICE) then LastCaptionLanguage(descs[|descs| - 1].value)
    else EventCaption(descs[..|descs| - 1])
  }

  /** The descriptor loop of ParseEvents: later descriptors overwrite the
      rating and the caption language of earlier ones. */
  method EventDescriptors(descs: seq<Option<Descriptor>>, decode: Segment -> string) returns (rating: string, captionLanguage: string)
    requires EventDescriptorsReadable(descs)
    ensures rating == EventRating(descs, decode)
    ensures captionLanguage == EventCaption(descs)
  {
    rating, captionLanguage := [], [];
    var j := 0;
    while j < |descs|
      invariant 0 <= j <= |descs|
      invariant EventDescriptorsReadable(descs[..j])
      invariant rating == EventRating(descs[..j], decode)
      invariant captionLanguage == EventCaption(descs[..j])
    {
      assert descs[..j + 1][..j] == descs[..j];
      if descs[j].Some? {
        var desc := descs[j].value;
        if desc.tag == TAG_CONTENT_ADVISORY {
          rating := ParseContentAdvisoryDescriptor(desc, decode);
        } else if desc.tag == TAG_CAPTION_SERVICE {
          captionLanguage := ParseCaptionServiceDescriptor(desc);
        }
      }
      j := j + 1;
    }
    assert descs[..|descs|] == descs;
  }

  /** A caption descriptor after every content advisory descriptor does not
      disturb the rating, and sets the caption language alone. */
  lemma CaptionAfterKeepsRating(descs: seq<Option<Descriptor>>, d: Descriptor, decode: Segment -> string)
    requires EventDescriptorsReadable(descs) && d.tag == TAG_CAPTION_SERVICE && WellFormed(d)
    ensures EventDescriptorsReadable(descs + [Some(d)])
    ensures EventRating(descs + [Some(d)], decode) == EventRating(descs, decode)
    ensures EventCaption(descs + [Some(d)]) == LastCaptionLanguage(d)
  {
    assert (descs + [Some(d)])[..|descs|] == descs;
  }
}
