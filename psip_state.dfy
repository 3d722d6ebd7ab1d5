/** The state of the ATSC PSIP parser (ParserATSC and its FrequencyHandler)
    as a value, and the effect of every operation on it as a function. The
    classes in module ParserAtsc keep the same state in fields and are
    proved to follow these functions. The decoded tables come in as values:
    the section decoders that produce them are foreign code. */
module PsipState {
  import opened Common
  import opened AtscCommon
  import opened ParserText
  import Envelope

  /** The pid that carries the MGT, TVCT, CVCT and STT (A/65 section 6). */
  const ATSC_BASE_PID: uint16 := 0x1ffb

  // ---------------------------------------------------------------------
  // Decoded tables
  // ---------------------------------------------------------------------

  datatype MgtTable = MgtTable(tableType: uint16, pid: uint16)

  datatype Mgt = Mgt(tables: seq<MgtTable>)

  datatype VctSource = VctSource(
    shortName: string,
    majorChannelNumber: uint16,
    minorChannelNumber: uint16,
    modulationMode: uint8,
    programNumber: uint16,
    sourceId: uint16,
    descriptors: seq<Option<Descriptor>>)

  datatype Vct = Vct(transportStreamId: uint16, sources: seq<VctSource>)

  datatype EitEvent = EitEvent(
    eventId: uint16,
    startTime: uint32,
    lengthInSeconds: uint32,
    titles: seq<MultString>,
    descriptors: seq<Option<Descriptor>>)

  datatype Eit = Eit(sourceId: uint16, events: seq<EitEvent>)

  datatype Stt = Stt(systemTime: uint32, gpsUtcOffset: uint8)

  /** The section kinds ParseData dispatches on; None in a body is the
      decoder's null. */
  datatype SectionBody =
    | MgtSection(mgt: Option<Mgt>)
    | TvctSection(tvct: Option<Vct>)
    | CvctSection(cvct: Option<Vct>)
    | EitSection(eit: Option<Eit>)
    | SttSection(stt: Option<Stt>)
    | OtherSection

  datatype Section = Section(sectionNumber: uint8, lastSectionNumber: uint8, body: SectionBody)

  // ---------------------------------------------------------------------
  // Outbound calls and database rows
  // ---------------------------------------------------------------------

  /** Calls on the SI handler (the tuner backend), and the start and stop of
      the frequency handler's thread. */
  datatype Request =
    | StartFilter(pid: uint16)
    | StopFilter(pid: uint16)
    | StopFilters
    | SetHomeTS(frequency: uint32)
    | EitBroadcasted
    | StartTimer
    | RunFrequencyHandler
    | StopFrequencyHandler

  /** InsertChannelInfo. */
  datatype ChannelRecord = ChannelRecord(
    frequency: uint32,
    modulation: uint8,
    shortName: string,
    sourceId: uint16,
    transportStreamId: uint16,
    logicalChannelNumber: string,
    programNumber: uint16,
    language: string)

  /** InsertProgramInfo; the source id is the 8-bit value ParseEvents gets. */
  datatype ProgramRecord = ProgramRecord(
    sourceId: uint8,
    eventId: uint16,
    startTime: int,
    duration: uint32,
    title: string,
    rating: string,
    captionLanguage: string)

  // ---------------------------------------------------------------------
  // The parser state
  // ---------------------------------------------------------------------

  datatype ParserState = ParserState(
    eitPids: seq<uint16>,
    eitPidIndex: uint32,
    programMap: map<uint16, set<uint8>>,
    channelSet: set<uint16>,
    isTimeParsed: bool,
    isMGTParsed: bool,
    clientInitialised: bool,
    parserRunning: bool,
    frequencyList: seq<uint32>,
    currentParsingFrequency: uint32,
    isStreaming: bool,
    homeTS: uint32,
    handlerFrequencies: seq<uint32>,
    handlerIndex: uint32,
    requests: seq<Request>,
    channels: seq<ChannelRecord>,
    programs: seq<ProgramRecord>,
    clockSettings: seq<int>)

  /** The constructor's state. */
  function Initial(homeTS: uint32): (s: ParserState)
    ensures s.eitPids == [] && s.programMap == map[] && s.channelSet == {}
    ensures !s.isTimeParsed && !s.isMGTParsed && !s.parserRunning && !s.isStreaming
  {
    ParserState([], 0, map[], {}, false, false, false, false, [], 0, false, homeTS, [], 0, [], [], [], [])
  }

  function Issue(s: ParserState, r: Request): ParserState
  {
    s.(requests := s.requests + [r])
  }

  // ---------------------------------------------------------------------
  // Small operations
  // ---------------------------------------------------------------------

  function ResetTables(s: ParserState): ParserState
  {
    s.(eitPidIndex := 0, eitPids := [], programMap := map[], channelSet := {})
  }

  function ClearEitPids(s: ParserState): ParserState
  {
    s.(eitPidIndex := 0, eitPids := [])
  }

  function SendBaseTableRequest(s: ParserState): ParserState
  {
    Issue(s, StartFilter(ATSC_BASE_PID))
  }

  function UpdateCurrentFrequency(s: ParserState): ParserState
  {
    SendBaseTableRequest(s.(isStreaming := true))
  }

  function PushEitStartRequest(s: ParserState): ParserState
  {
    if |s.eitPids| == 0 then s
    else
      var idx := s.eitPidIndex % |s.eitPids|;
      Issue(s.(eitPidIndex := idx), StartFilter(s.eitPids[idx]))
  }

  /** PushEitStopRequest indexes the pid list with the stored index as it is. */
  predicate StopRequestInRange(s: ParserState)
  {
    |s.eitPids| == 0 || s.eitPidIndex < |s.eitPids|
  }

  function PushEitStopRequest(s: ParserState): ParserState
    requires StopRequestInRange(s)
  {
    if |s.eitPids| == 0 then s else Issue(s, StopFilter(s.eitPids[s.eitPidIndex]))
  }

  /** An empty pid list makes the EIT start request a no-op; otherwise the
      index is reduced modulo the list length and exactly that pid is
      requested, so the issued index is in range. */
  lemma PushEitStartRequestSpec(s: ParserState)
    ensures |s.eitPids| == 0 ==> PushEitStartRequest(s) == s
    ensures |s.eitPids| > 0 ==>
      var t := PushEitStartRequest(s);
      && t.eitPidIndex < |s.eitPids|
      && t.eitPidIndex == s.eitPidIndex % |s.eitPids|
      && t.requests == s.requests + [StartFilter(s.eitPids[t.eitPidIndex])]
      && t == s.(eitPidIndex := t.eitPidIndex, requests := t.requests)
  {
  }

  // ---------------------------------------------------------------------
  // MGT
  // ---------------------------------------------------------------------

  /** A table_type in 0x0100..0x017F names EIT-0 to EIT-127 (A/65 Table 6.3). */
  predicate IsEitTableType(t: uint16)
  {
    0x0100 <= t <= 0x017F
  }

  /** The EIT pid list after the MGT's tables: each EIT table's pid is
      appended unless it is already listed. */
  function MgtPids(pids: seq<uint16>, tables: seq<MgtTable>): seq<uint16>
  {
    if tables == [] then pids
    else
      var before := MgtPids(pids, tables[..|tables| - 1]);
      var t := tables[|tables| - 1];
      if IsEitTableType(t.tableType) && t.pid !in before then before + [t.pid] else before
  }

  function ParseMgt(s: ParserState, mgt: Option<Mgt>): ParserState
  {
    match mgt
    case None => s
    case Some(m) => s.(eitPids := MgtPids(s.eitPids, m.tables), isMGTParsed := true)
  }

  predicate NoDuplicates<T(==)>(xs: seq<T>)
  {
    forall i, j :: 0 <= i < j < |xs| ==> xs[i] != xs[j]
  }

  /** The MGT keeps the listed pids in place, keeps the list duplicate free
      and adds exactly the pids of EIT tables. */
  lemma {:induction false} MgtPidsSpec(pids: seq<uint16>, tables: seq<MgtTable>)
    requires NoDuplicates(pids)
    ensures var r := MgtPids(pids, tables);
      && NoDuplicates(r)
      && |pids| <= |r| && r[..|pids|] == pids
      && forall p :: p in r <==> p in pids || exists k :: 0 <= k < |tables| && IsEitTableType(tables[k].tableType) && tables[k].pid == p
    decreases |tables|
  {
    if tables != [] {
      var init := tables[..|tables| - 1];
      MgtPidsSpec(pids, init);
      var before := MgtPids(pids, init);
      var t := tables[|tables| - 1];
      var r := MgtPids(pids, tables);
      forall p ensures p in r <==> p in pids || exists k :: 0 <= k < |tables| && IsEitTableType(tables[k].tableType) && tables[k].pid == p {
        if exists k :: 0 <= k < |tables| && IsEitTableType(tables[k].tableType) && tables[k].pid == p {
          var k :| 0 <= k < |tables| && IsEitTableType(tables[k].tableType) && tables[k].pid == p;
          if k < |init| {
            assert init[k] == tables[k];
          }
        }
        if exists k :: 0 <= k < |init| && IsEitTableType(init[k].tableType) && init[k].pid == p {
          var k :| 0 <= k < |init| && IsEitTableType(init[k].tableType) && init[k].pid == p;
          assert tables[k] == init[k];
        }
      }
      if IsEitTableType(t.tableType) && t.pid !in before {
        assert r[..|pids|] == before[..|pids|];
      }
    }
  }

  /** Tables of other types leave the pid list alone. */
  lemma {:induction false} NonEitTablesIgnored(pids: seq<uint16>, tables: seq<MgtTable>)
    requires forall k :: 0 <= k < |tables| ==> !IsEitTableType(tables[k].tableType)
    ensures MgtPids(pids, tables) == pids
    decreases |tables|
  {
    if tables != [] {
      NonEitTablesIgnored(pids, tables[..|tables| - 1]);
    }
  }

  // ---------------------------------------------------------------------
  // STT
  // ---------------------------------------------------------------------

  /** The time ParseSTT sets: system_time minus the GPS-UTC offset, an
      unsigned 32-bit difference, converted to Unix time. */
  function SttTime(stt: Stt): uint32
  {
    AtscTimeToUnix((stt.systemTime - stt.gpsUtcOffset) % TWO_POW_32)
  }

  function ParseStt(s: ParserState, stt: Option<Stt>): ParserState
  {
    match stt
    case None => s
    case Some(t) =>
      var s1 := s.(clockSettings := s.clockSettings + [SttTime(t)], isTimeParsed := true);
      var s2 := if |s1.frequencyList| > 1 then Issue(s1, RunFrequencyHandler) else s1;
      Issue(s2, StartTimer)
  }

  lemma SttTimeIsUtc(stt: Stt)
    requires stt.gpsUtcOffset <= stt.systemTime < TWO_POW_32 - GPS_EPOCH
    ensures SttTime(stt) == stt.systemTime - stt.gpsUtcOffset + GPS_EPOCH
  {
  }

  // ---------------------------------------------------------------------
  // VCT
  // ---------------------------------------------------------------------

  /** The logical channel number: major and minor in decimal, joined by '.'. */
  function LogicalChannelNumber(major: uint16, minor: uint16): string
  {
    Decimal(major) + "." + Decimal(minor)
  }

  /** Splitting the channel number at its '.' gives back major and minor. */
  lemma LogicalChannelNumberRoundTrip(major: uint16, minor: uint16)
    ensures var lcn := LogicalChannelNumber(major, minor);
      var k := IndexOf(lcn, '.');
      && k < |lcn|
      && AllDigits(lcn[..k]) && DecimalValue(lcn[..k]) == major
      && AllDigits(lcn[k + 1..]) && DecimalValue(lcn[k + 1..]) == minor
  {
    var lcn := LogicalChannelNumber(major, minor);
    IndexOfAfterDigits(Decimal(major), '.', Decimal(minor));
    assert lcn[..|Decimal(major)|] == Decimal(major);
    assert lcn[|Decimal(major)| + 1..] == Decimal(minor);
    DecimalRoundTrip(major);
    DecimalRoundTrip(minor);
  }

  predicate VctReadable(v: Vct)
  {
    forall i :: 0 <= i < |v.sources| ==> SourceDescriptorsReadable(v.sources[i].descriptors)
  }

  function ChannelRecordOf(frequency: uint32, tsid: uint16, src: VctSource): ChannelRecord
    requires SourceDescriptorsReadable(src.descriptors)
  {
    ChannelRecord(frequency, src.modulationMode, src.shortName, src.sourceId, tsid,
      LogicalChannelNumber(src.majorChannelNumber, src.minorChannelNumber),
      src.programNumber, SourceLanguage(src.descriptors))
  }

  /** The channel rows of a VCT: one per source whose program_number is not 0. */
  function ChannelRecords(frequency: uint32, tsid: uint16, sources: seq<VctSource>): seq<ChannelRecord>
    requires forall i :: 0 <= i < |sources| ==> SourceDescriptorsReadable(sources[i].descriptors)
  {
    if sources == [] then []
    else
      var src := sources[|sources| - 1];
      ChannelRecords(frequency, tsid, sources[..|sources| - 1])
      + (if src.programNumber != 0 then [ChannelRecordOf(frequency, tsid, src)] else [])
  }

  function SourceIds(sources: seq<VctSource>): set<uint16>
  {
    set i | 0 <= i < |sources| :: sources[i].sourceId
  }

  function ParseVct(s: ParserState, vct: Option<Vct>, frequency: uint32): ParserState
    requires vct.Some? ==> VctReadable(vct.value)
  {
    match vct
    case None => s
    case Some(v) =>
      s.(channelSet := s.channelSet + SourceIds(v.sources),
         channels := s.channels + ChannelRecords(frequency, v.transportStreamId, v.sources))
  }

  /** A row is inserted for a source exactly when its program_number is not
      0, every row carries the frequency and the sources' ids, and the
      channel set only grows. */
  lemma {:induction false} ChannelRecordsSpec(frequency: uint32, tsid: uint16, sources: seq<VctSource>)
    requires forall i :: 0 <= i < |sources| ==> SourceDescriptorsReadable(sources[i].descriptors)
    ensures var rs := ChannelRecords(frequency, tsid, sources);
      && |rs| <= |sources|
      && (forall r :: r in rs ==> r.frequency == frequency && r.programNumber != 0 && r.sourceId in SourceIds(sources))
      && (forall i :: 0 <= i < |sources| && sources[i].programNumber != 0 ==> ChannelRecordOf(frequency, tsid, sources[i]) in rs)
    decreases |sources|
  {
    if sources != [] {
      var init := sources[..|sources| - 1];
      ChannelRecordsSpec(frequency, tsid, init);
      forall i | 0 <= i < |init| ensures init[i] == sources[i] {}
      assert SourceIds(init) <= SourceIds(sources) by {
        forall x | x in SourceIds(init) ensures x in SourceIds(sources) {
          var i :| 0 <= i < |init| && init[i].sourceId == x;
          assert sources[i].sourceId == x;
        }
      }
      assert sources[|sources| - 1].sourceId in SourceIds(sources);
    }
  }

  /** Announcing the same sources again leaves the channel set as it is. */
  lemma ChannelSetIdempotent(s: ParserState, v: Vct, f: uint32)
    requires VctReadable(v)
    ensures ParseVct(ParseVct(s, Some(v), f), Some(v), f).channelSet == ParseVct(s, Some(v), f).channelSet
  {
  }

  // ---------------------------------------------------------------------
  // EIT
  // ---------------------------------------------------------------------

  /** The section numbers 0..last. */
  function SectionRange(last: uint8): (r: set<uint8>)
    ensures forall n: uint8 :: n in r <==> n <= last
  {
    if last == 0 then {0} else SectionRange(last - 1) + {last}
  }

  /** The pending sets after a section of source sid: None when the set is
      already empty (the section is ignored); otherwise the set, seeded with
      0..last on first sight, loses the section's own number. */
  function EitPendingStep(pm: map<uint16, set<uint8>>, sid: uint16, sectionNumber: uint8, last: uint8): Option<map<uint16, set<uint8>>>
  {
    if sid in pm && pm[sid] == {} then None
    else
      var pending := if sid in pm then pm[sid] else SectionRange(last);
      Some(pm[sid := pending - {sectionNumber}])
  }

  /** IsEITParsingCompleted: as many tracked sources as channels, and no
      section pending for any of them. */
  predicate EitCompleted(pm: map<uint16, set<uint8>>, channels: set<uint16>)
  {
    |pm| == |channels| && forall k :: k in pm ==> pm[k] == {}
  }

  function EventRecord(sid: uint8, ev: EitEvent, decode: Segment -> string): ProgramRecord
    requires EventDescriptorsReadable(ev.descriptors)
  {
    ProgramRecord(sid, ev.eventId, AtscTimeToUnix(ev.startTime), ev.lengthInSeconds,
      TextOf(ev.titles, decode), EventRating(ev.descriptors, decode), EventCaption(ev.descriptors))
  }

  predicate EventsReadable(events: seq<EitEvent>)
  {
    forall i :: 0 <= i < |events| ==> EventDescriptorsReadable(events[i].descriptors)
  }

  /** The program rows of the events, one per event, in order. */
  function EventRecords(sid: uint8, events: seq<EitEvent>, decode: Segment -> string): (rs: seq<ProgramRecord>)
    requires EventsReadable(events)
  {
    if events == [] then []
    else EventRecords(sid, events[..|events| - 1], decode) + [EventRecord(sid, events[|events| - 1], decode)]
  }

  /** One more event adds its row at the end. */
  lemma EventRecordsStep(sid: uint8, events: seq<EitEvent>, i: nat, decode: Segment -> string)
    requires EventsReadable(events) && i < |events|
    ensures EventsReadable(events[..i]) && EventsReadable(events[..i + 1])
    ensures EventRecords(sid, events[..i + 1], decode) == EventRecords(sid, events[..i], decode) + [EventRecord(sid, events[i], decode)]
  {
    assert events[..i + 1][..i] == events[..i];
  }

  /** Each event gives exactly one row, under the source id truncated to 8
      bits, starting at the event's start time plus the GPS epoch. */
  lemma {:induction false} EventRecordsSpec(sid: uint8, events: seq<EitEvent>, decode: Segment -> string)
    requires EventsReadable(events)
    ensures var rs := EventRecords(sid, events, decode);
      && |rs| == |events|
      && forall i :: 0 <= i < |events| ==>
        && rs[i].sourceId == sid
        && rs[i].eventId == events[i].eventId
        && rs[i].startTime == AtscTimeToUnix(events[i].startTime)
        && rs[i].duration == events[i].lengthInSeconds
        && rs[i].title == TextOf(events[i].titles, decode)
    decreases |events|
  {
    if events != [] {
      var init := events[..|events| - 1];
      EventRecordsSpec(sid, init, decode);
      forall i | 0 <= i < |init| ensures init[i] == events[i] {}
    }
  }

  /** Whether the parser completes an EIT pid on this step, with the state
      just before the completion check. */
  function AfterEitEvents(s: ParserState, sectionNumber: uint8, last: uint8, e: Eit, decode: Segment -> string): ParserState
    requires EventsReadable(e.events)
    requires EitPendingStep(s.programMap, e.sourceId, sectionNumber, last).Some?
  {
    s.(programMap := EitPendingStep(s.programMap, e.sourceId, sectionNumber, last).value,
       programs := s.programs + EventRecords((e.sourceId % 0x100) as uint8, e.events, decode))
  }

  /** After the index has moved on: the next pid is requested, or once the
      list is through the frequency handler takes over when there are
      several frequencies and nothing is streaming. */
  function NextEitPid(s: ParserState): ParserState
  {
    if s.eitPidIndex as int == |s.eitPids| then
      (if |s.frequencyList| > 1 && !s.isStreaming then Issue(s, RunFrequencyHandler) else s)
    else PushEitStartRequest(s)
  }

  /** What completing one EIT pid does: report it, move the index on and
      forget the pending sets. */
  function CompleteEitPid(s: ParserState): ParserState
  {
    NextEitPid(Issue(s, EitBroadcasted).(eitPidIndex := (s.eitPidIndex + 1) % TWO_POW_32)).(programMap := map[])
  }

  predicate EitReadable(e: Eit)
  {
    EventsReadable(e.events)
  }

  function ParseEit(s: ParserState, sectionNumber: uint8, last: uint8, eit: Option<Eit>, decode: Segment -> string): ParserState
    requires eit.Some? ==> EitReadable(eit.value)
  {
    match eit
    case None => s
    case Some(e) =>
      if EitPendingStep(s.programMap, e.sourceId, sectionNumber, last).None? then s
      else
        var s1 := AfterEitEvents(s, sectionNumber, last, e, decode);
        if EitCompleted(s1.programMap, s1.channelSet) then CompleteEitPid(s1) else s1
  }

  /** A section of a source whose set is already empty changes nothing and
      inserts no event. */
  lemma EmptyPendingIgnored(s: ParserState, sectionNumber: uint8, last: uint8, e: Eit, decode: Segment -> string)
    requires EitReadable(e)
    requires e.sourceId in s.programMap && s.programMap[e.sourceId] == {}
    ensures ParseEit(s, sectionNumber, last, Some(e), decode) == s
  {
  }

  /** On first sight of a source its set becomes 0..last without the
      section's number; later sections only remove their own number. Other
      sources are untouched. */
  lemma EitPendingStepSpec(pm: map<uint16, set<uint8>>, sid: uint16, sectionNumber: uint8, last: uint8)
    ensures sid !in pm ==>
      var r := EitPendingStep(pm, sid, sectionNumber, last);
      r.Some? && r.value[sid] == SectionRange(last) - {sectionNumber}
    ensures sid in pm && pm[sid] != {} ==>
      var r := EitPendingStep(pm, sid, sectionNumber, last);
      r.Some? && r.value[sid] == pm[sid] - {sectionNumber}
    ensures var r := EitPendingStep(pm, sid, sectionNumber, last);
      r.Some? ==> r.value.Keys == pm.Keys + {sid} && forall k :: k in pm && k != sid ==> r.value[k] == pm[k]
  {
  }

  /** The pending sets after several sections of one source, first sight
      included: the last section number of the first one decides the range. */
  function PendingAfter(pm: map<uint16, set<uint8>>, sid: uint16, sections: seq<(uint8, uint8)>): map<uint16, set<uint8>>
  {
    if sections == [] then pm
    else
      var before := PendingAfter(pm, sid, sections[..|sections| - 1]);
      var (n, last) := sections[|sections| - 1];
      match EitPendingStep(before, sid, n, last)
      case None => before
      case Some(after) => after
  }

  function Numbers(sections: seq<(uint8, uint8)>): set<uint8>
  {
    set i | 0 <= i < |sections| :: sections[i].0
  }

  /** Starting from no entry for the source, its pending set is always the
      range announced by the first section minus every section number seen,
      whatever the order of arrival or repetitions. */
  lemma {:induction false} PendingTracksSeen(pm: map<uint16, set<uint8>>, sid: uint16, sections: seq<(uint8, uint8)>)
    requires sid !in pm && sections != []
    ensures var r := PendingAfter(pm, sid, sections);
      sid in r && r[sid] == SectionRange(sections[0].1) - Numbers(sections)
    decreases |sections|
  {
    var init := sections[..|sections| - 1];
    var (n, last) := sections[|sections| - 1];
    if init == [] {
      assert Numbers(sections) == {n};
    } else {
      PendingTracksSeen(pm, sid, init);
      assert init[0] == sections[0];
      assert Numbers(sections) == Numbers(init) + {n} by {
        forall x ensures x in Numbers(sections) <==> x in Numbers(init) + {n} {
          if x in Numbers(sections) {
            var i :| 0 <= i < |sections| && sections[i].0 == x;
            if i < |init| { assert init[i] == sections[i]; }
          }
          if x in Numbers(init) {
            var i :| 0 <= i < |init| && init[i].0 == x;
            assert sections[i] == init[i];
          }
        }
      }
    }
  }

  /** Completion clears every pending set, advances the index and then
      requests the next pid when there is one; the request goes to a pid of
      the list. */
  lemma CompleteEitPidSpec(s: ParserState)
    requires s.eitPidIndex + 1 < TWO_POW_32
    ensures var t := CompleteEitPid(s);
      && t.programMap == map[] && t.eitPids == s.eitPids
      && |s.requests| < |t.requests| && t.requests[|s.requests|] == EitBroadcasted
      && (s.eitPidIndex + 1 != |s.eitPids| && |s.eitPids| > 0 ==>
            t.eitPidIndex < |s.eitPids| && t.requests == s.requests + [EitBroadcasted, StartFilter(s.eitPids[t.eitPidIndex])])
      && (s.eitPidIndex + 1 == |s.eitPids| ==> t.eitPidIndex == |s.eitPids|)
  {
    var u := Issue(s, EitBroadcasted).(eitPidIndex := (s.eitPidIndex + 1) % TWO_POW_32);
    NextEitPidSpec(u);
  }

  /** Moving on to the next pid: past the end nothing is requested but a
      frequency handler run, otherwise the start of the (wrapped) pid. */
  lemma NextEitPidSpec(u: ParserState)
    ensures var t := NextEitPid(u);
      && t.eitPids == u.eitPids && |u.requests| <= |t.requests| && t.requests[..|u.requests|] == u.requests
      && (u.eitPidIndex != |u.eitPids| && |u.eitPids| > 0 ==>
            t.eitPidIndex < |u.eitPids| && t.eitPidIndex == u.eitPidIndex % |u.eitPids|
            && t.requests == u.requests + [StartFilter(u.eitPids[t.eitPidIndex])])
      && (u.eitPidIndex == |u.eitPids| ==> t.eitPidIndex == |u.eitPids|)
  {
  }

  // ---------------------------------------------------------------------
  // ParseData
  // ---------------------------------------------------------------------

  /** The state after the frequency check that starts ParseData. */
  function FrequencyChecked(s: ParserState, frequency: uint32): ParserState
  {
    if s.currentParsingFrequency != frequency then ResetTables(s).(currentParsingFrequency := frequency) else s
  }

  /** What ParseData needs: the descriptors the helpers walk must be
      whole. */
  predicate SectionReadable(s: ParserState, section: Option<Section>, frequency: uint32)
  {
    section.Some? ==>
      match section.value.body
      case TvctSection(v) => v.Some? ==> VctReadable(v.value)
      case CvctSection(v) => v.Some? ==> VctReadable(v.value)
      case EitSection(e) => e.Some? ==> EitReadable(e.value)
      case _ => true
  }

  function ParseData(s: ParserState, section: Option<Section>, frequency: uint32, decode: Segment -> string): ParserState
    requires SectionReadable(s, section, frequency)
  {
    var s1 := FrequencyChecked(s, frequency);
    match section
    case None => s1
    case Some(sec) =>
      match sec.body
      case MgtSection(mgt) =>
        var s2 := ParseMgt(s1, mgt);
        if s2.isTimeParsed then PushEitStartRequest(s2) else s2
      case TvctSection(vct) => ParseVct(s1, vct, frequency)
      case CvctSection(vct) => ParseVct(s1, vct, frequency)
      case EitSection(eit) => ParseEit(s1, sec.sectionNumber, sec.lastSectionNumber, eit, decode)
      case SttSection(stt) =>
        var s2 := if !s1.isTimeParsed then ParseStt(s1, stt) else s1;
        if s2.isMGTParsed then PushEitStartRequest(s2) else s2
      case OtherSection => s1
  }

  /** A section from another frequency first empties the EIT pid list, the
      pending sets and the channel set and zeroes the index, then records
      the frequency; the flags and everything else stay. */
  lemma FrequencyChangeResets(s: ParserState, frequency: uint32, decode: Segment -> string)
    requires s.currentParsingFrequency != frequency
    ensures var t := ParseData(s, None, frequency, decode);
      t == s.(eitPids := [], eitPidIndex := 0, programMap := map[], channelSet := {}, currentParsingFrequency := frequency)
  {
  }

  lemma SameFrequencyKeepsTables(s: ParserState, decode: Segment -> string)
    ensures ParseData(s, None, s.currentParsingFrequency, decode) == s
  {
  }

  /** Whatever the indentation suggests, the EIT start request of an STT
      does not depend on whether the time had been parsed: with the MGT
      known, every STT requests an EIT pid. */
  lemma EverySttPushesEitStart(s: ParserState, n: uint8, last: uint8, stt: Option<Stt>, decode: Segment -> string)
    requires s.isTimeParsed && s.isMGTParsed && |s.eitPids| > 0
    ensures var t := ParseData(s, Some(Section(n, last, SttSection(stt))), s.currentParsingFrequency, decode);
      t.requests == s.requests + [StartFilter(s.eitPids[s.eitPidIndex % |s.eitPids|])]
  {
  }

  /** Once the time is known, a further STT does not set the clock again. */
  lemma SttSetsClockOnce(s: ParserState, n: uint8, last: uint8, stt: Option<Stt>, decode: Segment -> string)
    requires s.isTimeParsed
    ensures ParseData(s, Some(Section(n, last, SttSection(stt))), s.currentParsingFrequency, decode).clockSettings == s.clockSettings
  {
  }

  /** ParseData never clears the flags: a time or MGT once parsed stays
      parsed across frequency changes. */
  lemma FlagsSurvive(s: ParserState, section: Option<Section>, frequency: uint32, decode: Segment -> string)
    requires SectionReadable(s, section, frequency)
    ensures var t := ParseData(s, section, frequency, decode);
      (s.isTimeParsed ==> t.isTimeParsed) && (s.isMGTParsed ==> t.isMGTParsed)
  {
    if section.Some? && section.value.body.EitSection? {
      EitKeepsFlags(s, section.value, frequency, decode);
    }
  }

  lemma EitKeepsFlags(s: ParserState, sec: Section, frequency: uint32, decode: Segment -> string)
    requires sec.body.EitSection? && SectionReadable(s, Some(sec), frequency)
    ensures var t := ParseData(s, Some(sec), frequency, decode);
      t.isTimeParsed == s.isTimeParsed && t.isMGTParsed == s.isMGTParsed
  {
    var s1 := FrequencyChecked(s, frequency);
    ParseEitKeepsFlags(s1, sec.sectionNumber, sec.lastSectionNumber, sec.body.eit, decode);
  }

  lemma ParseEitKeepsFlags(s: ParserState, n: uint8, last: uint8, eit: Option<Eit>, decode: Segment -> string)
    requires eit.Some? ==> EitReadable(eit.value)
    ensures var t := ParseEit(s, n, last, eit, decode);
      t.isTimeParsed == s.isTimeParsed && t.isMGTParsed == s.isMGTParsed
  {
    if eit.Some? && EitPendingStep(s.programMap, eit.value.sourceId, n, last).Some? {
      var s1 := AfterEitEvents(s, n, last, eit.value, decode);
      assert s1.isTimeParsed == s.isTimeParsed && s1.isMGTParsed == s.isMGTParsed;
      CompleteKeepsFlags(s1);
    }
  }

  lemma CompleteKeepsFlags(s: ParserState)
    ensures CompleteEitPid(s).isTimeParsed == s.isTimeParsed && CompleteEitPid(s).isMGTParsed == s.isMGTParsed
  {
  }

  // ---------------------------------------------------------------------
  // Configuration and the frequency handler
  // ---------------------------------------------------------------------

  /** ConfigureParser; stored is what EPGDataBase::ReadFrequency yields, None
      when it fails (the list is then taken to be left as it was). */
  function ConfigureParser(s: ParserState, stored: Option<seq<uint32>>): ParserState
  {
    if s.homeTS != 0 then
      SendBaseTableRequest(Issue(s.(parserRunning := true), SetHomeTS(s.homeTS)))
    else if stored.None? then s
    else
      var s1 := s.(frequencyList := stored.value);
      if |s1.frequencyList| > 0 then
        Issue(s1.(parserRunning := true, handlerFrequencies := s1.frequencyList), RunFrequencyHandler)
      else s1
  }

  function UpdateFrequencyList(s: ParserState, stored: Option<seq<uint32>>): ParserState
  {
    if s.homeTS != 0 then s
    else
      var previous := s.frequencyList;
      var s1 := if stored.Some? then s.(frequencyList := stored.value) else s;
      if |s1.frequencyList| > 0 && previous != s1.frequencyList then
        var s2 := if s1.parserRunning then Issue(Issue(s1, StopFrequencyHandler), StopFilters) else s1;
        Issue(s2.(parserRunning := true, handlerFrequencies := s1.frequencyList), RunFrequencyHandler)
      else s1
  }

  /** An unchanged list restarts nothing. */
  lemma SameListRestartsNothing(s: ParserState)
    ensures UpdateFrequencyList(s, Some(s.frequencyList)) == s
  {
  }

  /** FrequencyHandler::Worker reads the list at the stored index. */
  predicate HandlerIndexInRange(s: ParserState)
  {
    s.handlerIndex < |s.handlerFrequencies|
  }

  /** FrequencyHandler::Worker: when the parser runs and nothing is
      streaming, retune the filters to the current frequency and move the
      index round robin (it stays put for a single frequency). running is
      the thread's IsRunning(). */
  function HandlerWorker(s: ParserState, running: bool): ParserState
    requires running && s.parserRunning && !s.isStreaming ==> HandlerIndexInRange(s)
  {
    if running && s.parserRunning && !s.isStreaming then
      var f := s.handlerFrequencies[s.handlerIndex];
      var s1 := SendBaseTableRequest(Issue(ClearEitPids(Issue(s, StopFilters)), SetHomeTS(f)));
      if |s.handlerFrequencies| > 1 then
        s1.(handlerIndex := ((s.handlerIndex + 1) % TWO_POW_32) % |s.handlerFrequencies|)
      else s1
    else s
  }

  /** The handler index stays inside the list, stays 0 for a single
      frequency and otherwise moves to the next frequency round robin. */
  lemma HandlerWorkerSpec(s: ParserState, running: bool)
    requires HandlerIndexInRange(s) && |s.handlerFrequencies| < TWO_POW_32
    ensures var t := HandlerWorker(s, running);
      && HandlerIndexInRange(t)
      && (|s.handlerFrequencies| == 1 ==> t.handlerIndex == s.handlerIndex)
      && (running && s.parserRunning && !s.isStreaming && |s.handlerFrequencies| > 1 ==>
            t.handlerIndex == (s.handlerIndex + 1) % |s.handlerFrequencies|)
      && (!running || !s.parserRunning || s.isStreaming ==> t == s)
  {
  }

  /** The retune tunes the frequency at the index and then asks for the
      base tables. */
  lemma HandlerWorkerRequests(s: ParserState)
    requires s.parserRunning && !s.isStreaming && HandlerIndexInRange(s)
    ensures HandlerWorker(s, true).requests
      == s.requests + [StopFilters, SetHomeTS(s.handlerFrequencies[s.handlerIndex]), StartFilter(ATSC_BASE_PID)]
    ensures HandlerWorker(s, true).eitPids == []
  {
  }

  // ---------------------------------------------------------------------
  // The parser thread
  // ---------------------------------------------------------------------

  /** What the data queue yields: an envelope buffer, and the section the
      struct copied to DATA_OFFSET stands for. None is a null buffer. */
  datatype QueueElement = QueueElement(buffer: seq<uint8>, section: Option<Section>)

  predicate QueueReadable(s: ParserState, items: seq<Option<QueueElement>>, decode: Segment -> string)
    decreases |items|
  {
    items == [] ||
    match items[0]
    case None => QueueReadable(s, items[1..], decode)
    case Some(q) =>
      && |q.buffer| >= Envelope.FREQUENCY_WIDTH
      && SectionReadable(s, q.section, Envelope.ReadFrequency(q.buffer))
      && QueueReadable(ParseData(s, q.section, Envelope.ReadFrequency(q.buffer), decode), items[1..], decode)
  }

  /** Each non-null buffer is parsed with the frequency in its first bytes. */
  function ParseQueue(s: ParserState, items: seq<Option<QueueElement>>, decode: Segment -> string): ParserState
    requires QueueReadable(s, items, decode)
    decreases |items|
  {
    if items == [] then s
    else match items[0]
      case None => ParseQueue(s, items[1..], decode)
      case Some(q) => ParseQueue(ParseData(s, q.section, Envelope.ReadFrequency(q.buffer), decode), items[1..], decode)
  }

  /** The first run of the thread configures the parser. */
  function Initialised(s: ParserState, stored: Option<seq<uint32>>): ParserState
  {
    if !s.clientInitialised then ConfigureParser(s.(clientInitialised := true), stored) else s
  }

  /** A buffer written by the backend is parsed under the frequency the
      backend wrote into it. */
  lemma QueueUsesWrittenFrequency(s: ParserState, f: uint32, len: uint16, body: seq<uint8>, sec: Option<Section>, decode: Segment -> string)
    requires |body| == Envelope.BUFFER_SIZE - Envelope.DATA_OFFSET
    requires SectionReadable(s, sec, f)
    ensures var item := Some(QueueElement(Envelope.WriteEnvelope(f, len, body), sec));
      QueueReadable(s, [item], decode) && ParseQueue(s, [item], decode) == ParseData(s, sec, f, decode)
  {
    Envelope.EnvelopeRoundTrip(f, len, body);
    var item := Some(QueueElement(Envelope.WriteEnvelope(f, len, body), sec));
    assert [item][1..] == [];
  }
}
