/** ParserATSC and its FrequencyHandler as classes. The fields are those of
    the C++ classes; the SI handler calls, the thread starts and stops, the
    rows inserted into the EPG database and the clock settings are kept as
    logs. Every state-changing method is proved to move the state the way
    the function of the same name in PsipState does. */
module ParserAtsc {
  import opened Common
  import opened AtscCommon
  import opened ParserText
  import opened PsipState
  import Envelope

  class FrequencyHandler {
    var frequencyList: seq<uint32>
    var currentFreqIndex: uint32

    constructor ()
      ensures frequencyList == [] && currentFreqIndex == 0
    {
      frequencyList := [];
      currentFreqIndex := 0;
    }

    /** FrequencyHandler::Worker. running is the thread's IsRunning(). */
    method Worker(parser: ParserATSC, running: bool)
      requires parser.freqHandler == this
      requires running && parser.parserRunning && !parser.isStreaming ==> currentFreqIndex < |frequencyList|
      modifies this, parser
      ensures parser.State() == HandlerWorker(old(parser.State()), running)
    {
      if running {
        if parser.parserRunning && !parser.isStreaming {
          ghost var s0 := parser.State();
          parser.ReleaseFilters();
          parser.ClearEITPids();
          parser.RequestHomeTS(frequencyList[currentFreqIndex]);
          parser.SendBaseTableRequest();
          assert parser.State() == SendBaseTableRequest(Issue(ClearEitPids(Issue(s0, StopFilters)), SetHomeTS(s0.handlerFrequencies[s0.handlerIndex])));
          if |frequencyList| == 1 {
          } else if |frequencyList| > 1 {
            currentFreqIndex := (currentFreqIndex + 1) % TWO_POW_32;
            currentFreqIndex := currentFreqIndex % |frequencyList|;
          }
        }
      }
    }
  }

  class ParserATSC {
    var eitPidVector: seq<uint16>
    var eitPidIndex: uint32
    var programMap: map<uint16, set<uint8>>
    var channelSet: set<uint16>
    var isTimeParsed: bool
    var isMGTParsed: bool
    var clientInitialised: bool
    var parserRunning: bool
    var frequencyList: seq<uint32>
    const freqHandler: FrequencyHandler
    var currentParsingFrequency: uint32
    var isStreaming: bool
    var homeTS: uint32
    var requests: seq<Request>
    var channels: seq<ChannelRecord>
    var programs: seq<ProgramRecord>
    var clockSettings: seq<int>

    function State(): ParserState
      reads this, freqHandler
    {
      ParserState(eitPidVector, eitPidIndex, programMap, channelSet, isTimeParsed, isMGTParsed,
        clientInitialised, parserRunning, frequencyList, currentParsingFrequency, isStreaming, homeTS,
        freqHandler.frequencyList, freqHandler.currentFreqIndex, requests, channels, programs, clockSettings)
    }

    constructor (homeTS: uint32)
      ensures State() == Initial(homeTS)
      ensures fresh(freqHandler)
    {
      eitPidVector := [];
      eitPidIndex := 0;
      programMap := map[];
      channelSet := {};
      isTimeParsed := false;
      isMGTParsed := false;
      clientInitialised := false;
      parserRunning := false;
      frequencyList := [];
      freqHandler := new FrequencyHandler();
      currentParsingFrequency := 0;
      isStreaming := false;
      this.homeTS := homeTS;
      requests := [];
      channels := [];
      programs := [];
      clockSettings := [];
    }

    // -------------------------------------------------------------------
    // Requests to the SI handler
    // -------------------------------------------------------------------

    /** GetSIHandler()->StopFilters(). */
    method ReleaseFilters()
      modifies this
      ensures State() == Issue(old(State()), StopFilters)
    {
      requests := requests + [StopFilters];
    }

    /** GetSIHandler()->SetHomeTS(frequency, 0). */
    method RequestHomeTS(frequency: uint32)
      modifies this
      ensures State() == Issue(old(State()), SetHomeTS(frequency))
    {
      requests := requests + [SetHomeTS(frequency)];
    }

    method SendBaseTableRequest()
      modifies this
      ensures State() == PsipState.SendBaseTableRequest(old(State()))
    {
      requests := requests + [StartFilter(ATSC_BASE_PID)];
    }

    /** The frequency argument is not used. */
    method UpdateCurrentFrequency(currentFrequency: uint32)
      modifies this
      ensures State() == PsipState.UpdateCurrentFrequency(old(State()))
    {
      isStreaming := true;
      SendBaseTableRequest();
    }

    method PushEitStartRequest()
      modifies this
      ensures State() == PsipState.PushEitStartRequest(old(State()))
    {
      if |eitPidVector| > 0 {
        eitPidIndex := eitPidIndex % |eitPidVector|;
        requests := requests + [StartFilter(eitPidVector[eitPidIndex])];
      }
    }

    method PushEitStopRequest()
      requires StopRequestInRange(State())
      modifies this
      ensures State() == PsipState.PushEitStopRequest(old(State()))
    {
      if |eitPidVector| > 0 {
        requests := requests + [StopFilter(eitPidVector[eitPidIndex])];
      }
    }

    // -------------------------------------------------------------------
    // Configuration
    // -------------------------------------------------------------------

    /** stored: what EPGDataBase::ReadFrequency yields, None on failure. */
    method ConfigureParser(stored: Option<seq<uint32>>)
      modifies this, freqHandler
      ensures State() == PsipState.ConfigureParser(old(State()), stored)
    {
      if homeTS != 0 {
        parserRunning := true;
        RequestHomeTS(homeTS);
        SendBaseTableRequest();
      } else {
        if stored.Some? {
          frequencyList := stored.value;
          if |frequencyList| > 0 {
            parserRunning := true;
            freqHandler.frequencyList := frequencyList;
            requests := requests + [RunFrequencyHandler];
          }
        }
      }
    }

    method UpdateFrequencyList(stored: Option<seq<uint32>>)
      modifies this, freqHandler
      ensures State() == PsipState.UpdateFrequencyList(old(State()), stored)
    {
      if homeTS == 0 {
        var previousFrequencyList: seq<uint32> := [];
        if |frequencyList| > 0 {
          previousFrequencyList := frequencyList;
        }
        if stored.Some? {
          frequencyList := stored.value;
        }
        if |frequencyList| > 0 && previousFrequencyList != frequencyList {
          if parserRunning {
            requests := requests + [StopFrequencyHandler];
            ReleaseFilters();
          }
          parserRunning := true;
          freqHandler.frequencyList := frequencyList;
          requests := requests + [RunFrequencyHandler];
        }
      }
    }

    // -------------------------------------------------------------------
    // Tables
    // -------------------------------------------------------------------

    method ResetTables() returns (ok: bool)
      modifies this
      ensures State() == PsipState.ResetTables(old(State()))
      ensures ok
    {
      eitPidIndex := 0;
      eitPidVector := [];
      programMap := map[];
      channelSet := {};
      return true;
    }

    method ClearEITPids()
      modifies this
      ensures State() == ClearEitPids(old(State()))
    {
      eitPidIndex := 0;
      eitPidVector := [];
    }

    method ParseMGT(mgt: Option<Mgt>) returns (ok: bool)
      modifies this
      ensures State() == ParseMgt(old(State()), mgt)
      ensures ok == mgt.Some?
    {
      if mgt.None? {
        return false;
      }
      var tables := mgt.value.tables;
      var i := 0;
      while i < |tables|
        invariant 0 <= i <= |tables|
        invariant eitPidVector == MgtPids(old(eitPidVector), tables[..i])
        invariant State() == old(State()).(eitPids := eitPidVector)
      {
        var table := tables[i];
        if table.tableType >= 0x0100 && table.tableType <= 0x017F {
          if table.pid !in eitPidVector {
            eitPidVector := eitPidVector + [table.pid];
          }
        }
        assert tables[..i + 1][..i] == tables[..i];
        i := i + 1;
      }
      assert tables[..|tables|] == tables;
      isMGTParsed := true;
      return true;
    }

    method ParseSTT(stt: Option<Stt>) returns (ok: bool)
      modifies this
      ensures State() == ParseStt(old(State()), stt)
      ensures ok == stt.Some?
    {
      if stt.None? {
        return false;
      }
      var t := stt.value;
      var timeVal := AtscTimeToUnix((t.systemTime - t.gpsUtcOffset) % TWO_POW_32);
      clockSettings := clockSettings + [timeVal];
      isTimeParsed := true;
      if |frequencyList| > 1 {
        requests := requests + [RunFrequencyHandler];
      }
      requests := requests + [StartTimer];
      return true;
    }

    method ParseVCT(vct: Option<Vct>, frequency: uint32) returns (ok: bool)
      requires vct.Some? ==> VctReadable(vct.value)
      modifies this
      ensures State() == ParseVct(old(State()), vct, frequency)
      ensures ok == vct.Some?
    {
      if vct.None? {
        return false;
      }
      var v := vct.value;
      ghost var s0 := State();
      var i := 0;
      while i < |v.sources|
        invariant 0 <= i <= |v.sources| && VctReadable(Vct(v.transportStreamId, v.sources[..i]))
        invariant State() == ParseVct(s0, Some(Vct(v.transportStreamId, v.sources[..i])), frequency)
      {
        AddSource(frequency, v.transportStreamId, v.sources[i]);
        SourceIdsSnoc(v.sources, i);
        ChannelRecordsSnoc(frequency, v, i);
        i := i + 1;
      }
      assert v.sources[..|v.sources|] == v.sources;
      return true;
    }

    /** The body of the loop over the sources of ParseVCT. */
    method AddSource(frequency: uint32, tsid: uint16, source: VctSource)
      requires SourceDescriptorsReadable(source.descriptors)
      modifies this
      ensures State() == old(State()).(channelSet := old(channelSet) + {source.sourceId},
        channels := old(channels) + if source.programNumber != 0 then [ChannelRecordOf(frequency, tsid, source)] else [])
    {
      var logicalChannelNumber := Decimal(source.majorChannelNumber) + "." + Decimal(source.minorChannelNumber);
      channelSet := channelSet + {source.sourceId};
      var language := SourceLanguageOf(source.descriptors);
      if source.programNumber != 0 {
        channels := channels + [ChannelRecord(frequency, source.modulationMode, source.shortName, source.sourceId,
          tsid, logicalChannelNumber, source.programNumber, language)];
      }
    }

    /** ParseEvents: one program row per event. */
    method ParseEvents(eit: Eit, sourceId: uint8, decode: Segment -> string) returns (ok: bool)
      requires EventsReadable(eit.events)
      modifies this
      ensures State() == old(State()).(programs := old(programs) + EventRecords(sourceId, eit.events, decode))
      ensures ok
    {
      var events := eit.events;
      var i := 0;
      while i < |events|
        invariant 0 <= i <= |events| && EventsReadable(events[..i])
        invariant programs == old(programs) + EventRecords(sourceId, events[..i], decode)
        invariant State() == old(State()).(programs := programs)
      {
        var event := events[i];
        var startTime := AtscTimeToUnix(event.startTime);
        var title := ATSCTextDecode(event.titles, decode);
        var rating, captionLanguage := EventDescriptors(event.descriptors, decode);
        EventRecordsStep(sourceId, events, i, decode);
        programs := programs + [ProgramRecord(sourceId, event.eventId, startTime, event.lengthInSeconds, title, rating, captionLanguage)];
        i := i + 1;
      }
      assert events[..|events|] == events;
      return true;
    }

    method IsEITParsingCompleted() returns (completed: bool)
      ensures completed <==> EitCompleted(programMap, channelSet)
    {
      completed := false;
      if |programMap| == |channelSet| {
        var keys := programMap.Keys;
        while keys != {}
          invariant keys <= programMap.Keys
          invariant forall k :: k in programMap && k !in keys ==> programMap[k] == {}
          decreases |keys|
        {
          var k :| k in keys;
          if programMap[k] != {} {
            return false;
          }
          keys := keys - {k};
        }
        completed := true;
      }
    }

    method ParseEIT(sectionNumber: uint8, lastSectionNumber: uint8, eit: Option<Eit>, decode: Segment -> string) returns (ok: bool)
      requires eit.Some? ==> EitReadable(eit.value)
      modifies this
      ensures State() == ParseEit(old(State()), sectionNumber, lastSectionNumber, eit, decode)
      ensures ok == eit.Some?
    {
      if eit.None? {
        return false;
      }
      var e := eit.value;
      var tracked := TrackSection(e.sourceId, sectionNumber, lastSectionNumber);
      if !tracked {
        return true;
      }
      var parsed := ParseEvents(e, (e.sourceId % 0x100) as uint8, decode);
      if !parsed {
        return false;
      }
      var done := IsEITParsingCompleted();
      if done {
        CompleteEITPid();
      }
      return true;
    }

    /** The bookkeeping of ParseEIT before the events: false when the
        source's set is already empty; otherwise the set, seeded on first
        sight, loses the section's number. */
    method TrackSection(sourceId: uint16, sectionNumber: uint8, lastSectionNumber: uint8) returns (tracked: bool)
      modifies this
      ensures tracked == EitPendingStep(old(programMap), sourceId, sectionNumber, lastSectionNumber).Some?
      ensures tracked ==> State() == old(State()).(programMap := EitPendingStep(old(programMap), sourceId, sectionNumber, lastSectionNumber).value)
      ensures !tracked ==> State() == old(State())
    {
      if sourceId !in programMap {
        var sections := SeedSections(lastSectionNumber);
        programMap := programMap[sourceId := sections];
      } else {
        if programMap[sourceId] == {} {
          return false;
        }
      }
      programMap := programMap[sourceId := programMap[sourceId] - {sectionNumber}];
      return true;
    }

    /** The branch of ParseEIT taken once every pending set is empty. */
    method CompleteEITPid()
      modifies this
      ensures State() == CompleteEitPid(old(State()))
    {
      AnnounceEitPid();
      programMap := map[];
    }

    /** Reports the completed pid and moves on to the next one. */
    method AnnounceEitPid()
      modifies this
      ensures State() == PsipState.NextEitPid(Issue(old(State()), EitBroadcasted).(eitPidIndex := (old(eitPidIndex) + 1) % TWO_POW_32))
    {
      requests := requests + [EitBroadcasted];
      eitPidIndex := (eitPidIndex + 1) % TWO_POW_32;
      NextEitPid();
    }

    /** After the index has moved on: request the next EIT pid, or once the
        list is through hand over to the frequency handler. */
    method NextEitPid()
      modifies this
      ensures State() == PsipState.NextEitPid(old(State()))
    {
      if eitPidIndex as int == |eitPidVector| {
        if |frequencyList| > 1 && !isStreaming {
          requests := requests + [RunFrequencyHandler];
        }
      } else {
        PushEitStartRequest();
      }
    }

    method ParseData(section: Option<Section>, frequency: uint32, decode: Segment -> string)
      requires SectionReadable(State(), section, frequency)
      modifies this
      ensures State() == PsipState.ParseData(old(State()), section, frequency, decode)
    {
      if currentParsingFrequency != frequency {
        var _ := ResetTables();
        currentParsingFrequency := frequency;
      }
      if section.None? {
        return;
      }
      var sec := section.value;
      match sec.body {
        case MgtSection(mgt) =>
          var _ := ParseMGT(mgt);
          if isTimeParsed {
            PushEitStartRequest();
          }
        case TvctSection(vct) =>
          var _ := ParseVCT(vct, frequency);
        case CvctSection(vct) =>
          var _ := ParseVCT(vct, frequency);
        case EitSection(eit) =>
          var _ := ParseEIT(sec.sectionNumber, sec.lastSectionNumber, eit, decode);
        case SttSection(stt) =>
          if !isTimeParsed {
            var _ := ParseSTT(stt);
          }
          if isMGTParsed {
            PushEitStartRequest();
          }
        case OtherSection =>
      }
    }

    /** ParserATSC::Worker over the elements popped while the thread runs. */
    method Worker(stored: Option<seq<uint32>>, items: seq<Option<QueueElement>>, decode: Segment -> string)
      requires QueueReadable(Initialised(State(), stored), items, decode)
      modifies this, freqHandler
      ensures State() == ParseQueue(Initialised(old(State()), stored), items, decode)
    {
      if !clientInitialised {
        clientInitialised := true;
        ConfigureParser(stored);
      }
      var i := 0;
      while i < |items|
        invariant 0 <= i <= |items|
        invariant QueueReadable(State(), items[i..], decode)
        invariant ParseQueue(State(), items[i..], decode) == ParseQueue(Initialised(old(State()), stored), items, decode)
      {
        assert items[i..][0] == items[i] && items[i..][1..] == items[i + 1..];
        var element := items[i];
        if element.Some? {
          var frequency := Envelope.ReadFrequency(element.value.buffer);
          ParseData(element.value.section, frequency, decode);
        }
        i := i + 1;
      }
    }
  }

  /** The for loop of ParseEIT that seeds the pending sections 0..last,
      with a counter wide enough to step past 255. */
  method SeedSections(last: uint8) returns (sections: set<uint8>)
    ensures sections == SectionRange(last)
  {
    sections := {};
    var sectionNumber: nat := 0;
    while sectionNumber <= last as nat
      invariant sectionNumber <= last as nat + 1
      invariant forall n: uint8 :: n in sections <==> n as nat < sectionNumber
      decreases last as nat + 1 - sectionNumber
    {
      sections := sections + {sectionNumber as uint8};
      sectionNumber := sectionNumber + 1;
    }
  }

  /** The seeding loop as written, with a uint8_t counter n that wraps from
      255 to 0; fuel bounds the iterations, and None means it ran out. */
  function SeedLoopAsWritten(n: uint8, last: uint8, sections: set<uint8>, fuel: nat): Option<set<uint8>>
    decreases fuel
  {
    if n > last then Some(sections)
    else if fuel == 0 then None
    else SeedLoopAsWritten(((n as int + 1) % 0x100) as uint8, last, sections + {n}, fuel - 1)
  }

  /** With last_section_number 255 the loop as written never ends: no
      number of iterations brings the counter past 255. */
  lemma {:induction false} SeedLoopNeverEnds(n: uint8, sections: set<uint8>, fuel: nat)
    ensures SeedLoopAsWritten(n, 255, sections, fuel) == None
    decreases fuel
  {
    if fuel > 0 {
      SeedLoopNeverEnds(((n as int + 1) % 0x100) as uint8, sections + {n}, fuel - 1);
    }
  }

  /** Below 255 the loop as written ends after last + 1 - n iterations,
      having added n..last, which is what SeedSections computes. */
  lemma {:induction false} SeedLoopEndsBelow255(n: uint8, last: uint8, sections: set<uint8>, fuel: nat)
    requires last < 255 && n as int <= last as int + 1
    requires fuel >= last as int + 1 - n as int
    ensures var r := SeedLoopAsWritten(n, last, sections, fuel);
      r.Some? && forall k: uint8 :: k in r.value <==> k in sections || n <= k <= last
    decreases last as int + 1 - n as int
  {
    if n <= last {
      SeedLoopEndsBelow255(n + 1, last, sections + {n}, fuel - 1);
    }
  }

  lemma ChannelRecordsSnoc(frequency: uint32, v: Vct, i: nat)
    requires VctReadable(v) && i < |v.sources|
    ensures VctReadable(Vct(v.transportStreamId, v.sources[..i])) && VctReadable(Vct(v.transportStreamId, v.sources[..i + 1]))
    ensures var src := v.sources[i];
      ChannelRecords(frequency, v.transportStreamId, v.sources[..i + 1])
      == ChannelRecords(frequency, v.transportStreamId, v.sources[..i])
        + (if src.programNumber != 0 then [ChannelRecordOf(frequency, v.transportStreamId, src)] else [])
  {
    assert v.sources[..i + 1][..i] == v.sources[..i];
  }

  lemma SourceIdsSnoc(sources: seq<VctSource>, i: nat)
    requires i < |sources|
    ensures SourceIds(sources[..i + 1]) == SourceIds(sources[..i]) + {sources[i].sourceId}
  {
    var a := sources[..i + 1];
    var b := sources[..i];
    forall x ensures x in SourceIds(a) <==> x in SourceIds(b) + {sources[i].sourceId} {
      if x in SourceIds(a) {
        var j :| 0 <= j < |a| && a[j].sourceId == x;
        if j < i { assert b[j] == a[j]; }
      }
      if x in SourceIds(b) {
        var j :| 0 <= j < |b| && b[j].sourceId == x;
        assert a[j] == b[j];
      }
      if x == sources[i].sourceId {
        assert a[i] == sources[i];
      }
    }
  }
}
