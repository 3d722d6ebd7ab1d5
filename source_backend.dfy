/** SourceBackend as a class: the fields of the C++ class, the shared PSI
    table as one store object that every backend holds, and each operation
    proved to move the state the way the function of the same name in
    SourceState does. A GStreamer main loop is not run: what the bus
    handler captures while it would run is given as an argument. */
module Backend {
  import opened Common
  import opened TvCommon
  import opened PsiTable
  import opened SourceState
  import Envelope

  // -------------------------------------------------------------------
  // The bus of the filtering pipeline
  // -------------------------------------------------------------------

  /** The section types OnBusMessage hands on as they are; PAT and PMT
      sections are decoded into the table instead. */
  type TableType = t: BusSectionType | t != PatType && t != PmtType witness MgtType

  /** A section as the foreign decoders deliver it: the programs of a PAT,
      the subtable extension (program number) and streams of a PMT, or
      another table with its length, whether it carries data, and the
      bytes that end up after the envelope header. */
  datatype CapturedSection =
    | CapturedPat(programs: seq<PatProgram>)
    | CapturedPmt(programNumber: uint16, streams: seq<PmtStream>)
    | CapturedTable(t: TableType, sectionLength: uint16, hasData: bool, body: seq<uint8>)

  /** A bus message; an element message that is not an MPEG-TS section
      carries None. */
  datatype BusMessage =
    | ErrorMessage
    | EndOfStream
    | ElementMessage(section: Option<CapturedSection>)
    | OtherMessage

  /** The part of GstFilteringData the bus handler reads: the frequency and
      the section type of the session. */
  datatype FilteringData = FilteringData(frequency: uint32, section: SectionKind)

  /** The static AtscPSI of SourceBackend: one table shared by every
      backend. */
  class PsiStore {
    var data: AtscPSI

    constructor ()
      ensures data == map[]
    {
      data := map[];
    }

    /** The start of a scan empties a table that is not already empty. */
    method Clear()
      modifies this
      ensures data == map[]
    {
      if |data| > 0 {
        data := map[];
      }
    }

    /** The PAT case of OnBusMessage: a fresh table holding one record per
        program with only its PMT pid replaces the frequency's table. */
    method HandlePat(frequency: uint32, programs: seq<PatProgram>)
      modifies this
      ensures data == OnPat(old(data), frequency, programs)
    {
      var pmt: AtscPmt := map[];
      var i := 0;
      while i < |programs|
        invariant 0 <= i <= |programs|
        invariant pmt == PatTable(programs[..i])
      {
        var stream := NewAtscStream().(pmtPid := programs[i].pid);
        pmt := pmt[programs[i].programNumber := stream];
        assert programs[..i + 1][..i] == programs[..i];
        i := i + 1;
      }
      assert programs[..|programs|] == programs;
      data := data[frequency := pmt];
    }

    /** The PAT pass of one frequency on the table: the PAT, if one
        arrives, and then the frequency's entry, created empty when there
        is none. */
    method PatPhase(frequency: uint32, pat: Option<seq<PatProgram>>)
      modifies this
      ensures data == SourceState.PatPhase(old(data), frequency, pat)
    {
      // the main loop runs until the PAT arrives or the tuning times out
      if pat.Some? {
        HandlePat(frequency, pat.value);
      }
      // _psiData[frequency] creates the entry when there is none
      if frequency !in data {
        data := data[frequency := map[]];
      }
    }

    /** The PMT case of OnBusMessage: its streams in order. */
    method HandlePmt(frequency: uint32, programNumber: uint16, streams: seq<PmtStream>)
      modifies this
      ensures data == OnPmt(old(data), frequency, programNumber, streams)
    {
      var i := 0;
      while i < |streams|
        invariant 0 <= i <= |streams|
        invariant data == OnPmt(old(data), frequency, programNumber, streams[..i])
      {
        assert streams[..i + 1][..i] == streams[..i];
        HandlePmtStream(frequency, programNumber, streams[i]);
        i := i + 1;
      }
      assert streams[..|streams|] == streams;
    }

    /** One elementary stream of a PMT: the video pid of a type 0x02
        stream, the walk over the ISO 639 languages of its descriptors, and
        the audio pid of a type 0x81 stream. */
    method HandlePmtStream(frequency: uint32, programNumber: uint16, st: PmtStream)
      modifies this
      ensures data == PmtStreamStep(old(data), frequency, programNumber, st)
    {
      if st.streamType == STREAM_TYPE_VIDEO {
        data := SetVideo(data, frequency, programNumber, st.pid);
      }
      ghost var afterVideo := data;
      var audioLan := "";
      var j := 0;
      while j < |st.descriptors|
        invariant 0 <= j <= |st.descriptors|
        invariant audioLan == LastLanguage(StreamLanguages(st.descriptors[..j]))
        invariant data == EngAudio(afterVideo, frequency, programNumber, st, StreamLanguages(st.descriptors[..j]))
      {
        ghost var seen := StreamLanguages(st.descriptors[..j]);
        var desc := st.descriptors[j];
        StreamLanguagesSnoc(st.descriptors, j);
        if desc.Some? && desc.value.tag == ISO_639_LANGUAGE_TAG && desc.value.languages.Some? {
          audioLan := LanguageWalk(frequency, programNumber, st, afterVideo, seen, desc.value.languages.value, audioLan);
        } else {
          assert seen + DescriptorLanguages(desc) == seen;
        }
        j := j + 1;
      }
      assert st.descriptors[..|st.descriptors|] == st.descriptors;
      if st.streamType == STREAM_TYPE_AUDIO && (|audioLan| == 0 || StreamAt(data, frequency, programNumber).audioPid == 0) {
        data := SetAudio(data, frequency, programNumber, st.pid);
      }
    }

    /** The walk over the languages of one ISO 639 language descriptor. */
    method LanguageWalk(frequency: uint32, programNumber: uint16, st: PmtStream, ghost afterVideo: AtscPSI,
                        ghost seen: seq<string>, languages: seq<string>, audioLan0: string) returns (audioLan: string)
      requires audioLan0 == LastLanguage(seen)
      requires data == EngAudio(afterVideo, frequency, programNumber, st, seen)
      modifies this
      ensures audioLan == LastLanguage(seen + languages)
      ensures data == EngAudio(afterVideo, frequency, programNumber, st, seen + languages)
    {
      audioLan := audioLan0;
      var k := 0;
      assert seen + languages[..0] == seen;
      while k < |languages|
        invariant 0 <= k <= |languages|
        invariant audioLan == LastLanguage(seen + languages[..k])
        invariant data == EngAudio(afterVideo, frequency, programNumber, st, seen + languages[..k])
      {
        audioLan := "";
        audioLan := languages[k];
        EngAudioStep(afterVideo, frequency, programNumber, st, seen + languages[..k], languages[k]);
        if st.streamType == STREAM_TYPE_AUDIO && audioLan == "eng" {
          data := SetAudio(data, frequency, programNumber, st.pid);
        }
        assert seen + languages[..k + 1] == (seen + languages[..k]) + [languages[k]];
        k := k + 1;
      }
      assert languages[..|languages|] == languages;
    }

    /** OnBusMessage. The main loop of the session is quit on an error, at
        the end of the stream, after a PAT the session filters for, and
        after any PMT; MGT, STT, TVCT and EIT sections with data are handed
        to the section handler in the envelope. */
    method OnBusMessage(filter: FilteringData, message: BusMessage) returns (quit: bool, forwarded: Option<seq<uint8>>)
      requires message.ElementMessage? && message.section.Some? && message.section.value.CapturedTable?
        ==> |message.section.value.body| == Envelope.BUFFER_SIZE - Envelope.DATA_OFFSET
      modifies this
      ensures quit <==> (message.ErrorMessage? || message.EndOfStream?
        || (message.ElementMessage? && message.section.Some?
            && ((message.section.value.CapturedPat? && filter.section == PatSection) || message.section.value.CapturedPmt?)))
      ensures data == if message.ElementMessage? && message.section.Some? then
          match message.section.value
          case CapturedPat(programs) => if filter.section == PatSection then OnPat(old(data), filter.frequency, programs) else old(data)
          case CapturedPmt(programNumber, streams) => OnPmt(old(data), filter.frequency, programNumber, streams)
          case CapturedTable(_, _, _, _) => old(data)
        else old(data)
      ensures forwarded == if message.ElementMessage? && message.section.Some? && message.section.value.CapturedTable? then
          var c := message.section.value;
          ForwardedSection(c.t, filter.frequency, c.sectionLength, c.hasData, c.body)
        else None
    {
      quit, forwarded := false, None;
      match message
      case ErrorMessage => quit := true;
      case EndOfStream => quit := true;
      case ElementMessage(section) =>
        if section.Some? {
          match section.value
          case CapturedPat(programs) =>
            if filter.section == PatSection {
              HandlePat(filter.frequency, programs);
              quit := true;
            }
          case CapturedPmt(programNumber, streams) =>
            HandlePmt(filter.frequency, programNumber, streams);
            quit := true;
          case CapturedTable(t, sectionLength, hasData, body) =>
            if t == MgtType || t == SttType || t == TvctType || t == EitType {
              if hasData {
                forwarded := Some(Envelope.WriteEnvelope(filter.frequency, sectionLength, body));
              }
            }
        }
      case OtherMessage =>
    }
  }

  /** The table while the languages seen so far are walked: the audio pid
      is set once an "eng" tag of an audio stream has been met. */
  ghost function EngAudio(afterVideo: AtscPSI, frequency: uint32, programNumber: uint16, st: PmtStream, seen: seq<string>): AtscPSI
  {
    if st.streamType == STREAM_TYPE_AUDIO && "eng" in seen then SetAudio(afterVideo, frequency, programNumber, st.pid)
    else afterVideo
  }

  /** One more language visited: "eng" on an audio stream sets the audio
      pid, which setting it again leaves as it is. */
  lemma EngAudioStep(afterVideo: AtscPSI, frequency: uint32, programNumber: uint16, st: PmtStream, seen: seq<string>, language: string)
    ensures EngAudio(afterVideo, frequency, programNumber, st, seen + [language])
      == if st.streamType == STREAM_TYPE_AUDIO && language == "eng"
         then SetAudio(EngAudio(afterVideo, frequency, programNumber, st, seen), frequency, programNumber, st.pid)
         else EngAudio(afterVideo, frequency, programNumber, st, seen)
  {
    assert "eng" in seen + [language] <==> "eng" in seen || language == "eng";
    SetAudioTwice(afterVideo, frequency, programNumber, st.pid);
  }

  lemma StreamLanguagesSnoc(descriptors: seq<Option<PmtDescriptor>>, j: nat)
    requires j < |descriptors|
    ensures StreamLanguages(descriptors[..j + 1]) == StreamLanguages(descriptors[..j]) + DescriptorLanguages(descriptors[j])
  {
    assert descriptors[..j + 1][..j] == descriptors[..j];
  }

  // -------------------------------------------------------------------
  // The backend
  // -------------------------------------------------------------------

  class SourceBackend {
    var isScanStopped: bool
    var isScanInProgress: bool
    var channelNo: uint64
    var frequencyList: seq<uint32>
    var defaultFrequencies: seq<uint32>
    var currentTunedFrequency: uint32
    var tunerCount: uint32
    var playbackInProgress: bool
    var pidSet: set<uint16>
    var isTunerUsed: bool
    var sectionHandler: Option<nat>
    var playbackInitialized: bool
    var filtering: bool
    var channelChangeState: TvmRc
    var sessions: seq<Session>
    var notices: seq<Notice>
    const psi: PsiStore

    function State(): BackendState
      reads this
    {
      BackendState(isScanStopped, isScanInProgress, channelNo, frequencyList, defaultFrequencies,
        currentTunedFrequency, tunerCount, playbackInProgress, pidSet, isTunerUsed, sectionHandler,
        playbackInitialized, filtering, channelChangeState, sessions, notices)
    }

    /** defaultFrequencies: the frequency list of the tuner data. */
    constructor (defaultFrequencies: seq<uint32>, psi: PsiStore)
      ensures State() == Initial(defaultFrequencies) && this.psi == psi
    {
      isScanStopped := false;
      isScanInProgress := false;
      channelNo := 0;
      frequencyList := [];
      this.defaultFrequencies := defaultFrequencies;
      currentTunedFrequency := 0;
      tunerCount := 0;
      playbackInProgress := false;
      pidSet := {};
      isTunerUsed := false;
      sectionHandler := None;
      playbackInitialized := false;
      filtering := false;
      channelChangeState := TvmError;
      sessions := [];
      notices := [];
      this.psi := psi;
    }

    /** The destructor: the shared table is emptied for every backend. */
    method Release()
      modifies this, psi
      ensures psi.data == map[]
      ensures State() == old(State()).(isScanInProgress := false)
    {
      isScanInProgress := false;
      psi.data := map[];
    }

    method UpdateTunerCount(count: uint32)
      modifies this
      ensures State() == old(State()).(tunerCount := count)
    {
      tunerCount := count;
    }

    method IsScanning() returns (scanning: bool)
      ensures scanning == isScanInProgress
    {
      return isScanInProgress;
    }

    method GetFrequencyList() returns (list: seq<uint32>)
      ensures list == frequencyList
    {
      return frequencyList;
    }

    // Section filters

    /** StartFiltering: a session on the frequency over the pid string. */
    method StartFiltering(frequency: uint32, pids: string, kind: SectionKind) returns (ok: bool)
      modifies this
      ensures ok
      ensures State() == old(State()).(sessions := old(sessions) + [Filtering(frequency, pids, kind)])
    {
      sessions := sessions + [Filtering(frequency, pids, kind)];
      return true;
    }

    /** The pid string of SectionFilterThread: each filter pid in ascending
        order, followed by ':'. */
    method FilterPids() returns (pids: string)
      ensures pids == FilterPidString(pidSet)
      ensures ReadTerminated(pids, ':') == PidList(pidSet)
    {
      var list := AscendingOf(pidSet);
      ghost var ordered := PidList(pidSet);
      pids := "";
      var i := 0;
      while i < |list|
        invariant 0 <= i <= |list| == |ordered|
        invariant pids == Terminated(ordered[..i], ':')
      {
        var pid: nat := ordered[i];
        assert list[i] == pid;
        pids := pids + Decimal(list[i]) + ":";
        TerminatedSnoc(ordered[..i], pid, ':');
        assert ordered[..i + 1] == ordered[..i] + [pid];
        i := i + 1;
      }
      assert ordered[..|list|] == ordered;
      FilterPidStringSpec(pidSet);
    }

    /** SectionFilterThread up to the point where its main loop runs. */
    method SectionFilterThread()
      modifies this
      ensures State() == LaunchSectionFilter(old(State()))
    {
      var pids := FilterPids();
      var ok := StartFiltering(currentTunedFrequency, pids, UnknownSection);
      filtering := true;
    }

    /** handler: the section handler passed in. A pid already present is
        refused; otherwise the result is whatever is left when control
        falls off the end. */
    method StartFilter(pid: uint16, handler: nat) returns (rc: RcOut)
      modifies this
      ensures State() == SourceState.StartFilter(old(State()), pid, handler)
      ensures rc == if pid in old(pidSet) then Returned(TvmError) else FellOffEnd
    {
      if pid in pidSet {
        return Returned(TvmError);
      }
      pidSet := pidSet + {pid};
      if sectionHandler.None? {
        sectionHandler := Some(handler);
      }
      if filtering {
        // the running session is quit and its end awaited
        filtering := false;
      }
      if !isScanInProgress && !playbackInProgress && !(tunerCount == 1 && isTunerUsed) {
        SectionFilterThread();
      }
      rc := FellOffEnd;
    }

    /** StopFilter erases find(pid), so the pid must be present. */
    method StopFilter(pid: uint16) returns (rc: RcOut)
      requires pid in pidSet
      modifies this
      ensures State() == SourceState.StopFilter(old(State()), pid)
      ensures rc == FellOffEnd
    {
      pidSet := pidSet - {pid};
      if filtering {
        filtering := false;
      }
      if !isScanInProgress && !playbackInProgress && !(tunerCount == 1 && isTunerUsed) {
        SectionFilterThread();
      }
      rc := FellOffEnd;
    }

    method StopFilters() returns (rc: RcOut)
      modifies this
      ensures State() == SourceState.StopFilters(old(State()))
      ensures rc == FellOffEnd
    {
      pidSet := {};
      if filtering {
        filtering := false;
      }
      rc := FellOffEnd;
    }

    method SetHomeTS(frequency: uint32) returns (rc: TvmRc)
      modifies this
      ensures State() == SourceState.SetHomeTS(old(State()), frequency)
      ensures rc == TvmSuccess
    {
      if frequency != currentTunedFrequency {
        var stopped := StopFilters();
      }
      currentTunedFrequency := frequency;
      return TvmSuccess;
    }

    method PauseFiltering() returns (paused: bool)
      modifies this
      ensures State() == SourceState.PauseFiltering(old(State()))
      ensures paused <==> old(pidSet) != {}
    {
      if |pidSet| == 0 {
        return false;
      }
      isTunerUsed := true;
      if filtering {
        filtering := false;
      }
      return true;
    }

    method ResumeFiltering()
      modifies this
      ensures State() == SourceState.ResumeFiltering(old(State()))
    {
      if |pidSet| == 0 {
        return;
      }
      if currentTunedFrequency != 0 && !playbackInProgress {
        var rc := SetHomeTS(currentTunedFrequency);
      }
      isTunerUsed := false;
      SectionFilterThread();
    }

    // Playback and tuning

    method StopPlayBack() returns (stopped: bool)
      modifies this
      ensures State() == SourceState.StopPlayBack(old(State()))
      ensures stopped == old(playbackInitialized)
    {
      if !playbackInitialized {
        return false;
      }
      playbackInProgress := false;
      return true;
    }

    /** The pid string of a playback session. */
    method PlaybackPids(pmtPid: uint16, videoPid: uint16, audioPid: uint16) returns (pids: string)
      ensures pids == PlaybackPidString(pmtPid, videoPid, audioPid, tunerCount, pidSet)
    {
      pids := Decimal(pmtPid) + ":" + Decimal(videoPid) + ":" + Decimal(audioPid);
      StreamPidsSeparated(pmtPid, videoPid, audioPid);
      if tunerCount == 1 {
        pids := AppendFilterPids(pids, pidSet);
      }
    }

    /** StartPlayBack up to the point where the playback loop runs.
        initialises: whether PlayBackInitialization succeeds. */
    method StartPlayBack(frequency: uint32, pmtPid: uint16, videoPid: uint16, audioPid: uint16, initialises: bool) returns (started: bool)
      modifies this
      ensures State() == SourceState.StartPlayBack(old(State()), frequency, pmtPid, videoPid, audioPid, initialises)
      ensures started <==> (old(playbackInitialized) || initialises) && (pmtPid != 0 || videoPid != 0 || audioPid != 0)
    {
      ghost var s0 := State();
      if !playbackInitialized {
        playbackInitialized := initialises;
        if !playbackInitialized {
          return false;
        }
      }
      if pmtPid == 0 && videoPid == 0 && audioPid == 0 {
        return false;
      }
      assert State() == if !s0.playbackInitialized then s0.(playbackInitialized := initialises) else s0;
      var pids := PlaybackPids(pmtPid, videoPid, audioPid);
      PlaybackStarted(frequency, pids);
      return true;
    }

    method PlaybackStarted(frequency: uint32, pids: string)
      modifies this
      ensures State() == SourceState.PlaybackStarted(old(State()), frequency, pids)
    {
      sessions := sessions + [Playback(frequency, pids)];
      FollowStreamingFrequency(frequency);
      channelChangeState := TvmSuccess;
      playbackInProgress := true;
    }

    method FollowStreamingFrequency(frequency: uint32)
      modifies this
      ensures State() == SourceState.FollowStreamingFrequency(old(State()), frequency)
    {
      if tunerCount == 1 {
        if currentTunedFrequency != frequency {
          currentTunedFrequency := frequency;
          var rc := StopFilters();
          notices := notices + [StreamingFrequencyChanged(currentTunedFrequency)];
        }
      }
    }

    /** GetStreamInfo: the stream is copied out only when both keys are
        present, and is otherwise left as it was. */
    method GetStreamInfo(frequency: uint32, programNumber: uint16, stream: AtscStream) returns (found: bool, result: AtscStream)
      ensures found <==> frequency in psi.data && programNumber in psi.data[frequency]
      ensures found ==> result == psi.data[frequency][programNumber]
      ensures !found ==> result == stream
    {
      found, result := false, stream;
      if frequency in psi.data {
        var pmt := psi.data[frequency];
        if programNumber in pmt {
          var stored := pmt[programNumber];
          result := result.(pmtPid := stored.pmtPid, videoPid := stored.videoPid, audioPid := stored.audioPid);
          found := true;
        }
      }
    }

    method SetCurrentChannelThread(frequency: uint32, programNumber: uint16, initialises: bool)
      modifies this
      ensures State() == match StreamInfo(psi.data, frequency, programNumber)
        case None => old(State())
        case Some(st) => SourceState.StartPlayBack(old(State()), frequency, st.pmtPid, st.videoPid, st.audioPid, initialises)
    {
      var found, stream := GetStreamInfo(frequency, programNumber, NewAtscStream());
      if found {
        var started := StartPlayBack(frequency, stream.pmtPid, stream.videoPid, stream.audioPid, initialises);
      }
    }

    /** SetCurrentChannel with the worker thread run to completion; the
        modulation is not used. For another program the caller waits until
        the worker notifies, which only a successful StartPlayBack does:
        None is a caller that stays blocked. */
    method SetCurrentChannel(frequency: uint32, programNumber: uint16, modulation: uint16, initialises: bool) returns (rc: Option<TvmRc>)
      modifies this
      ensures State() == SourceState.SetCurrentChannel(old(State()), psi.data, frequency, programNumber, initialises)
      ensures rc == SourceState.ChannelChangeResult(old(State()), psi.data, frequency, programNumber, initialises)
    {
      channelChangeState := TvmError;
      rc := Some(channelChangeState);
      if channelNo != programNumber as int {
        channelNo := programNumber as uint64;
        var paused := PauseFiltering();
        if playbackInProgress {
          var stopped := StopPlayBack();
        }
        SetCurrentChannelThread(frequency, programNumber, initialises);
        // the worker sets TvmSuccess right before it notifies, and nothing
        // else notifies
        rc := if channelChangeState == TvmSuccess then Some(channelChangeState) else None;
      }
    }

    method Tune(frequency: uint32, programNumber: uint16, modulation: uint16, initialises: bool) returns (rc: Option<TvmRc>)
      modifies this
      ensures State() == SourceState.SetCurrentChannel(old(State()), psi.data, frequency, programNumber, initialises)
      ensures rc == SourceState.ChannelChangeResult(old(State()), psi.data, frequency, programNumber, initialises)
    {
      rc := SetCurrentChannel(frequency, programNumber, modulation, initialises);
    }

    // Table reads

    /** GetChannelMap: the channels are appended to the caller's list. */
    method GetChannelMap(chanMap: seq<ChannelDetails>) returns (rc: TvmRc, result: seq<ChannelDetails>)
      ensures rc == TvmSuccess
      ensures result == chanMap + ChannelMapOf(psi.data)
    {
      var table := psi.data;
      var frequencies := AscendingOf(table.Keys);
      FrequenciesInTable(table);
      result := chanMap;
      var i := 0;
      while i < |frequencies|
        invariant 0 <= i <= |frequencies|
        invariant result + Channels(PsiEntries(table, frequencies[i..])) == chanMap + ChannelMapOf(table)
      {
        var frequency := frequencies[i] as uint32;
        ghost var before := result;
        result := AppendChannels(frequency, table[frequency], result);
        ChannelMapStep(table, frequencies, i);
        Associative(before, Channels(PmtEntriesOf(frequency, table[frequency])), Channels(PsiEntries(table, frequencies[i + 1..])));
        i := i + 1;
      }
      assert frequencies[|frequencies|..] == [];
      return TvmSuccess, result;
    }

    /** The inner loop of GetChannelMap over one program table. */
    static method AppendChannels(frequency: uint32, pmt: AtscPmt, chanMap: seq<ChannelDetails>) returns (result: seq<ChannelDetails>)
      ensures result == chanMap + Channels(PmtEntriesOf(frequency, pmt))
    {
      var programs := AscendingOf(pmt.Keys);
      ProgramsInTable(pmt);
      result := chanMap;
      var j := 0;
      while j < |programs|
        invariant 0 <= j <= |programs|
        invariant result + Channels(PmtEntries(frequency, pmt, programs[j..])) == chanMap + Channels(PmtEntries(frequency, pmt, programs))
      {
        var programNumber := programs[j] as uint16;
        var stream := pmt[programNumber];
        var channelType := if stream.videoPid != 0 then Normal else if stream.audioPid != 0 then Radio else Data;
        var chan := ChannelDetails(frequency, programNumber, channelType);
        ChannelStep(frequency, pmt, programs, j);
        assert chan == ChannelOf(Entry(frequency, programNumber, stream));
        ghost var head := if chan.channelType != Data then [chan] else [];
        ghost var rest := Channels(PmtEntries(frequency, pmt, programs[j + 1..]));
        ghost var before := result;
        assert before + Channels(PmtEntries(frequency, pmt, programs[j..])) == before + (head + rest);
        if chan.channelType != Data {
          result := result + [chan];
          Associative(before, [chan], rest);
        }
        j := j + 1;
      }
      assert programs[|programs|..] == [];
    }

    /** GetTSInfo: the records with an audio or a video pid are appended to
        the caller's list. */
    method GetTSInfo(tsInfoList: seq<TSInfo>) returns (rc: TvmRc, result: seq<TSInfo>)
      ensures rc == TvmSuccess
      ensures result == tsInfoList + TSInfoListOf(psi.data)
    {
      var table := psi.data;
      var frequencies := AscendingOf(table.Keys);
      FrequenciesInTable(table);
      result := tsInfoList;
      var i := 0;
      while i < |frequencies|
        invariant 0 <= i <= |frequencies|
        invariant result + TSInfos(PsiEntries(table, frequencies[i..])) == tsInfoList + TSInfoListOf(table)
      {
        var frequency := frequencies[i] as uint32;
        ghost var before := result;
        result := AppendTSInfos(frequency, table[frequency], result);
        TSInfoListStep(table, frequencies, i);
        Associative(before, TSInfos(PmtEntriesOf(frequency, table[frequency])), TSInfos(PsiEntries(table, frequencies[i + 1..])));
        i := i + 1;
      }
      assert frequencies[|frequencies|..] == [];
      return TvmSuccess, result;
    }

    /** The inner loop of GetTSInfo over one program table. */
    static method AppendTSInfos(frequency: uint32, pmt: AtscPmt, tsInfoList: seq<TSInfo>) returns (result: seq<TSInfo>)
      ensures result == tsInfoList + TSInfos(PmtEntriesOf(frequency, pmt))
    {
      var programs := AscendingOf(pmt.Keys);
      ProgramsInTable(pmt);
      result := tsInfoList;
      var j := 0;
      while j < |programs|
        invariant 0 <= j <= |programs|
        invariant result + TSInfos(PmtEntries(frequency, pmt, programs[j..])) == tsInfoList + TSInfos(PmtEntries(frequency, pmt, programs))
      {
        var programNumber := programs[j] as uint16;
        var stream := pmt[programNumber];
        var tsInfo := TSInfo(frequency, programNumber, stream.audioPid, stream.videoPid, stream.pmtPid);
        TSInfoStep(frequency, pmt, programs, j);
        ghost var head := if tsInfo.audioPid != 0 || tsInfo.videoPid != 0 then [tsInfo] else [];
        ghost var rest := TSInfos(PmtEntries(frequency, pmt, programs[j + 1..]));
        ghost var before := result;
        assert before + TSInfos(PmtEntries(frequency, pmt, programs[j..])) == before + (head + rest);
        if tsInfo.audioPid != 0 || tsInfo.videoPid != 0 {
          result := result + [tsInfo];
          Associative(before, [tsInfo], rest);
        }
        j := j + 1;
      }
      assert programs[|programs|..] == [];
    }

    // Scanning

    method StopScanning() returns (rc: TvmRc)
      modifies this
      ensures State() == old(State()).(isScanStopped := true)
      ensures rc == TvmSuccess
    {
      isScanStopped := true;
      return TvmSuccess;
    }

    /** StartScanning with the scanning thread run to completion. */
    method StartScanning(freqList: seq<uint32>, outcomes: seq<FrequencyOutcome>) returns (rc: TvmRc)
      requires |outcomes| == |ScanList(State(), freqList)|
      modifies this, psi
      ensures (State(), psi.data) == SourceState.ScanningThread(old(State()), freqList, outcomes)
      ensures rc == TvmSuccess
    {
      ScanningThread(freqList, outcomes);
      return TvmSuccess;
    }

    /** ScanningThread. outcomes: what each frequency of the list meets. */
    method ScanningThread(freqList: seq<uint32>, outcomes: seq<FrequencyOutcome>)
      requires |outcomes| == |ScanList(State(), freqList)|
      modifies this, psi
      ensures (State(), psi.data) == SourceState.ScanningThread(old(State()), freqList, outcomes)
    {
      var frequencies := if |freqList| > 0 then freqList else defaultFrequencies;
      BeginScan();
      ScanAll(frequencies, outcomes);
      EndScan();
    }

    /** The scanning thread before its first frequency. */
    method BeginScan()
      modifies this, psi
      ensures State() == ScanPrologue(old(State()))
      ensures psi.data == map[]
    {
      isScanInProgress := true;
      psi.Clear();
      ghost var s1 := State();
      var paused := PauseFiltering();
      assert State() == SourceState.PauseFiltering(s1);
      PlaybackYields();
      frequencyList := [];
    }

    /** The playback part of the scanning thread's start. */
    method PlaybackYields()
      modifies this
      ensures State() == SourceState.PlaybackYields(old(State()))
    {
      if playbackInProgress {
        var stopped := StopPlayBack();
        channelNo := 0;
      }
    }

    /** The frequencies of the scan, until the stop flag is seen. */
    method ScanAll(frequencies: seq<uint32>, outcomes: seq<FrequencyOutcome>)
      requires |outcomes| == |frequencies|
      modifies this, psi
      ensures (State(), psi.data) == ScanFrequencies(old(State()), old(psi.data), frequencies, outcomes)
    {
      ghost var goal := ScanFrequencies(State(), psi.data, frequencies, outcomes);
      var i := 0;
      while i < |frequencies|
        invariant 0 <= i <= |frequencies|
        invariant ScanFrequencies(State(), psi.data, frequencies[i..], outcomes[i..]) == goal
      {
        ScanFrequenciesStep(State(), psi.data, frequencies, outcomes, i);
        ScanOne(frequencies[i], outcomes[i]);
        if isScanStopped {
          notices := notices + [ScanningStateChanged(Stopped)];
          return;
        }
        i := i + 1;
      }
    }

    /** The scanning thread after its last frequency. */
    method EndScan()
      modifies this
      ensures State() == ScanEpilogue(old(State()))
    {
      if isScanStopped {
        isScanStopped := false;
      } else {
        notices := notices + [ScanningStateChanged(Completed)];
      }
      isScanInProgress := false;
      ResumeFiltering();
    }

    /** One frequency of the scan: the PAT filter, the frequency's entry,
        the frequency kept when its table is not empty, and the PMT filters
        of its programs. The stop actually requested from another thread
        while the frequency is scanned is o.stopRequested. */
    method ScanOne(frequency: uint32, o: FrequencyOutcome)
      modifies this, psi
      ensures (State(), psi.data) == ScanFrequency(old(State()), old(psi.data), frequency, o)
    {
      ghost var s0, psi0 := State(), psi.data;
      var programs := ScanPat(frequency, o.pat);
      ghost var s1, psi1 := State(), psi.data;
      ScanPmts(frequency, programs, o.pmts);
      ScanFrequencyParts(s0, psi0, frequency, o, psi1, programs);
      if o.stopRequested {
        var rc := StopScanning();
      }
    }

    /** The PAT half of scanning one frequency: the PAT filter, the
        frequency's entry, the frequency kept when its table is not
        empty; the programs of the table in ascending order. */
    method ScanPat(frequency: uint32, pat: Option<seq<PatProgram>>) returns (programs: seq<int>)
      modifies this, psi
      ensures psi.data == PatPhase(old(psi.data), frequency, pat)
      ensures programs == ProgramsOf(psi.data, frequency)
      ensures State() == old(State()).(sessions := old(sessions) + [Filtering(frequency, Decimal(PID_PAT), PatSection)],
                                       frequencyList := old(frequencyList) + (if |psi.data[frequency]| > 0 then [frequency] else []))
    {
      var pids := Decimal(PID_PAT);
      var ok := StartFiltering(frequency, pids, PatSection);
      psi.PatPhase(frequency, pat);
      var table := psi.data[frequency];
      KeepFrequency(frequency, |table| > 0);
      programs := AscendingOf(table.Keys);
    }

    /** The frequency joins the frequency list when its table is not empty. */
    method KeepFrequency(frequency: uint32, nonEmpty: bool)
      modifies this
      ensures State() == old(State()).(frequencyList := old(frequencyList) + (if nonEmpty then [frequency] else []))
    {
      if nonEmpty {
        frequencyList := frequencyList + [frequency];
      }
    }

    /** The PMT pass over the programs of a frequency: a filter on each
        program's PMT pid, and the PMT captured for it, if any. */
    method ScanPmts(frequency: uint32, programs: seq<int>, pmts: map<uint16, seq<PmtStream>>)
      requires frequency in psi.data
      requires forall i :: 0 <= i < |programs| ==> programs[i] in psi.data[frequency]
      modifies this, psi
      ensures State() == old(State()).(sessions := old(sessions) + PmtSessions(old(psi.data), frequency, programs))
      ensures psi.data == PmtTables(old(psi.data), frequency, programs, pmts)
    {
      ghost var start := psi.data;
      PmtPassStart(start, sessions, frequency, programs, pmts);
      var j := 0;
      while j < |programs|
        invariant PmtPassAt(start, psi.data, old(sessions), sessions, frequency, programs, pmts, j)
        invariant State() == old(State()).(sessions := sessions)
      {
        var programNumber := programs[j] as uint16;
        PmtPassStep(start, psi.data, old(sessions), sessions, frequency, programs, pmts, j);
        var streams := if programNumber in pmts then pmts[programNumber] else [];
        ScanPmt(frequency, programNumber, streams);
        j := j + 1;
      }
      PmtPassDone(start, psi.data, old(sessions), sessions, frequency, programs, pmts);
    }

    /** One program of the PMT pass: a filter on its PMT pid, then its PMT. */
    method ScanPmt(frequency: uint32, programNumber: uint16, streams: seq<PmtStream>)
      requires frequency in psi.data && programNumber in psi.data[frequency]
      modifies this, psi
      ensures State() == old(State()).(sessions := old(sessions) + [Filtering(frequency, Decimal(old(psi.data)[frequency][programNumber].pmtPid), PmtSection)])
      ensures psi.data == OnPmt(old(psi.data), frequency, programNumber, streams)
    {
      var pids := Decimal(psi.data[frequency][programNumber].pmtPid);
      var ok := StartFiltering(frequency, pids, PmtSection);
      // the main loop runs until the PMT arrives or the tuning times out
      psi.HandlePmt(frequency, programNumber, streams);
    }
  }

  /** The three stream pids, separated by ':'. */
  lemma StreamPidsSeparated(pmtPid: uint16, videoPid: uint16, audioPid: uint16)
    ensures Decimal(pmtPid) + ":" + Decimal(videoPid) + ":" + Decimal(audioPid)
      == Separated([pmtPid as nat, videoPid as nat, audioPid as nat], ':')
  {
    SeparatedThree(pmtPid as nat, videoPid as nat, audioPid as nat, ':');
  }

  /** The loop of StartPlayBack that appends ":pid" for each filter pid,
      in the set's ascending order. */
  method AppendFilterPids(start: string, pidSet: set<uint16>) returns (pids: string)
    ensures pids == start + Prefixed(PidList(pidSet), ':')
  {
    pids := start;
    var list := AscendingOf(pidSet);
    ghost var ordered := PidList(pidSet);
    var i := 0;
    while i < |list|
      invariant 0 <= i <= |list| == |ordered|
      invariant pids == start + Prefixed(ordered[..i], ':')
    {
      var pid: nat := ordered[i];
      assert list[i] == pid;
      pids := pids + ":" + Decimal(list[i]);
      PrefixedSnoc(ordered[..i], pid, ':');
      assert ordered[..i + 1] == ordered[..i] + [pid];
      i := i + 1;
    }
    assert ordered[..|list|] == ordered;
  }

  /** Two program tables hold the same programs with the same PMT pids. */
  ghost predicate SamePmtPids(a: AtscPmt, b: AtscPmt)
  {
    a.Keys == b.Keys && forall p :: p in a ==> b[p].pmtPid == a[p].pmtPid
  }

  /** The PMT pass after j programs: the sessions opened so far and the
      tables so far lead to those of the whole pass. */
  ghost predicate PmtPassAt(start: AtscPSI, now: AtscPSI, s0: seq<Session>, s: seq<Session>, frequency: uint32,
                            programs: seq<int>, pmts: map<uint16, seq<PmtStream>>, j: int)
  {
    && 0 <= j <= |programs|
    && frequency in start && (forall i :: 0 <= i < |programs| ==> programs[i] in start[frequency])
    && frequency in now && now.Keys == start.Keys && SamePmtPids(start[frequency], now[frequency])
    && s + PmtSessions(start, frequency, programs[j..]) == s0 + PmtSessions(start, frequency, programs)
    && PmtTables(now, frequency, programs[j..], pmts) == PmtTables(start, frequency, programs, pmts)
  }

  lemma PmtPassStart(start: AtscPSI, s0: seq<Session>, frequency: uint32, programs: seq<int>, pmts: map<uint16, seq<PmtStream>>)
    requires frequency in start && forall i :: 0 <= i < |programs| ==> programs[i] in start[frequency]
    ensures PmtPassAt(start, start, s0, s0, frequency, programs, pmts, 0)
  {
    assert programs[0..] == programs;
  }

  lemma PmtPassStep(start: AtscPSI, now: AtscPSI, s0: seq<Session>, s: seq<Session>, frequency: uint32,
                    programs: seq<int>, pmts: map<uint16, seq<PmtStream>>, j: int)
    requires PmtPassAt(start, now, s0, s, frequency, programs, pmts, j) && j < |programs|
    ensures var p := programs[j] as uint16;
      var streams := if p in pmts then pmts[p] else [];
      && frequency in now && p in now[frequency]
      && PmtPassAt(start, OnPmt(now, frequency, p, streams), s0, s + [Filtering(frequency, Decimal(now[frequency][p].pmtPid), PmtSection)],
                   frequency, programs, pmts, j + 1)
  {
    var p := programs[j] as uint16;
    var streams := if p in pmts then pmts[p] else [];
    PmtStep(start, now, frequency, programs, pmts, j);
    OnPmtSamePmtPids(start, now, frequency, p, streams);
  }

  lemma PmtPassDone(start: AtscPSI, now: AtscPSI, s0: seq<Session>, s: seq<Session>, frequency: uint32,
                    programs: seq<int>, pmts: map<uint16, seq<PmtStream>>)
    requires PmtPassAt(start, now, s0, s, frequency, programs, pmts, |programs|)
    ensures s == s0 + PmtSessions(start, frequency, programs)
    ensures now == PmtTables(start, frequency, programs, pmts)
  {
    assert programs[|programs|..] == [];
  }

  lemma OnPmtSamePmtPids(start: AtscPSI, psi: AtscPSI, frequency: uint32, programNumber: uint16, streams: seq<PmtStream>)
    requires frequency in start && frequency in psi && SamePmtPids(start[frequency], psi[frequency])
    requires programNumber in psi[frequency]
    ensures var r := OnPmt(psi, frequency, programNumber, streams);
      frequency in r && r.Keys == psi.Keys && SamePmtPids(start[frequency], r[frequency])
  {
    var r: AtscPSI := OnPmt(psi, frequency, programNumber, streams);
    OnPmtKeepsKeys(psi, frequency, programNumber, streams);
    OnPmtKeepsPmtPid(psi, frequency, programNumber, streams);
    forall p: uint16 | p in start[frequency]
      ensures r[frequency][p].pmtPid == start[frequency][p].pmtPid
    {
      assert StreamAt(r, frequency, p).pmtPid == StreamAt(psi, frequency, p).pmtPid;
    }
  }

  /** ScanFrequency in terms of the table after the PAT and its programs. */
  lemma ScanFrequencyParts(s: BackendState, psi: AtscPSI, frequency: uint32, o: FrequencyOutcome, psi2: AtscPSI, programs: seq<int>)
    requires psi2 == PatPhase(psi, frequency, o.pat) && programs == ProgramsOf(psi2, frequency)
    ensures frequency in psi2 && forall i :: 0 <= i < |programs| ==> programs[i] in psi2[frequency]
    ensures ScanFrequency(s, psi, frequency, o)
      == (s.(sessions := s.sessions + [Filtering(frequency, Decimal(PID_PAT), PatSection)] + PmtSessions(psi2, frequency, programs),
             frequencyList := s.frequencyList + (if |psi2[frequency]| > 0 then [frequency] else []),
             isScanStopped := s.isScanStopped || o.stopRequested),
          PmtTables(psi2, frequency, programs, o.pmts))
  {
  }

  /** One frequency's records come first in the entries of a list of
      frequencies. */
  lemma PsiEntriesStep(psi: AtscPSI, frequencies: seq<int>, i: nat)
    requires i < |frequencies|
    requires forall k :: 0 <= k < |frequencies| ==> frequencies[k] in psi
    ensures var f := frequencies[i] as uint32;
      PsiEntries(psi, frequencies[i..]) == PmtEntriesOf(f, psi[f]) + PsiEntries(psi, frequencies[i + 1..])
  {
    assert frequencies[i..][1..] == frequencies[i + 1..];
  }

  lemma ChannelMapStep(psi: AtscPSI, frequencies: seq<int>, i: nat)
    requires i < |frequencies|
    requires forall k :: 0 <= k < |frequencies| ==> frequencies[k] in psi
    ensures var f := frequencies[i] as uint32;
      Channels(PsiEntries(psi, frequencies[i..])) == Channels(PmtEntriesOf(f, psi[f])) + Channels(PsiEntries(psi, frequencies[i + 1..]))
  {
    var f := frequencies[i] as uint32;
    PsiEntriesStep(psi, frequencies, i);
    ChannelsAppend(PmtEntriesOf(f, psi[f]), PsiEntries(psi, frequencies[i + 1..]));
  }

  lemma TSInfoListStep(psi: AtscPSI, frequencies: seq<int>, i: nat)
    requires i < |frequencies|
    requires forall k :: 0 <= k < |frequencies| ==> frequencies[k] in psi
    ensures var f := frequencies[i] as uint32;
      TSInfos(PsiEntries(psi, frequencies[i..])) == TSInfos(PmtEntriesOf(f, psi[f])) + TSInfos(PsiEntries(psi, frequencies[i + 1..]))
  {
    var f := frequencies[i] as uint32;
    PsiEntriesStep(psi, frequencies, i);
    TSInfosAppend(PmtEntriesOf(f, psi[f]), PsiEntries(psi, frequencies[i + 1..]));
  }

  /** The programs of a table in ascending order are keys of it. */
  lemma ProgramsInTable(pmt: AtscPmt)
    ensures forall k :: 0 <= k < |Ascending(pmt.Keys)| ==> Ascending(pmt.Keys)[k] in pmt
  {
    AscendingSpec(pmt.Keys);
    forall k | 0 <= k < |Ascending(pmt.Keys)| ensures Ascending(pmt.Keys)[k] in pmt {
      assert Ascending(pmt.Keys)[k] in Ascending(pmt.Keys);
    }
  }

  /** The frequencies of a table in ascending order are keys of it, and they order its records. */
  lemma FrequenciesInTable(psi: AtscPSI)
    ensures forall k :: 0 <= k < |Ascending(psi.Keys)| ==> Ascending(psi.Keys)[k] in psi
    ensures AllEntries(psi) == PsiEntries(psi, Ascending(psi.Keys))
  {
    AscendingSpec(psi.Keys);
    forall k | 0 <= k < |Ascending(psi.Keys)| ensures Ascending(psi.Keys)[k] in psi {
      assert Ascending(psi.Keys)[k] in Ascending(psi.Keys);
    }
  }

  lemma Associative<T>(a: seq<T>, b: seq<T>, c: seq<T>)
    ensures (a + b) + c == a + (b + c)
  {
  }

  /** The record of program j comes first in the records from position j. */
  lemma PmtEntriesStep(frequency: uint32, pmt: AtscPmt, programs: seq<int>, j: nat)
    requires j < |programs|
    requires forall k :: 0 <= k < |programs| ==> programs[k] in pmt
    ensures var p := programs[j] as uint16;
      PmtEntries(frequency, pmt, programs[j..]) == [Entry(frequency, p, pmt[p])] + PmtEntries(frequency, pmt, programs[j + 1..])
  {
    assert programs[j..][1..] == programs[j + 1..];
  }

  lemma ChannelStep(frequency: uint32, pmt: AtscPmt, programs: seq<int>, j: nat)
    requires j < |programs|
    requires forall k :: 0 <= k < |programs| ==> programs[k] in pmt
    ensures var p := programs[j] as uint16;
      var e := Entry(frequency, p, pmt[p]);
      Channels(PmtEntries(frequency, pmt, programs[j..]))
        == (if ChannelTypeOf(pmt[p]) != Data then [ChannelOf(e)] else []) + Channels(PmtEntries(frequency, pmt, programs[j + 1..]))
  {
    PmtEntriesStep(frequency, pmt, programs, j);
    var p := programs[j] as uint16;
    var e := Entry(frequency, p, pmt[p]);
    var rest := PmtEntries(frequency, pmt, programs[j + 1..]);
    assert ([e] + rest)[0] == e && ([e] + rest)[1..] == rest;
  }

  lemma TSInfoStep(frequency: uint32, pmt: AtscPmt, programs: seq<int>, j: nat)
    requires j < |programs|
    requires forall k :: 0 <= k < |programs| ==> programs[k] in pmt
    ensures var p := programs[j] as uint16;
      var e := Entry(frequency, p, pmt[p]);
      TSInfos(PmtEntries(frequency, pmt, programs[j..]))
        == (if pmt[p].audioPid != 0 || pmt[p].videoPid != 0 then [TSInfoOf(e)] else []) + TSInfos(PmtEntries(frequency, pmt, programs[j + 1..]))
  {
    PmtEntriesStep(frequency, pmt, programs, j);
    var p := programs[j] as uint16;
    var e := Entry(frequency, p, pmt[p]);
    var rest := PmtEntries(frequency, pmt, programs[j + 1..]);
    assert ([e] + rest)[0] == e && ([e] + rest)[1..] == rest;
  }

  /** The scan of a list from position i is the scan of its i-th frequency
      followed by the check and the rest. */
  lemma ScanFrequenciesStep(s: BackendState, psi: AtscPSI, frequencies: seq<uint32>, outcomes: seq<FrequencyOutcome>, i: nat)
    requires |outcomes| == |frequencies| && i < |frequencies|
    ensures ScanFrequencies(s, psi, frequencies[i..], outcomes[i..])
      == AfterFrequency(ScanFrequency(s, psi, frequencies[i], outcomes[i]), frequencies[i + 1..], outcomes[i + 1..])
  {
    assert frequencies[i..][1..] == frequencies[i + 1..];
    assert outcomes[i..][1..] == outcomes[i + 1..];
  }

  /** The PMT of program j in the pass: its session and its table step,
      read off a table whose PMT pids and keys are those at the start. */
  lemma PmtStep(start: AtscPSI, psi: AtscPSI, frequency: uint32, programs: seq<int>, pmts: map<uint16, seq<PmtStream>>, j: nat)
    requires j < |programs|
    requires frequency in start && frequency in psi
    requires forall i :: 0 <= i < |programs| ==> programs[i] in start[frequency]
    requires SamePmtPids(start[frequency], psi[frequency])
    ensures var p := programs[j] as uint16;
      var q := OnPmt(psi, frequency, p, if p in pmts then pmts[p] else []);
      && PmtSessions(start, frequency, programs[j..])
           == [Filtering(frequency, Decimal(psi[frequency][p].pmtPid), PmtSection)] + PmtSessions(start, frequency, programs[j + 1..])
      && frequency in q && q[frequency].Keys == psi[frequency].Keys
      && PmtTables(psi, frequency, programs[j..], pmts) == PmtTables(q, frequency, programs[j + 1..], pmts)
  {
    var p := programs[j] as uint16;
    assert programs[j..][1..] == programs[j + 1..];
    assert programs[j] in start[frequency];
    OnPmtKeepsKeys(psi, frequency, p, if p in pmts then pmts[p] else []);
  }
}
