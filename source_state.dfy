/** The state of one tuner backend (SourceBackend) as a value, and what
    each of its operations does to it. A GStreamer session is recorded as
    the frequency and pid string it is started with; the main loop of the
    section filter session is the flag `filtering`. Notifications to the
    tuner handler are logged. The shared PSI table is passed beside the
    state. */
module SourceState {
  import opened Common
  import opened TvCommon
  import opened PsiTable
  import Envelope

  datatype TvmRc = TvmSuccess | TvmError

  /** The result of a non-void function: a returned code, or nothing
      defined when control falls off its end. */
  datatype RcOut = Returned(rc: TvmRc) | FellOffEnd

  /** GstMpegtsSectionType as far as the backend filters on it. */
  datatype SectionKind = PatSection | PmtSection | UnknownSection

  datatype Session =
    | Filtering(frequency: uint32, pids: string, kind: SectionKind)
    | Playback(frequency: uint32, pids: string)

  datatype ScanningState = Completed | Stopped

  datatype Notice = ScanningStateChanged(state: ScanningState) | StreamingFrequencyChanged(frequency: uint32)

  datatype BackendState = BackendState(
    isScanStopped: bool,
    isScanInProgress: bool,
    channelNo: uint64,
    frequencyList: seq<uint32>,
    defaultFrequencies: seq<uint32>,
    currentTunedFrequency: uint32,
    tunerCount: uint32,
    playbackInProgress: bool,
    pidSet: set<uint16>,
    isTunerUsed: bool,
    sectionHandler: Option<nat>,
    playbackInitialized: bool,
    filtering: bool,
    channelChangeState: TvmRc,
    sessions: seq<Session>,
    notices: seq<Notice>)

  /** The constructor; the two fields it leaves uninitialised (playback in
      progress, channel number) are taken as false and 0. */
  function Initial(defaultFrequencies: seq<uint32>): (s: BackendState)
    ensures s.pidSet == {} && !s.isScanInProgress && !s.playbackInProgress && s.sessions == []
  {
    BackendState(false, false, 0, [], defaultFrequencies, 0, 0, false, {}, false, None, false, false, TvmError, [], [])
  }

  // -------------------------------------------------------------------
  // Pid strings
  // -------------------------------------------------------------------

  /** The filter pids in the order std::set visits them. */
  ghost function PidList(pids: set<uint16>): (r: seq<nat>)
    ensures StrictlyIncreasing(r) && |r| == |pids|
    ensures forall x: uint16 :: x as nat in r <==> x in pids
    ensures |r| == |Ascending(pids)| && forall i :: 0 <= i < |r| ==> r[i] == Ascending(pids)[i]
  {
    AscendingSpec(pids);
    var a := Ascending(pids);
    forall i | 0 <= i < |a| ensures a[i] >= 0 {
      assert a[i] in a;
    }
    var r := seq(|a|, i requires 0 <= i < |a| => a[i] as nat);
    forall x: uint16 ensures x as nat in r <==> x in pids {
      if x in pids {
        var i :| 0 <= i < |a| && a[i] == x as int;
        assert r[i] == x as nat;
      }
      if x as nat in r {
        var i :| 0 <= i < |r| && r[i] == x as nat;
        assert a[i] in a;
      }
    }
    r
  }

  /** The pid string of the section filter session: every pid in decimal
      followed by ':'. */
  ghost function FilterPidString(pids: set<uint16>): string
  {
    Terminated(PidList(pids), ':')
  }

  /** The filter pid string names each filter pid once, in ascending order,
      and can be read back field by field. */
  lemma FilterPidStringSpec(pids: set<uint16>)
    ensures ReadTerminated(FilterPidString(pids), ':') == PidList(pids)
    ensures StrictlyIncreasing(PidList(pids)) && |PidList(pids)| == |pids|
  {
    TerminatedRoundTrip(PidList(pids), ':');
  }

  /** The pid string of a playback session: pmt, video and audio pid, and on
      a single tuner every filter pid, separated by ':'. */
  ghost function PlaybackPidString(pmtPid: uint16, videoPid: uint16, audioPid: uint16, tunerCount: uint32, pids: set<uint16>): string
  {
    Separated([pmtPid as nat, videoPid as nat, audioPid as nat], ':')
      + (if tunerCount == 1 then Prefixed(PidList(pids), ':') else [])
  }

  /** On a single tuner the playback pid string reads back as the three
      stream pids followed by the filter pids in ascending order; on more
      tuners as the three stream pids alone. */
  lemma PlaybackPidStringSpec(pmtPid: uint16, videoPid: uint16, audioPid: uint16, tunerCount: uint32, pids: set<uint16>)
    ensures ReadTerminated(PlaybackPidString(pmtPid, videoPid, audioPid, tunerCount, pids) + ":", ':')
      == [pmtPid as nat, videoPid as nat, audioPid as nat] + (if tunerCount == 1 then PidList(pids) else [])
  {
    var head: seq<nat> := [pmtPid as nat, videoPid as nat, audioPid as nat];
    var tail := if tunerCount == 1 then PidList(pids) else [];
    SeparatedAppend(head, tail, ':');
    assert PlaybackPidString(pmtPid, videoPid, audioPid, tunerCount, pids) == Separated(head + tail, ':');
    SeparatedRoundTrip(head + tail, ':');
  }

  // -------------------------------------------------------------------
  // Section filters
  // -------------------------------------------------------------------

  /** A new section filter session may start: no scan, no playback, and the
      only tuner not handed over to streaming. */
  predicate LaunchAllowed(s: BackendState)
  {
    !s.isScanInProgress && !s.playbackInProgress && !(s.tunerCount == 1 && s.isTunerUsed)
  }

  /** SectionFilterThread: a filtering session on the tuned frequency over
      the current pid set. */
  ghost function LaunchSectionFilter(s: BackendState): BackendState
  {
    s.(sessions := s.sessions + [Filtering(s.currentTunedFrequency, FilterPidString(s.pidSet), UnknownSection)],
       filtering := true)
  }

  ghost function RelaunchIfAllowed(s: BackendState): BackendState
  {
    if LaunchAllowed(s) then LaunchSectionFilter(s) else s
  }

  ghost function StartFilter(s: BackendState, pid: uint16, handler: nat): BackendState
  {
    if pid in s.pidSet then s
    else
      RelaunchIfAllowed(s.(pidSet := s.pidSet + {pid},
        sectionHandler := if s.sectionHandler.None? then Some(handler) else s.sectionHandler,
        filtering := false))
  }

  ghost function StopFilter(s: BackendState, pid: uint16): BackendState
    requires pid in s.pidSet
  {
    RelaunchIfAllowed(s.(pidSet := s.pidSet - {pid}, filtering := false))
  }

  function StopFilters(s: BackendState): BackendState
  {
    s.(pidSet := {}, filtering := false)
  }

  function SetHomeTS(s: BackendState, frequency: uint32): BackendState
  {
    (if frequency != s.currentTunedFrequency then StopFilters(s) else s).(currentTunedFrequency := frequency)
  }

  function PauseFiltering(s: BackendState): BackendState
  {
    if s.pidSet == {} then s else s.(isTunerUsed := true, filtering := false)
  }

  ghost function ResumeFiltering(s: BackendState): BackendState
  {
    if s.pidSet == {} then s
    else
      var s1 := if s.currentTunedFrequency != 0 && !s.playbackInProgress then SetHomeTS(s, s.currentTunedFrequency) else s;
      LaunchSectionFilter(s1.(isTunerUsed := false))
  }

  /** A pid already filtered is refused and nothing changes; otherwise it
      joins the set, the first section handler given is kept, and a session
      over the new set starts exactly when one may. */
  lemma StartFilterSpec(s: BackendState, pid: uint16, handler: nat)
    ensures var r := StartFilter(s, pid, handler);
      && (pid in s.pidSet ==> r == s)
      && (pid !in s.pidSet ==>
            && r.pidSet == s.pidSet + {pid}
            && r.sectionHandler.Some?
            && (s.sectionHandler.Some? ==> r.sectionHandler == s.sectionHandler)
            && (r.filtering <==> LaunchAllowed(s))
            && (LaunchAllowed(s) ==> r.sessions == s.sessions + [Filtering(s.currentTunedFrequency, FilterPidString(s.pidSet + {pid}), UnknownSection)])
            && (!LaunchAllowed(s) ==> r.sessions == s.sessions))
  {
  }

  /** Stopping one filter removes exactly that pid; stopping all empties
      the set; a new home frequency clears the set only when it differs. */
  lemma StopFilterSpec(s: BackendState, pid: uint16, frequency: uint32)
    requires pid in s.pidSet
    ensures StopFilter(s, pid).pidSet == s.pidSet - {pid}
    ensures StopFilter(s, pid).filtering <==> LaunchAllowed(s)
    ensures StopFilters(s).pidSet == {}
    ensures SetHomeTS(s, frequency).currentTunedFrequency == frequency
    ensures SetHomeTS(s, frequency).pidSet == if frequency != s.currentTunedFrequency then {} else s.pidSet
  {
  }

  /** Pausing with no filter changes nothing; otherwise the tuner is marked
      as used. Resuming keeps the pid set, frees the tuner and restarts the
      session over the same pids. */
  lemma PauseResumeSpec(s: BackendState)
    ensures s.pidSet == {} ==> PauseFiltering(s) == s && ResumeFiltering(s) == s
    ensures s.pidSet != {} ==> PauseFiltering(s).isTunerUsed && PauseFiltering(s).pidSet == s.pidSet
    ensures s.pidSet != {} ==>
      var r := ResumeFiltering(s);
      && r.pidSet == s.pidSet && !r.isTunerUsed && r.filtering
      && r.sessions == s.sessions + [Filtering(s.currentTunedFrequency, FilterPidString(s.pidSet), UnknownSection)]
  {
  }

  // -------------------------------------------------------------------
  // Playback and tuning
  // -------------------------------------------------------------------

  function StopPlayBack(s: BackendState): BackendState
  {
    if !s.playbackInitialized then s else s.(playbackInProgress := false)
  }

  /** StartPlayBack up to the point where the playback loop runs.
      initialises: whether the playback pipeline can be built. */
  ghost function StartPlayBack(s: BackendState, frequency: uint32, pmtPid: uint16, videoPid: uint16, audioPid: uint16, initialises: bool): BackendState
  {
    var s1 := if !s.playbackInitialized then s.(playbackInitialized := initialises) else s;
    if !s1.playbackInitialized then s1
    else if pmtPid == 0 && videoPid == 0 && audioPid == 0 then s1
    else PlaybackStarted(s1, frequency, PlaybackPidString(pmtPid, videoPid, audioPid, s1.tunerCount, s1.pidSet))
  }

  /** The playback session on the given pid string is opened, and the
      channel change completes successfully. */
  function PlaybackStarted(s: BackendState, frequency: uint32, pids: string): BackendState
  {
    var s2 := s.(sessions := s.sessions + [Playback(frequency, pids)]);
    FollowStreamingFrequency(s2, frequency).(channelChangeState := TvmSuccess, playbackInProgress := true)
  }

  /** On a single tuner the filters follow the playback: a new frequency
      stops them all and is reported to the tuner handler. */
  function FollowStreamingFrequency(s: BackendState, frequency: uint32): BackendState
  {
    if s.tunerCount == 1 && s.currentTunedFrequency != frequency then
      StopFilters(s.(currentTunedFrequency := frequency)).(notices := s.notices + [StreamingFrequencyChanged(frequency)])
    else s
  }

  /** SetCurrentChannel, the worker thread run to completion. What the
      caller gets back is ChannelChangeResult. */
  ghost function SetCurrentChannel(s: BackendState, psi: AtscPSI, frequency: uint32, programNumber: uint16, initialises: bool): BackendState
  {
    var s1 := s.(channelChangeState := TvmError);
    if s1.channelNo == programNumber as int then s1
    else
      var s3 := ChannelPrepared(s1, programNumber);
      match StreamInfo(psi, frequency, programNumber)
      case None => s3
      case Some(st) => StartPlayBack(s3, frequency, st.pmtPid, st.videoPid, st.audioPid, initialises)
  }

  /** What SetCurrentChannel does for another program before its worker
      thread runs: the program is recorded, filtering paused and playback
      stopped; the result code and the pipeline are left alone. */
  function ChannelPrepared(s: BackendState, programNumber: uint16): (r: BackendState)
    ensures r.channelNo == programNumber as int && r.channelChangeState == s.channelChangeState
    ensures r.playbackInitialized == s.playbackInitialized
  {
    var s2 := PauseFiltering(s.(channelNo := programNumber as uint64));
    if s2.playbackInProgress then StopPlayBack(s2) else s2
  }

  /** Tuning to the program already selected reports an error and touches
      neither playback nor filters. */
  lemma SameProgramRefused(s: BackendState, psi: AtscPSI, frequency: uint32, programNumber: uint16, initialises: bool)
    requires s.channelNo == programNumber as int
    ensures SetCurrentChannel(s, psi, frequency, programNumber, initialises) == s.(channelChangeState := TvmError)
  {
  }

  /** What the caller of SetCurrentChannel gets back. For the program
      already selected it returns TvmError at once. For another program it
      waits on the channel change condition, which only a successful
      StartPlayBack notifies, right after setting TvmSuccess: the caller
      returns TvmSuccess then, and otherwise stays blocked (None). */
  ghost function ChannelChangeResult(s: BackendState, psi: AtscPSI, frequency: uint32, programNumber: uint16, initialises: bool): Option<TvmRc>
  {
    if s.channelNo == programNumber as int then Some(TvmError)
    else if SetCurrentChannel(s, psi, frequency, programNumber, initialises).channelChangeState == TvmSuccess then Some(TvmSuccess)
    else None
  }

  /** A tune returns TvmError exactly for the program already selected. It
      returns TvmSuccess exactly when it selects another program that the
      PSI table holds with some non-zero pid and the playback pipeline is or
      can be built; playback then runs over the stored pids. In every other
      case the caller never returns. */
  lemma TuneSucceeds(s: BackendState, psi: AtscPSI, frequency: uint32, programNumber: uint16, initialises: bool)
    ensures var r := SetCurrentChannel(s, psi, frequency, programNumber, initialises);
      var rc := ChannelChangeResult(s, psi, frequency, programNumber, initialises);
      var info := StreamInfo(psi, frequency, programNumber);
      var plays := && info.Some?
                   && (info.value.pmtPid != 0 || info.value.videoPid != 0 || info.value.audioPid != 0)
                   && (s.playbackInitialized || initialises);
      && (rc.Some? <==> s.channelNo == programNumber as int || plays)
      && (rc == Some(TvmError) <==> s.channelNo == programNumber as int)
      && (rc == Some(TvmSuccess) <==> s.channelNo != programNumber as int && plays)
      && (rc.None? <==> s.channelNo != programNumber as int && !plays)
      && (rc == Some(TvmSuccess) ==>
            && r.channelChangeState == TvmSuccess
            && r.playbackInProgress
            && r.channelNo == programNumber as int
            && |r.sessions| > 0
            && r.sessions[|r.sessions| - 1].Playback?
            && r.sessions[|r.sessions| - 1].frequency == frequency)
  {
    var s1 := s.(channelChangeState := TvmError);
    if s1.channelNo != programNumber as int {
      var s3 := ChannelPrepared(s1, programNumber);
      var info := StreamInfo(psi, frequency, programNumber);
      if info.Some? {
        var st := info.value;
        StartPlayBackSpec(s3, frequency, st.pmtPid, st.videoPid, st.audioPid, initialises);
      }
    }
  }

  /** Playback starts, and reports success, exactly when the pipeline is or
      can be built and some pid is non-zero; it changes no channel number. */
  lemma StartPlayBackSpec(s: BackendState, frequency: uint32, pmtPid: uint16, videoPid: uint16, audioPid: uint16, initialises: bool)
    requires s.channelChangeState == TvmError
    ensures var r := StartPlayBack(s, frequency, pmtPid, videoPid, audioPid, initialises);
      && r.channelNo == s.channelNo
      && (r.channelChangeState == TvmSuccess <==>
            (s.playbackInitialized || initialises) && (pmtPid != 0 || videoPid != 0 || audioPid != 0))
      && (r.channelChangeState == TvmSuccess ==>
            && r.playbackInProgress
            && |r.sessions| > 0
            && r.sessions[|r.sessions| - 1] == Playback(frequency, PlaybackPidString(pmtPid, videoPid, audioPid, s.tunerCount, s.pidSet)))
  {
  }

  // -------------------------------------------------------------------
  // Scanning
  // -------------------------------------------------------------------

  /** What scanning one frequency meets: the PAT captured before the
      tuning timeout (None when none came), the PMT streams captured for
      each program, and whether a stop was requested meanwhile. */
  datatype FrequencyOutcome = FrequencyOutcome(pat: Option<seq<PatProgram>>, pmts: map<uint16, seq<PmtStream>>, stopRequested: bool)

  /** The filtering sessions of the PMT pass, one per program in the order
      given, each on that program's PMT pid. A PMT changes no PMT pid (see
      PsiTable.OnPmtKeepsPmtPid), so the pids are those the PAT set. */
  ghost function PmtSessions(psi: AtscPSI, frequency: uint32, programs: seq<int>): seq<Session>
    requires frequency in psi
    requires forall i :: 0 <= i < |programs| ==> programs[i] in psi[frequency]
    decreases |programs|
  {
    if programs == [] then []
    else
      [Filtering(frequency, Decimal(psi[frequency][programs[0] as uint16].pmtPid), PmtSection)]
        + PmtSessions(psi, frequency, programs[1..])
  }

  /** The table after the PMTs captured for the programs, in the order
      given. */
  ghost function PmtTables(psi: AtscPSI, frequency: uint32, programs: seq<int>, pmts: map<uint16, seq<PmtStream>>): AtscPSI
    requires frequency in psi
    requires forall i :: 0 <= i < |programs| ==> programs[i] in psi[frequency]
    decreases |programs|
  {
    if programs == [] then psi
    else
      var p := programs[0] as uint16;
      var streams := if p in pmts then pmts[p] else [];
      OnPmtKeepsKeys(psi, frequency, p, streams);
      PmtTables(OnPmt(psi, frequency, p, streams), frequency, programs[1..], pmts)
  }

  /** The table a frequency has once its PAT phase is over. */
  function PatPhase(psi: AtscPSI, frequency: uint32, pat: Option<seq<PatProgram>>): (r: AtscPSI)
    ensures frequency in r
  {
    var psi1 := if pat.Some? then OnPat(psi, frequency, pat.value) else psi;
    if frequency in psi1 then psi1 else psi1[frequency := map[]]
  }

  /** The programs of a frequency in the order std::map visits them. */
  ghost function ProgramsOf(psi: AtscPSI, frequency: uint32): (r: seq<int>)
    requires frequency in psi
    ensures forall i :: 0 <= i < |r| ==> r[i] in psi[frequency]
  {
    var programs := Ascending(psi[frequency].Keys);
    AscendingSpec(psi[frequency].Keys);
    forall i | 0 <= i < |programs| ensures programs[i] in psi[frequency] {
      assert programs[i] in programs;
    }
    programs
  }

  /** Scanning one frequency: the PAT filter, the frequency kept when its
      table is not empty, a PMT filter per program, and the stop flag. */
  ghost function ScanFrequency(s: BackendState, psi: AtscPSI, frequency: uint32, o: FrequencyOutcome): (BackendState, AtscPSI)
  {
    var psi2 := PatPhase(psi, frequency, o.pat);
    var programs := ProgramsOf(psi2, frequency);
    (s.(sessions := s.sessions + [Filtering(frequency, Decimal(PID_PAT), PatSection)] + PmtSessions(psi2, frequency, programs),
        frequencyList := s.frequencyList + (if |psi2[frequency]| > 0 then [frequency] else []),
        isScanStopped := s.isScanStopped || o.stopRequested),
     PmtTables(psi2, frequency, programs, o.pmts))
  }

  /** The PMTs change only the one frequency's records, and no key. */
  lemma {:induction false} PmtTablesSpec(psi: AtscPSI, frequency: uint32, programs: seq<int>, pmts: map<uint16, seq<PmtStream>>)
    requires frequency in psi
    requires forall i :: 0 <= i < |programs| ==> programs[i] in psi[frequency]
    ensures var r := PmtTables(psi, frequency, programs, pmts);
      && r.Keys == psi.Keys
      && (forall f :: f in psi ==> r[f].Keys == psi[f].Keys)
      && (forall f :: f in psi && f != frequency ==> r[f] == psi[f])
    decreases |programs|
  {
    if programs != [] {
      var p := programs[0] as uint16;
      var streams := if p in pmts then pmts[p] else [];
      OnPmtKeepsKeys(psi, frequency, p, streams);
      PmtTablesSpec(OnPmt(psi, frequency, p, streams), frequency, programs[1..], pmts);
    }
  }

  ghost function ScanFrequencies(s: BackendState, psi: AtscPSI, frequencies: seq<uint32>, outcomes: seq<FrequencyOutcome>): (BackendState, AtscPSI)
    requires |outcomes| == |frequencies|
    decreases 2 * |frequencies|
  {
    if frequencies == [] then (s, psi)
    else AfterFrequency(ScanFrequency(s, psi, frequencies[0], outcomes[0]), frequencies[1..], outcomes[1..])
  }

  /** The check after each frequency: a stop is reported and ends the
      loop, otherwise the next frequency follows. */
  ghost function AfterFrequency(r: (BackendState, AtscPSI), frequencies: seq<uint32>, outcomes: seq<FrequencyOutcome>): (BackendState, AtscPSI)
    requires |outcomes| == |frequencies|
    decreases 2 * |frequencies| + 1
  {
    if r.0.isScanStopped then (r.0.(notices := r.0.notices + [ScanningStateChanged(Stopped)]), r.1)
    else ScanFrequencies(r.0, r.1, frequencies, outcomes)
  }

  /** The given list, or the tuner's default list when the given one is
      empty. */
  function ScanList(s: BackendState, frequencies: seq<uint32>): seq<uint32>
  {
    if |frequencies| > 0 then frequencies else s.defaultFrequencies
  }

  /** ScanningThread: the new state and the new shared PSI table. */
  ghost function ScanningThread(s: BackendState, frequencies: seq<uint32>, outcomes: seq<FrequencyOutcome>): (BackendState, AtscPSI)
    requires |outcomes| == |ScanList(s, frequencies)|
  {
    var r := ScanFrequencies(ScanPrologue(s), map[], ScanList(s, frequencies), outcomes);
    (ScanEpilogue(r.0), r.1)
  }

  /** Before the first frequency: the scan flag is raised, filtering is
      paused, playback is stopped and the frequency list emptied. */
  function ScanPrologue(s: BackendState): (r: BackendState)
    ensures r.isScanInProgress && r.frequencyList == []
    ensures r.isScanStopped == s.isScanStopped && r.notices == s.notices && r.pidSet == s.pidSet
  {
    var s1 := PauseFiltering(s.(isScanInProgress := true));
    PlaybackYields(s1).(frequencyList := [])
  }

  /** A running playback gives the tuner up to the scan and forgets its
      program. */
  function PlaybackYields(s: BackendState): BackendState
  {
    if s.playbackInProgress then StopPlayBack(s).(channelNo := 0) else s
  }

  /** After the last frequency: a pending stop is consumed, otherwise
      Completed is reported; the scan flag drops and filtering resumes. */
  ghost function ScanEpilogue(s: BackendState): (r: BackendState)
    ensures !r.isScanStopped && !r.isScanInProgress
    ensures r.notices == s.notices + (if s.isScanStopped then [] else [ScanningStateChanged(Completed)])
    ensures r.frequencyList == s.frequencyList && r.pidSet == s.pidSet
  {
    var s5 := if s.isScanStopped then s.(isScanStopped := false) else s.(notices := s.notices + [ScanningStateChanged(Completed)]);
    ResumeFiltering(s5.(isScanInProgress := false))
  }

  // Scan results

  /** How many frequencies are scanned: up to and including the first one
      after which the stop flag is seen. */
  function Visited(stopped: bool, outcomes: seq<FrequencyOutcome>): (n: nat)
    ensures n <= |outcomes|
  {
    if outcomes == [] then 0
    else if stopped || outcomes[0].stopRequested then 1
    else 1 + Visited(false, outcomes[1..])
  }

  function StopSeen(stopped: bool, outcomes: seq<FrequencyOutcome>): bool
  {
    if outcomes == [] then stopped
    else stopped || outcomes[0].stopRequested || StopSeen(false, outcomes[1..])
  }

  /** A frequency is kept when its PAT named at least one program. */
  predicate Found(o: FrequencyOutcome)
  {
    o.pat.Some? && o.pat.value != []
  }

  /** The frequencies kept, in scan order. */
  function FoundFrequencies(frequencies: seq<uint32>, outcomes: seq<FrequencyOutcome>): seq<uint32>
    requires |outcomes| == |frequencies|
  {
    if frequencies == [] then []
    else (if Found(outcomes[0]) then [frequencies[0]] else []) + FoundFrequencies(frequencies[1..], outcomes[1..])
  }

  /** The frequencies whose table names at least one program. */
  ghost function Held(psi: AtscPSI): set<uint32>
  {
    set f | f in psi && |psi[f]| > 0
  }

  /** Whether a frequency's table names a program once its PAT phase is
      over: a PAT that came decides; without one the table it had stays. */
  predicate HoldsAfter(held: bool, pat: Option<seq<PatProgram>>)
  {
    if pat.Some? then pat.value != [] else held
  }

  /** The frequencies appended to the list up to the stop, in scan order:
      one entry per visit after which the frequency's table names a
      program, so a frequency given twice can be listed twice. held: the
      frequencies whose table names a program before the first visit. */
  function ListedUntilStop(held: set<uint32>, stopped: bool, frequencies: seq<uint32>, outcomes: seq<FrequencyOutcome>): seq<uint32>
    requires |outcomes| == |frequencies|
    decreases |frequencies|
  {
    if frequencies == [] then []
    else
      var f := frequencies[0];
      var h := HoldsAfter(f in held, outcomes[0].pat);
      (if h then [f] else [])
        + (if stopped || outcomes[0].stopRequested then []
           else ListedUntilStop(if h then held + {f} else held - {f}, false, frequencies[1..], outcomes[1..]))
  }

  /** Over frequencies that are given once and hold nothing yet, a
      frequency is listed exactly when its PAT named a program. */
  lemma {:induction false} ListedWithoutRepeats(held: set<uint32>, stopped: bool, frequencies: seq<uint32>, outcomes: seq<FrequencyOutcome>)
    requires |outcomes| == |frequencies| && NoRepeats(frequencies)
    requires forall i :: 0 <= i < |frequencies| ==> frequencies[i] !in held
    ensures ListedUntilStop(held, stopped, frequencies, outcomes) == FoundUntilStop(stopped, frequencies, outcomes)
    decreases |frequencies|
  {
    if frequencies != [] {
      var f := frequencies[0];
      var h := HoldsAfter(f in held, outcomes[0].pat);
      assert h == Found(outcomes[0]);
      var held1 := if h then held + {f} else held - {f};
      forall i | 0 <= i < |frequencies[1..]|
        ensures frequencies[1..][i] !in held1
      {
        assert frequencies[1..][i] == frequencies[i + 1];
        assert frequencies[i + 1] != frequencies[0];
      }
      ListedWithoutRepeats(held1, false, frequencies[1..], outcomes[1..]);
    }
  }

  /** One frequency: it is appended to the list when its table names a
      program after the PAT phase, and the stop flag is raised when a stop
      was requested. */
  lemma ScanFrequencyState(s: BackendState, psi: AtscPSI, frequency: uint32, o: FrequencyOutcome)
    ensures var r := ScanFrequency(s, psi, frequency, o).0;
      && r.frequencyList == s.frequencyList + (if HoldsAfter(frequency in Held(psi), o.pat) then [frequency] else [])
      && r.isScanStopped == (s.isScanStopped || o.stopRequested)
      && ScanFrame(r, s)
  {
    PatPhaseHolds(psi, frequency, o.pat);
  }

  /** The PAT phase leaves a table that names a program exactly as
      HoldsAfter says. */
  lemma PatPhaseHolds(psi: AtscPSI, frequency: uint32, pat: Option<seq<PatProgram>>)
    ensures |PatPhase(psi, frequency, pat)[frequency]| > 0 <==> HoldsAfter(frequency in Held(psi), pat)
  {
    PatPhaseSpec(psi, frequency, pat);
    if pat.Some? {
      PatTableEmpty(pat.value);
    }
  }

  /** One frequency gains an entry in the table, or has its entry
      replaced; no other entry changes. Whether the frequency names a
      program afterwards is decided as HoldsAfter says. */
  lemma ScanFrequencyTable(s: BackendState, psi: AtscPSI, frequency: uint32, o: FrequencyOutcome)
    ensures var r := ScanFrequency(s, psi, frequency, o).1;
      && r.Keys == psi.Keys + {frequency}
      && (forall f :: f in psi && f != frequency ==> r[f] == psi[f])
      && r[frequency].Keys == (if o.pat.Some? then PatTable(o.pat.value).Keys
                               else if frequency in psi then psi[frequency].Keys else {})
      && Held(r) == if HoldsAfter(frequency in Held(psi), o.pat) then Held(psi) + {frequency} else Held(psi) - {frequency}
  {
    PatPhaseSpec(psi, frequency, o.pat);
    PatPhaseHolds(psi, frequency, o.pat);
    var psi2 := PatPhase(psi, frequency, o.pat);
    PmtTablesSpec(psi2, frequency, ProgramsOf(psi2, frequency), o.pmts);
    var r := ScanFrequency(s, psi, frequency, o).1;
    assert |r[frequency]| == |psi2[frequency]| by {
      assert r[frequency].Keys == psi2[frequency].Keys;
    }
    HeldUpdate(psi, r, frequency, HoldsAfter(frequency in Held(psi), o.pat));
  }

  /** One entry replaced: the frequencies naming a program change only in
      that entry. */
  lemma HeldUpdate(psi: AtscPSI, r: AtscPSI, frequency: uint32, h: bool)
    requires r.Keys == psi.Keys + {frequency}
    requires forall f :: f in psi && f != frequency ==> r[f] == psi[f]
    requires |r[frequency]| > 0 <==> h
    ensures Held(r) == if h then Held(psi) + {frequency} else Held(psi) - {frequency}
  {
  }

  /** The PAT phase leaves the frequency with the PAT's programs when one
      came; otherwise with the table it had, or an empty one. No other
      frequency changes. */
  lemma PatPhaseSpec(psi: AtscPSI, frequency: uint32, pat: Option<seq<PatProgram>>)
    ensures var r := PatPhase(psi, frequency, pat);
      && r.Keys == psi.Keys + {frequency}
      && r[frequency] == (if pat.Some? then PatTable(pat.value) else if frequency in psi then psi[frequency] else map[])
      && (forall f :: f in psi && f != frequency ==> r[f] == psi[f])
  {
  }

  /** What scanning leaves as it was. */
  predicate ScanFrame(a: BackendState, b: BackendState)
  {
    && a.notices == b.notices
    && a.isScanInProgress == b.isScanInProgress
    && a.pidSet == b.pidSet
    && a.playbackInProgress == b.playbackInProgress
    && a.currentTunedFrequency == b.currentTunedFrequency
    && a.channelNo == b.channelNo
  }

  ghost function Keys(frequencies: seq<uint32>): set<uint32>
  {
    set i | 0 <= i < |frequencies| :: frequencies[i]
  }

  /** Scanning a list stops the first time the stop flag is seen, and only
      then reports Stopped; it leaves the scan frame as it was. */
  lemma {:induction false} ScanFrequenciesFlags(s: BackendState, psi: AtscPSI, frequencies: seq<uint32>, outcomes: seq<FrequencyOutcome>)
    requires |outcomes| == |frequencies|
    ensures var r := ScanFrequencies(s, psi, frequencies, outcomes).0;
      && r.isScanStopped == StopSeen(s.isScanStopped, outcomes)
      && r.notices == s.notices + (if outcomes != [] && StopSeen(s.isScanStopped, outcomes) then [ScanningStateChanged(Stopped)] else [])
      && r.isScanInProgress == s.isScanInProgress
      && r.pidSet == s.pidSet
      && r.playbackInProgress == s.playbackInProgress
    decreases 2 * |frequencies|
  {
    if frequencies != [] {
      var r1 := ScanFrequency(s, psi, frequencies[0], outcomes[0]);
      ScanFrequencyState(s, psi, frequencies[0], outcomes[0]);
      AfterFrequencyFlags(r1, frequencies[1..], outcomes[1..]);
    }
  }

  lemma {:induction false} AfterFrequencyFlags(r: (BackendState, AtscPSI), frequencies: seq<uint32>, outcomes: seq<FrequencyOutcome>)
    requires |outcomes| == |frequencies|
    ensures var q := AfterFrequency(r, frequencies, outcomes).0;
      var stop := r.0.isScanStopped || StopSeen(false, outcomes);
      && q.isScanStopped == stop
      && q.notices == r.0.notices + (if stop then [ScanningStateChanged(Stopped)] else [])
      && q.isScanInProgress == r.0.isScanInProgress
      && q.pidSet == r.0.pidSet
      && q.playbackInProgress == r.0.playbackInProgress
    decreases 2 * |frequencies| + 1
  {
    if !r.0.isScanStopped {
      ScanFrequenciesFlags(r.0, r.1, frequencies, outcomes);
      if outcomes == [] {
        assert !StopSeen(false, outcomes);
      }
    }
  }

  /** The frequencies whose PAT named a program, up to the stop, in scan
      order. */
  function FoundUntilStop(stopped: bool, frequencies: seq<uint32>, outcomes: seq<FrequencyOutcome>): seq<uint32>
    requires |outcomes| == |frequencies|
  {
    if frequencies == [] then []
    else
      (if Found(outcomes[0]) then [frequencies[0]] else [])
        + (if stopped || outcomes[0].stopRequested then [] else FoundUntilStop(false, frequencies[1..], outcomes[1..]))
  }

  /** The frequencies scanned up to the stop. */
  function VisitedUntilStop(stopped: bool, frequencies: seq<uint32>, outcomes: seq<FrequencyOutcome>): set<uint32>
    requires |outcomes| == |frequencies|
  {
    if frequencies == [] then {}
    else {frequencies[0]} + (if stopped || outcomes[0].stopRequested then {} else VisitedUntilStop(false, frequencies[1..], outcomes[1..]))
  }

  lemma {:induction false} UntilStopSpec(stopped: bool, frequencies: seq<uint32>, outcomes: seq<FrequencyOutcome>)
    requires |outcomes| == |frequencies|
    ensures var n := Visited(stopped, outcomes);
      && FoundUntilStop(stopped, frequencies, outcomes) == FoundFrequencies(frequencies[..n], outcomes[..n])
      && VisitedUntilStop(stopped, frequencies, outcomes) == Keys(frequencies[..n])
    decreases |frequencies|
  {
    if frequencies != [] {
      var n := Visited(stopped, outcomes);
      var found := if Found(outcomes[0]) then [frequencies[0]] else [];
      KeysCons(frequencies[..n]);
      if stopped || outcomes[0].stopRequested {
        assert n == 1;
        assert FoundFrequencies(frequencies[..1], outcomes[..1]) == found + FoundFrequencies([], []);
        assert frequencies[..n][1..] == [];
      } else {
        UntilStopSpec(false, frequencies[1..], outcomes[1..]);
        var m := Visited(false, outcomes[1..]);
        assert n == 1 + m;
        assert frequencies[..n][1..] == frequencies[1..][..m];
        assert outcomes[..n][1..] == outcomes[1..][..m];
        assert FoundFrequencies(frequencies[..n], outcomes[..n]) == found + FoundFrequencies(frequencies[1..][..m], outcomes[1..][..m]);
      }
    }
  }

  /** Up to the stop, the frequency list gains each visit after which the
      frequency's table names a program, in order and repeats included,
      and each frequency visited, and no other, has an entry in the table. */
  lemma {:induction false} ScanFrequenciesResult(s: BackendState, psi: AtscPSI, frequencies: seq<uint32>, outcomes: seq<FrequencyOutcome>)
    requires |outcomes| == |frequencies|
    ensures var r := ScanFrequencies(s, psi, frequencies, outcomes);
      && r.0.frequencyList == s.frequencyList + ListedUntilStop(Held(psi), s.isScanStopped, frequencies, outcomes)
      && r.1.Keys == psi.Keys + VisitedUntilStop(s.isScanStopped, frequencies, outcomes)
    decreases 2 * |frequencies|
  {
    if frequencies != [] {
      var f := frequencies[0];
      var o := outcomes[0];
      var r1 := ScanFrequency(s, psi, f, o);
      ScanFrequencyHead(s, psi, f, o);
      AfterFrequencyResult(r1, frequencies[1..], outcomes[1..]);
      var q := AfterFrequency(r1, frequencies[1..], outcomes[1..]);
      ResultStep(s.isScanStopped, frequencies, outcomes, Held(psi), Held(r1.1), s.frequencyList, r1.0.frequencyList, q.0.frequencyList, psi.Keys, r1.1.Keys, q.1.Keys);
    }
  }

  /** One frequency adds itself to the list when its table names a
      program afterwards, to the table always, and raises the stop flag
      when a stop was requested. */
  lemma ScanFrequencyHead(s: BackendState, psi: AtscPSI, f: uint32, o: FrequencyOutcome)
    ensures var r1 := ScanFrequency(s, psi, f, o);
      var h := HoldsAfter(f in Held(psi), o.pat);
      && r1.0.frequencyList == s.frequencyList + (if h then [f] else [])
      && r1.0.isScanStopped == (s.isScanStopped || o.stopRequested)
      && r1.1.Keys == psi.Keys + {f}
      && Held(r1.1) == if h then Held(psi) + {f} else Held(psi) - {f}
  {
    ScanFrequencyState(s, psi, f, o);
    ScanFrequencyTable(s, psi, f, o);
  }

  lemma {:induction false} AfterFrequencyResult(r: (BackendState, AtscPSI), frequencies: seq<uint32>, outcomes: seq<FrequencyOutcome>)
    requires |outcomes| == |frequencies|
    ensures var q := AfterFrequency(r, frequencies, outcomes);
      && q.0.frequencyList == r.0.frequencyList + (if r.0.isScanStopped then [] else ListedUntilStop(Held(r.1), false, frequencies, outcomes))
      && q.1.Keys == r.1.Keys + (if r.0.isScanStopped then {} else VisitedUntilStop(false, frequencies, outcomes))
    decreases 2 * |frequencies| + 1
  {
    if !r.0.isScanStopped {
      ScanFrequenciesResult(r.0, r.1, frequencies, outcomes);
    }
  }

  /** One frequency followed by the rest of the loop, on plain values. */
  lemma ResultStep(stopped: bool, frequencies: seq<uint32>, outcomes: seq<FrequencyOutcome>, held: set<uint32>, held1: set<uint32>, list: seq<uint32>, list1: seq<uint32>, listR: seq<uint32>, keys: set<uint32>, keys1: set<uint32>, keysR: set<uint32>)
    requires |outcomes| == |frequencies| && frequencies != []
    requires var h := HoldsAfter(frequencies[0] in held, outcomes[0].pat);
      && list1 == list + (if h then [frequencies[0]] else [])
      && held1 == (if h then held + {frequencies[0]} else held - {frequencies[0]})
    requires keys1 == keys + {frequencies[0]}
    requires var stop := stopped || outcomes[0].stopRequested;
      && listR == list1 + (if stop then [] else ListedUntilStop(held1, false, frequencies[1..], outcomes[1..]))
      && keysR == keys1 + (if stop then {} else VisitedUntilStop(false, frequencies[1..], outcomes[1..]))
    ensures listR == list + ListedUntilStop(held, stopped, frequencies, outcomes)
    ensures keysR == keys + VisitedUntilStop(stopped, frequencies, outcomes)
  {
    ListedCons(held, held1, stopped, frequencies, outcomes);
    var h := HoldsAfter(frequencies[0] in held, outcomes[0].pat);
    var stop := stopped || outcomes[0].stopRequested;
    AppendAssoc(list, if h then [frequencies[0]] else [], if stop then [] else ListedUntilStop(held1, false, frequencies[1..], outcomes[1..]));
    VisitedCons(stopped, frequencies, outcomes);
  }

  lemma AppendAssoc(a: seq<uint32>, b: seq<uint32>, c: seq<uint32>)
    ensures (a + b) + c == a + (b + c)
  {
  }

  /** VisitedUntilStop split into its first visit and the rest. */
  lemma VisitedCons(stopped: bool, frequencies: seq<uint32>, outcomes: seq<FrequencyOutcome>)
    requires |outcomes| == |frequencies| && frequencies != []
    ensures VisitedUntilStop(stopped, frequencies, outcomes)
      == {frequencies[0]} + (if stopped || outcomes[0].stopRequested then {} else VisitedUntilStop(false, frequencies[1..], outcomes[1..]))
  {
  }

  /** ListedUntilStop split into its first visit and the rest. */
  lemma ListedCons(held: set<uint32>, held1: set<uint32>, stopped: bool, frequencies: seq<uint32>, outcomes: seq<FrequencyOutcome>)
    requires |outcomes| == |frequencies| && frequencies != []
    requires var h := HoldsAfter(frequencies[0] in held, outcomes[0].pat);
      held1 == (if h then held + {frequencies[0]} else held - {frequencies[0]})
    ensures var h := HoldsAfter(frequencies[0] in held, outcomes[0].pat);
      ListedUntilStop(held, stopped, frequencies, outcomes)
        == (if h then [frequencies[0]] else [])
           + (if stopped || outcomes[0].stopRequested then [] else ListedUntilStop(held1, false, frequencies[1..], outcomes[1..]))
  {
  }

  lemma KeysCons(xs: seq<uint32>)
    requires xs != []
    ensures Keys(xs) == {xs[0]} + Keys(xs[1..])
  {
    forall x ensures x in Keys(xs) <==> x in {xs[0]} + Keys(xs[1..]) {
      if x in Keys(xs) {
        var i :| 0 <= i < |xs| && xs[i] == x;
        if i > 0 { assert xs[1..][i - 1] == x; }
      }
      if x in Keys(xs[1..]) {
        var i :| 0 <= i < |xs[1..]| && xs[1..][i] == x;
        assert xs[i + 1] == x;
      }
      if x == xs[0] { assert xs[0] in Keys(xs); }
    }
  }

  predicate NoRepeats(xs: seq<uint32>)
  {
    forall i, j :: 0 <= i < j < |xs| ==> xs[i] != xs[j]
  }

  /** A scan is not incremental and always finishes cleanly: the table
      holds exactly the scanned frequencies; the frequency list has one
      entry per visit after which the frequency's table names a program,
      which for a list without repeats is the in-order list of those whose
      PAT named a program; one of Stopped and Completed is reported (none
      when a stop was already pending and the list is empty); and
      afterwards neither the stop flag nor the scan flag is set. */
  lemma ScanningThreadSpec(s: BackendState, frequencies: seq<uint32>, outcomes: seq<FrequencyOutcome>)
    requires |outcomes| == |ScanList(s, frequencies)|
    ensures var r := ScanningThread(s, frequencies, outcomes);
      var list := ScanList(s, frequencies);
      var n := Visited(s.isScanStopped, outcomes);
      && r.0.frequencyList == ListedUntilStop({}, s.isScanStopped, list, outcomes)
      && (NoRepeats(list) ==> r.0.frequencyList == FoundFrequencies(list[..n], outcomes[..n]))
      && r.1.Keys == Keys(list[..n])
      && !r.0.isScanStopped && !r.0.isScanInProgress
      && r.0.notices == s.notices
           + (if list == [] && s.isScanStopped then []
              else [ScanningStateChanged(if StopSeen(s.isScanStopped, outcomes) then Stopped else Completed)])
      && r.0.pidSet == s.pidSet
  {
    var list := ScanList(s, frequencies);
    var r := ScanFrequencies(ScanPrologue(s), map[], list, outcomes);
    ScanBody(s, list, outcomes);
    assert ScanningThread(s, frequencies, outcomes) == (ScanEpilogue(r.0), r.1);
    EpilogueNotices(s.notices, r.0, s.isScanStopped, outcomes);
    ListedWithoutRepeatsFromEmpty(s.isScanStopped, list, outcomes);
  }

  /** From an empty table, a list without repeats lists exactly the
      frequencies whose PAT named a program, up to the stop. */
  lemma ListedWithoutRepeatsFromEmpty(stopped: bool, list: seq<uint32>, outcomes: seq<FrequencyOutcome>)
    requires |outcomes| == |list|
    ensures var n := Visited(stopped, outcomes);
      NoRepeats(list) ==> ListedUntilStop({}, stopped, list, outcomes) == FoundFrequencies(list[..n], outcomes[..n])
  {
    if NoRepeats(list) {
      ListedWithoutRepeats({}, stopped, list, outcomes);
      UntilStopSpec(stopped, list, outcomes);
    }
  }

  /** The frequency loop of a scan, started from the prologue's state and
      an empty table. */
  lemma ScanBody(s: BackendState, list: seq<uint32>, outcomes: seq<FrequencyOutcome>)
    requires |outcomes| == |list|
    ensures var r := ScanFrequencies(ScanPrologue(s), map[], list, outcomes);
      var n := Visited(s.isScanStopped, outcomes);
      && r.0.isScanStopped == StopSeen(s.isScanStopped, outcomes)
      && r.0.notices == s.notices + (if outcomes != [] && StopSeen(s.isScanStopped, outcomes) then [ScanningStateChanged(Stopped)] else [])
      && r.0.pidSet == s.pidSet
      && r.0.frequencyList == ListedUntilStop({}, s.isScanStopped, list, outcomes)
      && r.1.Keys == Keys(list[..n])
  {
    var s3 := ScanPrologue(s);
    var r := ScanFrequencies(s3, map[], list, outcomes);
    ScanFrequenciesFlags(s3, map[], list, outcomes);
    ScanFrequenciesResult(s3, map[], list, outcomes);
    UntilStopSpec(s.isScanStopped, list, outcomes);
    assert Held(map[]) == {};
    assert r.0.frequencyList == [] + ListedUntilStop({}, s.isScanStopped, list, outcomes);
    assert r.1.Keys == VisitedUntilStop(s.isScanStopped, list, outcomes);
  }

  /** A frequency given twice is listed twice when its first PAT named a
      program and its second visit brought no PAT: the table from the
      first visit is still there. */
  lemma RepeatListedAgain(s: BackendState, f: uint32, first: FrequencyOutcome, second: FrequencyOutcome)
    requires !s.isScanStopped && Found(first) && !first.stopRequested && second.pat.None?
    ensures ScanningThread(s, [f, f], [first, second]).0.frequencyList == [f, f]
  {
    ScanningThreadSpec(s, [f, f], [first, second]);
    ListedCons({}, {f}, false, [f, f], [first, second]);
    ListedCons({f}, {f}, false, [f], [second]);
    assert [f, f][1..] == [f] && [first, second][1..] == [second];
  }

  lemma EpilogueNotices(notices: seq<Notice>, s4: BackendState, stopped: bool, outcomes: seq<FrequencyOutcome>)
    requires s4.isScanStopped == StopSeen(stopped, outcomes)
    requires s4.notices == notices + (if outcomes != [] && StopSeen(stopped, outcomes) then [ScanningStateChanged(Stopped)] else [])
    ensures ScanEpilogue(s4).notices == notices
      + (if outcomes == [] && stopped then []
         else [ScanningStateChanged(if StopSeen(stopped, outcomes) then Stopped else Completed)])
  {
    if outcomes == [] {
      assert s4.notices == notices;
    } else if StopSeen(stopped, outcomes) {
      assert ScanEpilogue(s4).notices == s4.notices;
    } else {
      assert s4.notices == notices;
    }
  }

  /** StopScanning sets the flag whether a scan runs or not, so a stop
      requested between scans cuts the next scan short after its first
      frequency. */
  lemma PendingStopCutsNextScan(s: BackendState, frequencies: seq<uint32>, outcomes: seq<FrequencyOutcome>)
    requires |outcomes| == |ScanList(s, frequencies)|
    requires s.isScanStopped && ScanList(s, frequencies) != []
    ensures var r := ScanningThread(s, frequencies, outcomes);
      && r.1.Keys == {ScanList(s, frequencies)[0]}
      && r.0.notices == s.notices + [ScanningStateChanged(Stopped)]
  {
    var list := ScanList(s, frequencies);
    ScanningThreadSpec(s, frequencies, outcomes);
    assert Visited(true, outcomes) == 1;
    KeysCons(list[..1]);
  }

  // -------------------------------------------------------------------
  // Forwarded sections
  // -------------------------------------------------------------------

  /** GST_MPEGTS_SECTION_* as far as the bus handler tells them apart. */
  datatype BusSectionType = PatType | PmtType | MgtType | SttType | TvctType | CvctType | EitType | OtherType

  /** The buffer handed to the section handler, if any: the ATSC tables the
      parser reads, when the section carries data. body stands for the
      bytes copied after the header fields. */
  function ForwardedSection(t: BusSectionType, frequency: uint32, sectionLength: uint16, hasData: bool, body: seq<uint8>): Option<seq<uint8>>
    requires |body| == Envelope.BUFFER_SIZE - Envelope.DATA_OFFSET
  {
    if (t == MgtType || t == SttType || t == TvctType || t == EitType) && hasData then
      Some(Envelope.WriteEnvelope(frequency, sectionLength, body))
    else None
  }

  /** Exactly MGT, STT, TVCT and EIT sections with data are forwarded (a
      CVCT never is), and the parser reads back the frequency they were
      captured on. */
  lemma ForwardedSectionSpec(t: BusSectionType, frequency: uint32, sectionLength: uint16, hasData: bool, body: seq<uint8>)
    requires |body| == Envelope.BUFFER_SIZE - Envelope.DATA_OFFSET
    ensures var r := ForwardedSection(t, frequency, sectionLength, hasData, body);
      && (r.Some? <==> hasData && t in {MgtType, SttType, TvctType, EitType})
      && (r.Some? ==> |r.value| == Envelope.BUFFER_SIZE
                      && Envelope.ReadFrequency(r.value) == frequency
                      && Envelope.ReadSectionLength(r.value) == sectionLength)
  {
    Envelope.EnvelopeRoundTrip(frequency, sectionLength, body);
  }
}
