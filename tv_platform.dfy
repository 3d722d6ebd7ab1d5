/** The platform object that owns the tuners: it probes the frontends once,
    gives every tuner the tuner count, and routes each request to a tuner,
    either the streaming one (scan, tune, scan results) or the filtering one
    (home transport stream, section filters). Each tuner is a SourceBackend;
    all of them share one PSI table. */
module Platform {
  import opened Common
  import opened TvCommon
  import opened PsiTable
  import opened SourceState
  import opened Backend

  // -------------------------------------------------------------------
  // Tuner selection
  // -------------------------------------------------------------------

  /** GetTuner: the index of the tuner that serves a streaming request
      (forStreaming) or a filtering request, out of count tuners. */
  function GetTuner(count: nat, forStreaming: bool): (r: Option<nat>)
    ensures r.None? <==> count == 0
    ensures r.Some? ==> r.value < count
  {
    if count == 0 then None
    else if count == 1 then Some(0)
    else if forStreaming then Some(1)
    else Some(0)
  }

  /** Filtering always goes to the first tuner; a single tuner serves both
      roles, and with two or more tuners streaming and filtering go to
      different tuners. */
  lemma TunerRoles(count: nat)
    ensures count >= 1 ==> GetTuner(count, false) == Some(0)
    ensures count == 1 ==> GetTuner(count, true) == GetTuner(count, false)
    ensures count >= 2 ==> GetTuner(count, true).Some? && GetTuner(count, true) != GetTuner(count, false)
  {
  }

  /** The SetHomeTS gate: a filtering tuner exists, and it is not the
      single tuner while that tuner streams. */
  predicate HomeTsAllowed(count: nat, streaming: bool)
  {
    GetTuner(count, false).Some? && ((count == 1 && !streaming) || count > 1)
  }

  /** The home transport stream is refused exactly when there is no tuner,
      or when the only tuner is streaming. */
  lemma HomeTsGate(count: nat, streaming: bool)
    ensures !HomeTsAllowed(count, streaming) <==> count == 0 || (count == 1 && streaming)
  {
  }

  // -------------------------------------------------------------------
  // Tuner identification
  // -------------------------------------------------------------------

  /** The adapter and frontend a tuner was identified on. */
  datatype TunerData = TunerData(adapter: nat, frontend: nat)

  /** The i-th probe of the adapter-major scan over adapters and frontends. */
  function Slot(i: nat): TunerData
  {
    TunerData(i / DVB_ADAPTER_SCAN, i % DVB_ADAPTER_SCAN)
  }

  /** Where a frontend comes in the probing order. */
  function Index(d: TunerData): nat
  {
    d.adapter * DVB_ADAPTER_SCAN + d.frontend
  }

  /** The frontends identified by the first n probes, in probing order;
      probes[i] says whether the frontend at Slot(i) opened. */
  function Identified(probes: seq<bool>, n: nat): seq<TunerData>
    requires n <= |probes|
  {
    if n == 0 then []
    else Identified(probes, n - 1) + (if probes[n - 1] then [Slot(n - 1)] else [])
  }

  /** The identified frontends are exactly the probes that opened, each
      once, in probing order. */
  lemma {:induction false} IdentifiedSpec(probes: seq<bool>, n: nat)
    requires n <= |probes|
    ensures var r := Identified(probes, n);
      && (forall k :: 0 <= k < |r| ==> Index(r[k]) < n && probes[Index(r[k])] && Slot(Index(r[k])) == r[k])
      && (forall j, k :: 0 <= j < k < |r| ==> Index(r[j]) < Index(r[k]))
      && (forall i :: 0 <= i < n && probes[i] ==> Slot(i) in r)
  {
    if n > 0 {
      IdentifiedSpec(probes, n - 1);
      assert Index(Slot(n - 1)) == n - 1;
    }
  }

  /** Every identified frontend lies on a frontend number below
      DVB_ADAPTER_SCAN, at a position probed so far. */
  lemma {:induction false} IdentifiedInRange(probes: seq<bool>, n: nat)
    requires n <= |probes|
    ensures forall d :: d in Identified(probes, n) ==> d.frontend < DVB_ADAPTER_SCAN && Index(d) < n
  {
    if n > 0 {
      IdentifiedInRange(probes, n - 1);
      assert Index(Slot(n - 1)) == n - 1;
    }
  }

  // -------------------------------------------------------------------
  // The platform
  // -------------------------------------------------------------------

  class TVPlatformImplementation {
    var tunerCount: uint32
    var isRunning: bool
    var isStreaming: bool
    var tuners: seq<SourceBackend>
    /** The adapter and frontend of each tuner. */
    var tunerData: seq<TunerData>

    /** Every tuner of the list is counted, and GetTuner never indexes past
        the list. */
    ghost predicate Valid()
      reads this
    {
      |tuners| == tunerCount as int && |tunerData| == |tuners|
    }

    /** The objects a request routed to the streaming tuner (or the
        filtering tuner) may change: that tuner and the shared table. */
    ghost function Selected(forStreaming: bool): set<object>
      requires Valid()
      reads this
    {
      match GetTuner(tunerCount as nat, forStreaming)
      case None => {}
      case Some(k) => {tuners[k], tuners[k].psi}
    }

    /** The constructor probes the frontends. probes: which of the
        DVB_ADAPTER_SCAN * DVB_ADAPTER_SCAN frontends open, adapter-major;
        defaultFrequencies: each tuner's default scan list; psi: the
        table all tuners share. */
    constructor (probes: seq<bool>, defaultFrequencies: seq<uint32>, psi: PsiStore)
      requires |probes| == DVB_ADAPTER_SCAN * DVB_ADAPTER_SCAN
      ensures Valid() && isRunning && !isStreaming
      ensures tunerData == Identified(probes, |probes|)
      ensures forall k :: 0 <= k < |tuners| ==>
        tuners[k].State() == SourceState.Initial(defaultFrequencies).(tunerCount := tunerCount) && tuners[k].psi == psi
      ensures forall j, k :: 0 <= j < k < |tuners| ==> tuners[j] != tuners[k]
    {
      tunerCount := 0;
      isRunning := true;
      isStreaming := false;
      tuners := [];
      tunerData := [];
      new;
      InitializeTuners(probes, defaultFrequencies, psi);
    }

    /** InitializeTuners: one tuner per frontend that opens, numbered in
        probing order; then every tuner is told how many there are. */
    method InitializeTuners(probes: seq<bool>, defaultFrequencies: seq<uint32>, psi: PsiStore)
      requires |probes| == DVB_ADAPTER_SCAN * DVB_ADAPTER_SCAN
      requires tuners == []
      modifies this
      ensures Valid() && isRunning == old(isRunning) && isStreaming == old(isStreaming)
      ensures tunerData == Identified(probes, |probes|)
      ensures forall k :: 0 <= k < |tuners| ==>
        fresh(tuners[k]) && tuners[k].State() == SourceState.Initial(defaultFrequencies).(tunerCount := tunerCount) && tuners[k].psi == psi
      ensures forall j, k :: 0 <= j < k < |tuners| ==> tuners[j] != tuners[k]
    {
      var count: uint32;
      count, tuners, tunerData := OpenTuners(probes, defaultFrequencies, psi);
      tunerCount := count;
      TellTunerCount(tuners, tunerCount);
    }

    // Requests for the streaming tuner

    /** Scan: the streaming tuner scans; success marks the platform as
        streaming. */
    method Scan(freqList: seq<uint32>, outcomes: seq<FrequencyOutcome>) returns (rc: TvmRc)
      requires Valid()
      requires GetTuner(tunerCount as nat, true).Some? ==>
        |outcomes| == |ScanList(tuners[GetTuner(tunerCount as nat, true).value].State(), freqList)|
      modifies this, Selected(true)
      ensures Valid() && tuners == old(tuners) && tunerCount == old(tunerCount) && tunerData == old(tunerData)
      ensures isStreaming == (old(isStreaming) || rc == TvmSuccess)
      ensures match GetTuner(tunerCount as nat, true)
        case None => rc == TvmError
        case Some(k) =>
          && (tuners[k].State(), tuners[k].psi.data) == SourceState.ScanningThread(old(tuners[k].State()), freqList, outcomes)
          && rc == TvmSuccess
    {
      var t := GetTuner(tunerCount as nat, true);
      rc := TvmError;
      if t.Some? {
        rc := tuners[t.value].StartScanning(freqList, outcomes);
        if rc == TvmSuccess {
          isStreaming := true;
        }
      }
    }

    /** StopScanning: without a tuner the function falls off its end. */
    method StopScanning() returns (rc: RcOut)
      requires Valid()
      modifies Selected(true)
      ensures match GetTuner(tunerCount as nat, true)
        case None => rc == FellOffEnd
        case Some(k) => tuners[k].State() == old(tuners[k].State()).(isScanStopped := true) && rc == Returned(TvmSuccess)
    {
      var t := GetTuner(tunerCount as nat, true);
      rc := FellOffEnd;
      if t.Some? {
        var r := tuners[t.value].StopScanning();
        rc := Returned(r);
      }
    }

    /** Tune: the streaming tuner changes channel; success marks the
        platform as streaming. None is a caller left blocked by the tuner. */
    method Tune(frequency: uint32, programNumber: uint16, modulation: uint16, initialises: bool) returns (rc: Option<TvmRc>)
      requires Valid()
      modifies this, Selected(true)
      ensures Valid() && tuners == old(tuners) && tunerCount == old(tunerCount) && tunerData == old(tunerData)
      ensures isStreaming == (old(isStreaming) || rc == Some(TvmSuccess))
      ensures match GetTuner(tunerCount as nat, true)
        case None => rc == Some(TvmError)
        case Some(k) =>
          && tuners[k].State() == SourceState.SetCurrentChannel(old(tuners[k].State()), tuners[k].psi.data, frequency, programNumber, initialises)
          && rc == SourceState.ChannelChangeResult(old(tuners[k].State()), tuners[k].psi.data, frequency, programNumber, initialises)
    {
      var t := GetTuner(tunerCount as nat, true);
      rc := Some(TvmError);
      if t.Some? {
        rc := tuners[t.value].Tune(frequency, programNumber, modulation, initialises);
        if rc == Some(TvmSuccess) {
          isStreaming := true;
        }
      }
    }

    /** IsScanning: None stands for falling off the end without a tuner. */
    method IsScanning() returns (r: Option<bool>)
      requires Valid()
      ensures match GetTuner(tunerCount as nat, true)
        case None => r == None
        case Some(k) => r == Some(tuners[k].isScanInProgress)
    {
      var t := GetTuner(tunerCount as nat, true);
      r := None;
      if t.Some? {
        var scanning := tuners[t.value].IsScanning();
        r := Some(scanning);
      }
    }

    /** GetFrequencyList: the streaming flag drops whether or not there is
        a tuner; None stands for falling off the end without one. */
    method GetFrequencyList() returns (r: Option<seq<uint32>>)
      requires Valid()
      modifies this
      ensures Valid() && tuners == old(tuners) && tunerCount == old(tunerCount) && tunerData == old(tunerData)
      ensures !isStreaming
      ensures match GetTuner(tunerCount as nat, true)
        case None => r == None
        case Some(k) => r == Some(tuners[k].frequencyList)
    {
      var t := GetTuner(tunerCount as nat, true);
      isStreaming := false;
      r := None;
      if t.Some? {
        var list := tuners[t.value].GetFrequencyList();
        r := Some(list);
      }
    }

    /** GetTSInfo from the streaming tuner. */
    method GetTSInfo(tsInfoList: seq<TSInfo>) returns (rc: RcOut, result: seq<TSInfo>)
      requires Valid()
      ensures match GetTuner(tunerCount as nat, true)
        case None => rc == FellOffEnd && result == tsInfoList
        case Some(k) => rc == Returned(TvmSuccess) && result == tsInfoList + TSInfoListOf(tuners[k].psi.data)
    {
      var t := GetTuner(tunerCount as nat, true);
      rc, result := FellOffEnd, tsInfoList;
      if t.Some? {
        var r;
        r, result := tuners[t.value].GetTSInfo(tsInfoList);
        rc := Returned(r);
      }
    }

    /** GetChannelMap from the streaming tuner. */
    method GetChannelMap(chanMap: seq<ChannelDetails>) returns (rc: RcOut, result: seq<ChannelDetails>)
      requires Valid()
      ensures match GetTuner(tunerCount as nat, true)
        case None => rc == FellOffEnd && result == chanMap
        case Some(k) => rc == Returned(TvmSuccess) && result == chanMap + ChannelMapOf(tuners[k].psi.data)
    {
      var t := GetTuner(tunerCount as nat, true);
      rc, result := FellOffEnd, chanMap;
      if t.Some? {
        var r;
        r, result := tuners[t.value].GetChannelMap(chanMap);
        rc := Returned(r);
      }
    }

    // Requests for the filtering tuner

    /** SetHomeTS: the filtering tuner takes the primary frequency, unless
        there is no tuner or the only tuner is streaming. */
    method SetHomeTS(primaryFreq: uint32, secondaryFreq: uint32) returns (rc: TvmRc)
      requires Valid()
      modifies Selected(false)
      ensures rc == TvmError <==> tunerCount == 0 || (tunerCount == 1 && isStreaming)
      ensures HomeTsAllowed(tunerCount as nat, isStreaming) ==>
        tuners[0].State() == SourceState.SetHomeTS(old(tuners[0].State()), primaryFreq)
      ensures !HomeTsAllowed(tunerCount as nat, isStreaming) && tunerCount > 0 ==>
        tuners[0].State() == old(tuners[0].State())
    {
      HomeTsGate(tunerCount as nat, isStreaming);
      var t := GetTuner(tunerCount as nat, false);
      if t.Some? && ((tunerCount == 1 && !isStreaming) || tunerCount > 1) {
        rc := tuners[t.value].SetHomeTS(primaryFreq);
        return;
      }
      return TvmError;
    }

    /** StopFilter on the filtering tuner; the table id is not used. */
    method StopFilter(pid: uint16, tid: uint8) returns (rc: RcOut)
      requires Valid()
      requires tunerCount > 0 ==> pid in tuners[0].pidSet
      modifies Selected(false)
      ensures rc == FellOffEnd
      ensures tunerCount > 0 ==> tuners[0].State() == SourceState.StopFilter(old(tuners[0].State()), pid)
    {
      var t := GetTuner(tunerCount as nat, false);
      rc := FellOffEnd;
      if t.Some? {
        rc := tuners[t.value].StopFilter(pid);
      }
    }

    /** StopFilters on the filtering tuner. */
    method StopFilters() returns (rc: RcOut)
      requires Valid()
      modifies Selected(false)
      ensures rc == FellOffEnd
      ensures tunerCount > 0 ==> tuners[0].State() == SourceState.StopFilters(old(tuners[0].State()))
    {
      var t := GetTuner(tunerCount as nat, false);
      rc := FellOffEnd;
      if t.Some? {
        rc := tuners[t.value].StopFilters();
      }
    }

    /** StartFilter on the filtering tuner; the table id is not used. */
    method StartFilter(pid: uint16, tid: uint8, handler: nat) returns (rc: RcOut)
      requires Valid()
      modifies Selected(false)
      ensures tunerCount == 0 ==> rc == FellOffEnd
      ensures tunerCount > 0 ==>
        && tuners[0].State() == SourceState.StartFilter(old(tuners[0].State()), pid, handler)
        && rc == if pid in old(tuners[0].pidSet) then Returned(TvmError) else FellOffEnd
    {
      var t := GetTuner(tunerCount as nat, false);
      rc := FellOffEnd;
      if t.Some? {
        rc := tuners[t.value].StartFilter(pid, handler);
      }
    }
  }

  /** The probing loops of InitializeTuners: a new tuner for every frontend
      that opens, and the count of tuners made so far. */
  method OpenTuners(probes: seq<bool>, defaultFrequencies: seq<uint32>, psi: PsiStore)
      returns (count: uint32, tuners: seq<SourceBackend>, tunerData: seq<TunerData>)
    requires |probes| == DVB_ADAPTER_SCAN * DVB_ADAPTER_SCAN
    ensures count as int == |tuners| == |tunerData|
    ensures tunerData == Identified(probes, |probes|)
    ensures forall k :: 0 <= k < |tuners| ==>
      fresh(tuners[k]) && tuners[k].State() == SourceState.Initial(defaultFrequencies) && tuners[k].psi == psi
    ensures forall j, k :: 0 <= j < k < |tuners| ==> tuners[j] != tuners[k]
  {
    count, tuners, tunerData := 0, [], [];
    var adapter := 0;
    while adapter < DVB_ADAPTER_SCAN
      invariant 0 <= adapter <= DVB_ADAPTER_SCAN
      invariant count as int == |tuners| == |tunerData| <= adapter * DVB_ADAPTER_SCAN
      invariant tunerData == Identified(probes, adapter * DVB_ADAPTER_SCAN)
      invariant forall k :: 0 <= k < |tuners| ==>
        fresh(tuners[k]) && tuners[k].State() == SourceState.Initial(defaultFrequencies) && tuners[k].psi == psi
      invariant forall j, k :: 0 <= j < k < |tuners| ==> tuners[j] != tuners[k]
    {
      count, tuners, tunerData := OpenAdapter(adapter, probes, defaultFrequencies, psi, count, tuners, tunerData);
      adapter := adapter + 1;
    }
  }

  /** The frontend loop for one adapter. */
  method OpenAdapter(adapter: nat, probes: seq<bool>, defaultFrequencies: seq<uint32>, psi: PsiStore,
                     count0: uint32, tuners0: seq<SourceBackend>, tunerData0: seq<TunerData>)
      returns (count: uint32, tuners: seq<SourceBackend>, tunerData: seq<TunerData>)
    requires |probes| == DVB_ADAPTER_SCAN * DVB_ADAPTER_SCAN && adapter < DVB_ADAPTER_SCAN
    requires count0 as int == |tuners0| == |tunerData0| <= adapter * DVB_ADAPTER_SCAN
    requires tunerData0 == Identified(probes, adapter * DVB_ADAPTER_SCAN)
    requires forall j, k :: 0 <= j < k < |tuners0| ==> tuners0[j] != tuners0[k]
    ensures count as int == |tuners| == |tunerData| <= (adapter + 1) * DVB_ADAPTER_SCAN
    ensures tunerData == Identified(probes, (adapter + 1) * DVB_ADAPTER_SCAN)
    ensures |tuners0| <= |tuners| && tuners[..|tuners0|] == tuners0
    ensures forall k :: |tuners0| <= k < |tuners| ==>
      fresh(tuners[k]) && tuners[k].State() == SourceState.Initial(defaultFrequencies) && tuners[k].psi == psi
    ensures forall j, k :: 0 <= j < k < |tuners| ==> tuners[j] != tuners[k]
  {
    count, tuners, tunerData := count0, tuners0, tunerData0;
    var frontend := 0;
    while frontend < DVB_ADAPTER_SCAN
      invariant 0 <= frontend <= DVB_ADAPTER_SCAN
      invariant count as int == |tuners| == |tunerData| <= adapter * DVB_ADAPTER_SCAN + frontend
      invariant tunerData == Identified(probes, adapter * DVB_ADAPTER_SCAN + frontend)
      invariant |tuners0| <= |tuners| && tuners[..|tuners0|] == tuners0
      invariant forall k :: |tuners0| <= k < |tuners| ==>
        fresh(tuners[k]) && tuners[k].State() == SourceState.Initial(defaultFrequencies) && tuners[k].psi == psi
      invariant forall j, k :: 0 <= j < k < |tuners| ==> tuners[j] != tuners[k]
    {
      var i := adapter * DVB_ADAPTER_SCAN + frontend;
      assert Slot(i) == TunerData(adapter, frontend);
      if probes[i] {
        var tuner := new SourceBackend(defaultFrequencies, psi);
        tuners := tuners + [tuner];
        tunerData := tunerData + [TunerData(adapter, frontend)];
        count := count + 1;
      }
      frontend := frontend + 1;
    }
  }

  /** The last loop of InitializeTuners: every tuner learns the count. */
  method TellTunerCount(tuners: seq<SourceBackend>, count: uint32)
    requires forall j, k :: 0 <= j < k < |tuners| ==> tuners[j] != tuners[k]
    modifies set t | t in tuners
    ensures forall k :: 0 <= k < |tuners| ==> tuners[k].State() == old(tuners[k].State()).(tunerCount := count)
  {
    var k := 0;
    while k < |tuners|
      invariant 0 <= k <= |tuners|
      invariant forall j :: 0 <= j < k ==> tuners[j].State() == old(tuners[j].State()).(tunerCount := count)
      invariant forall j :: k <= j < |tuners| ==> tuners[j].State() == old(tuners[j].State())
    {
      tuners[k].UpdateTunerCount(count);
      k := k + 1;
    }
  }
}
