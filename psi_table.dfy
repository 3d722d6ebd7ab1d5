/** What the tuner backend does to the shared PSI table, as functions: the
    effect of a PAT and of a PMT (ISO/IEC 13818-1, sections 2.4.4.3 and
    2.4.4.8), the stream lookup of a tune, and the channel map and
    transport stream lists read out of the table. */
module PsiTable {
  import opened Common
  import opened TvCommon

  // -------------------------------------------------------------------
  // PAT
  // -------------------------------------------------------------------

  /** One program of a PAT: program_number and network_or_program_map_PID. */
  datatype PatProgram = PatProgram(programNumber: uint16, pid: uint16)

  /** The program table a PAT builds: one fresh record per program number
      holding only its PMT pid; a later entry for the same number wins. */
  function PatTable(programs: seq<PatProgram>): AtscPmt
  {
    if programs == [] then map[]
    else
      var last := programs[|programs| - 1];
      PatTable(programs[..|programs| - 1])[last.programNumber := NewAtscStream().(pmtPid := last.pid)]
  }

  /** The effect of a PAT captured on a frequency: its table is replaced. */
  function OnPat(psi: AtscPSI, frequency: uint32, programs: seq<PatProgram>): AtscPSI
  {
    psi[frequency := PatTable(programs)]
  }

  /** The table of a PAT holds exactly its program numbers, each record
      carries the PMT pid of the last entry with that number and neither a
      video nor an audio pid. */
  lemma {:induction false} PatTableSpec(programs: seq<PatProgram>)
    ensures var t := PatTable(programs);
      && (forall p :: p in t <==> exists i :: 0 <= i < |programs| && programs[i].programNumber == p)
      && (forall p :: p in t ==> t[p].videoPid == 0 && t[p].audioPid == 0)
      && (forall i :: 0 <= i < |programs| && (forall j :: i < j < |programs| ==> programs[j].programNumber != programs[i].programNumber)
            ==> t[programs[i].programNumber].pmtPid == programs[i].pid)
    decreases |programs|
  {
    if programs != [] {
      var init := programs[..|programs| - 1];
      PatTableSpec(init);
      forall i | 0 <= i < |init| ensures init[i] == programs[i] {}
    }
  }

  /** A PAT names some program exactly when its table is not empty. */
  lemma PatTableEmpty(programs: seq<PatProgram>)
    ensures |PatTable(programs)| > 0 <==> programs != []
  {
    PatTableSpec(programs);
    if programs != [] {
      var t := PatTable(programs);
      assert programs[0].programNumber in t;
      assert t != map[];
    }
  }

  /** A PAT touches no other frequency, and its records hold no stream yet. */
  lemma OnPatSpec(psi: AtscPSI, frequency: uint32, programs: seq<PatProgram>)
    ensures var r := OnPat(psi, frequency, programs);
      && r.Keys == psi.Keys + {frequency}
      && (forall f :: f in psi && f != frequency ==> r[f] == psi[f])
      && forall p :: p in r[frequency] ==> !HasAudioOrVideo(r[frequency][p])
  {
    PatTableSpec(programs);
  }

  // -------------------------------------------------------------------
  // PMT
  // -------------------------------------------------------------------

  const ISO_639_LANGUAGE_TAG: uint8 := 0x0A
  const STREAM_TYPE_VIDEO: uint8 := 0x02
  const STREAM_TYPE_AUDIO: uint8 := 0x81

  /** A descriptor of an elementary stream: its tag and, for an ISO 639
      language descriptor, what the foreign parser yields (None when it
      fails). */
  datatype PmtDescriptor = PmtDescriptor(tag: uint8, languages: Option<seq<string>>)

  datatype PmtStream = PmtStream(streamType: uint8, pid: uint16, descriptors: seq<Option<PmtDescriptor>>)

  /** The languages the walk over one descriptor visits. */
  function DescriptorLanguages(d: Option<PmtDescriptor>): seq<string>
  {
    if d.Some? && d.value.tag == ISO_639_LANGUAGE_TAG && d.value.languages.Some? then d.value.languages.value
    else []
  }

  /** Every language visited over the stream's descriptors, in order. */
  function StreamLanguages(descriptors: seq<Option<PmtDescriptor>>): seq<string>
  {
    if descriptors == [] then []
    else StreamLanguages(descriptors[..|descriptors| - 1]) + DescriptorLanguages(descriptors[|descriptors| - 1])
  }

  /** audioLan after the descriptor walk: the last language visited, or
      empty. */
  function LastLanguage(languages: seq<string>): string
  {
    if languages == [] then "" else languages[|languages| - 1]
  }

  function SetVideo(psi: AtscPSI, frequency: uint32, programNumber: uint16, pid: uint16): AtscPSI
  {
    Store(psi, frequency, programNumber, StreamAt(psi, frequency, programNumber).(videoPid := pid))
  }

  function SetAudio(psi: AtscPSI, frequency: uint32, programNumber: uint16, pid: uint16): AtscPSI
  {
    Store(psi, frequency, programNumber, StreamAt(psi, frequency, programNumber).(audioPid := pid))
  }

  /** The effect of one elementary stream of the PMT of a program. */
  function PmtStreamStep(psi: AtscPSI, frequency: uint32, programNumber: uint16, st: PmtStream): AtscPSI
  {
    var afterVideo := if st.streamType == STREAM_TYPE_VIDEO then SetVideo(psi, frequency, programNumber, st.pid) else psi;
    var languages := StreamLanguages(st.descriptors);
    var afterEng :=
      if st.streamType == STREAM_TYPE_AUDIO && "eng" in languages then SetAudio(afterVideo, frequency, programNumber, st.pid)
      else afterVideo;
    if st.streamType == STREAM_TYPE_AUDIO
      && (LastLanguage(languages) == "" || StreamAt(afterEng, frequency, programNumber).audioPid == 0)
    then SetAudio(afterEng, frequency, programNumber, st.pid)
    else afterEng
  }

  /** The effect of a PMT: its streams in order. */
  function OnPmt(psi: AtscPSI, frequency: uint32, programNumber: uint16, streams: seq<PmtStream>): AtscPSI
  {
    if streams == [] then psi
    else PmtStreamStep(OnPmt(psi, frequency, programNumber, streams[..|streams| - 1]), frequency, programNumber, streams[|streams| - 1])
  }

  lemma SetAudioTwice(psi: AtscPSI, frequency: uint32, programNumber: uint16, pid: uint16)
    ensures SetAudio(SetAudio(psi, frequency, programNumber, pid), frequency, programNumber, pid)
      == SetAudio(psi, frequency, programNumber, pid)
  {
    var st := StreamAt(psi, frequency, programNumber).(audioPid := pid);
    var q := SetAudio(psi, frequency, programNumber, pid);
    assert StreamAt(q, frequency, programNumber) == st;
    assert st.(audioPid := pid) == st;
    assert q[frequency][programNumber := st] == q[frequency];
    assert q[frequency := q[frequency]] == q;
  }

  /** One stream of a PMT: a video stream sets the program's video pid;
      an audio stream tagged "eng", without a language, or met while the
      program has no audio pid yet sets the audio pid, and any other audio
      stream leaves it; other stream types change nothing; and no other
      program is touched. */
  lemma PmtStreamStepSpec(psi: AtscPSI, frequency: uint32, programNumber: uint16, st: PmtStream)
    ensures var r := PmtStreamStep(psi, frequency, programNumber, st);
      var languages := StreamLanguages(st.descriptors);
      var before := StreamAt(psi, frequency, programNumber);
      var after := StreamAt(r, frequency, programNumber);
      && (st.streamType == STREAM_TYPE_VIDEO ==> after == before.(videoPid := st.pid))
      && (st.streamType == STREAM_TYPE_AUDIO ==>
            if "eng" in languages || LastLanguage(languages) == "" || before.audioPid == 0
            then after == before.(audioPid := st.pid)
            else r == psi)
      && (st.streamType != STREAM_TYPE_VIDEO && st.streamType != STREAM_TYPE_AUDIO ==> r == psi)
      && forall f: uint32, p: uint16 :: (f, p) != (frequency, programNumber) ==> StreamAt(r, f, p) == StreamAt(psi, f, p)
  {
    var languages := StreamLanguages(st.descriptors);
    if st.streamType == STREAM_TYPE_AUDIO && "eng" in languages {
      SetAudioTwice(psi, frequency, programNumber, st.pid);
    }
  }

  /** A PMT only ever changes the record of its own program. */
  lemma {:induction false} OnPmtTouchesOneProgram(psi: AtscPSI, frequency: uint32, programNumber: uint16, streams: seq<PmtStream>)
    ensures forall f: uint32, p: uint16 :: (f, p) != (frequency, programNumber) ==>
      StreamAt(OnPmt(psi, frequency, programNumber, streams), f, p) == StreamAt(psi, f, p)
    decreases |streams|
  {
    if streams != [] {
      var init := streams[..|streams| - 1];
      OnPmtTouchesOneProgram(psi, frequency, programNumber, init);
      PmtStreamStepSpec(OnPmt(psi, frequency, programNumber, init), frequency, programNumber, streams[|streams| - 1]);
    }
  }

  /** A PMT sets video and audio pids only: no PMT pid changes. */
  lemma {:induction false} OnPmtKeepsPmtPid(psi: AtscPSI, frequency: uint32, programNumber: uint16, streams: seq<PmtStream>)
    ensures forall f: uint32, p: uint16 ::
      StreamAt(OnPmt(psi, frequency, programNumber, streams), f, p).pmtPid == StreamAt(psi, f, p).pmtPid
    decreases |streams|
  {
    if streams != [] {
      var init := streams[..|streams| - 1];
      OnPmtKeepsPmtPid(psi, frequency, programNumber, init);
      PmtStreamStepSpec(OnPmt(psi, frequency, programNumber, init), frequency, programNumber, streams[|streams| - 1]);
    }
  }

  /** A PMT for a program already in the table creates no record: the keys
      of the table and of every program table stay as they are. */
  lemma {:induction false} OnPmtKeepsKeys(psi: AtscPSI, frequency: uint32, programNumber: uint16, streams: seq<PmtStream>)
    requires frequency in psi && programNumber in psi[frequency]
    ensures var r := OnPmt(psi, frequency, programNumber, streams);
      && r.Keys == psi.Keys
      && (forall f :: f in psi ==> r[f].Keys == psi[f].Keys)
      && (forall f :: f in psi && f != frequency ==> r[f] == psi[f])
    decreases |streams|
  {
    if streams != [] {
      OnPmtKeepsKeys(psi, frequency, programNumber, streams[..|streams| - 1]);
    }
  }

  // -------------------------------------------------------------------
  // Stream lookup
  // -------------------------------------------------------------------

  /** GetStreamInfo: found exactly when both the frequency and the program
      are in the table, and then the stored pids unchanged. */
  function StreamInfo(psi: AtscPSI, frequency: uint32, programNumber: uint16): (r: Option<AtscStream>)
    ensures r.Some? <==> frequency in psi && programNumber in psi[frequency]
    ensures r.Some? ==> r.value == StreamAt(psi, frequency, programNumber)
  {
    if frequency in psi then
      (if programNumber in psi[frequency] then Some(psi[frequency][programNumber]) else None)
    else None
  }

  // -------------------------------------------------------------------
  // Channel map and transport stream list
  // -------------------------------------------------------------------

  datatype ChannelType = Normal | Radio | Data

  datatype ChannelDetails = ChannelDetails(frequency: uint32, programNumber: uint16, channelType: ChannelType)

  datatype TSInfo = TSInfo(frequency: uint32, programNumber: uint16, audioPid: uint16, videoPid: uint16, pmtPid: uint16)

  /** One record of the table with its two keys. */
  datatype Entry = Entry(frequency: uint32, programNumber: uint16, stream: AtscStream)

  function ChannelTypeOf(s: AtscStream): (t: ChannelType)
    ensures t == Data <==> !HasAudioOrVideo(s)
    ensures t == Normal <==> s.videoPid != 0
  {
    if s.videoPid != 0 then Normal else if s.audioPid != 0 then Radio else Data
  }

  /** The records of one program table in the order std::map visits them. */
  ghost function PmtEntries(frequency: uint32, pmt: AtscPmt, programs: seq<int>): seq<Entry>
    requires forall i :: 0 <= i < |programs| ==> programs[i] in pmt
  {
    if programs == [] then []
    else [Entry(frequency, programs[0] as uint16, pmt[programs[0] as uint16])] + PmtEntries(frequency, pmt, programs[1..])
  }

  /** The records of one program table in ascending program order. */
  ghost function PmtEntriesOf(frequency: uint32, pmt: AtscPmt): seq<Entry>
  {
    AscendingSpec(pmt.Keys);
    PmtEntries(frequency, pmt, Ascending(pmt.Keys))
  }

  /** The records of the tables of the given frequencies, in that order. */
  ghost function PsiEntries(psi: AtscPSI, frequencies: seq<int>): seq<Entry>
    requires forall i :: 0 <= i < |frequencies| ==> frequencies[i] in psi
  {
    if frequencies == [] then []
    else
      var f := frequencies[0] as uint32;
      PmtEntriesOf(f, psi[f]) + PsiEntries(psi, frequencies[1..])
  }

  /** Every record of the table, in ascending (frequency, program) order. */
  ghost function AllEntries(psi: AtscPSI): seq<Entry>
  {
    AscendingSpec(psi.Keys);
    PsiEntries(psi, Ascending(psi.Keys))
  }

  function ChannelOf(e: Entry): ChannelDetails
  {
    ChannelDetails(e.frequency, e.programNumber, ChannelTypeOf(e.stream))
  }

  function TSInfoOf(e: Entry): TSInfo
  {
    TSInfo(e.frequency, e.programNumber, e.stream.audioPid, e.stream.videoPid, e.stream.pmtPid)
  }

  /** The channels of the records that carry audio or video. */
  function Channels(es: seq<Entry>): seq<ChannelDetails>
  {
    if es == [] then []
    else (if ChannelTypeOf(es[0].stream) != Data then [ChannelOf(es[0])] else []) + Channels(es[1..])
  }

  /** The TS infos of the records that carry audio or video. */
  function TSInfos(es: seq<Entry>): seq<TSInfo>
  {
    if es == [] then []
    else (if es[0].stream.audioPid != 0 || es[0].stream.videoPid != 0 then [TSInfoOf(es[0])] else []) + TSInfos(es[1..])
  }

  ghost function ChannelMapOf(psi: AtscPSI): seq<ChannelDetails>
  {
    Channels(AllEntries(psi))
  }

  ghost function TSInfoListOf(psi: AtscPSI): seq<TSInfo>
  {
    TSInfos(AllEntries(psi))
  }

  lemma ChannelsAppend(a: seq<Entry>, b: seq<Entry>)
    ensures Channels(a + b) == Channels(a) + Channels(b)
  {
    if a != [] {
      assert (a + b)[1..] == a[1..] + b;
      ChannelsAppend(a[1..], b);
    } else {
      assert a + b == b;
    }
  }

  lemma TSInfosAppend(a: seq<Entry>, b: seq<Entry>)
    ensures TSInfos(a + b) == TSInfos(a) + TSInfos(b)
  {
    if a != [] {
      assert (a + b)[1..] == a[1..] + b;
      TSInfosAppend(a[1..], b);
    } else {
      assert a + b == b;
    }
  }

  function ChannelKeys(cs: seq<ChannelDetails>): seq<(uint32, uint16)>
  {
    if cs == [] then [] else [(cs[0].frequency, cs[0].programNumber)] + ChannelKeys(cs[1..])
  }

  function TSInfoKeys(ts: seq<TSInfo>): seq<(uint32, uint16)>
  {
    if ts == [] then [] else [(ts[0].frequency, ts[0].programNumber)] + TSInfoKeys(ts[1..])
  }

  /** The channel map and the TS info list name the same programs in the
      same order. */
  lemma {:induction false} SameKeys(es: seq<Entry>)
    ensures ChannelKeys(Channels(es)) == TSInfoKeys(TSInfos(es))
    decreases |es|
  {
    if es != [] {
      SameKeys(es[1..]);
      var c := if ChannelTypeOf(es[0].stream) != Data then [ChannelOf(es[0])] else [];
      var t := if es[0].stream.audioPid != 0 || es[0].stream.videoPid != 0 then [TSInfoOf(es[0])] else [];
      ChannelKeysAppend(c, Channels(es[1..]));
      TSInfoKeysAppend(t, TSInfos(es[1..]));
    }
  }

  lemma ChannelKeysAppend(a: seq<ChannelDetails>, b: seq<ChannelDetails>)
    ensures ChannelKeys(a + b) == ChannelKeys(a) + ChannelKeys(b)
  {
    if a != [] {
      assert (a + b)[1..] == a[1..] + b;
      ChannelKeysAppend(a[1..], b);
    } else {
      assert a + b == b;
    }
  }

  lemma TSInfoKeysAppend(a: seq<TSInfo>, b: seq<TSInfo>)
    ensures TSInfoKeys(a + b) == TSInfoKeys(a) + TSInfoKeys(b)
  {
    if a != [] {
      assert (a + b)[1..] == a[1..] + b;
      TSInfoKeysAppend(a[1..], b);
    } else {
      assert a + b == b;
    }
  }

  lemma ChannelMapMatchesTSInfo(psi: AtscPSI)
    ensures ChannelKeys(ChannelMapOf(psi)) == TSInfoKeys(TSInfoListOf(psi))
  {
    SameKeys(AllEntries(psi));
  }

  // Order and membership of the records

  predicate Before(a: Entry, b: Entry)
  {
    a.frequency < b.frequency || (a.frequency == b.frequency && a.programNumber < b.programNumber)
  }

  predicate EntriesAscending(es: seq<Entry>)
  {
    forall i, j :: 0 <= i < j < |es| ==> Before(es[i], es[j])
  }

  predicate StoredIn(psi: AtscPSI, e: Entry)
  {
    e.frequency in psi && e.programNumber in psi[e.frequency] && e.stream == psi[e.frequency][e.programNumber]
  }

  lemma {:induction false} PmtEntriesSpec(frequency: uint32, pmt: AtscPmt, programs: seq<int>)
    requires forall i :: 0 <= i < |programs| ==> programs[i] in pmt
    requires StrictlyIncreasing(programs)
    ensures var es := PmtEntries(frequency, pmt, programs);
      && EntriesAscending(es)
      && (forall e :: e in es <==> e.frequency == frequency && e.programNumber as int in programs && e.stream == pmt[e.programNumber])
    decreases |programs|
  {
    if programs != [] {
      var rest := programs[1..];
      PmtEntriesSpec(frequency, pmt, rest);
      var es := PmtEntries(frequency, pmt, programs);
      forall i, j | 0 <= i < j < |es| ensures Before(es[i], es[j]) {
        if i == 0 {
          assert es[j] in PmtEntries(frequency, pmt, rest);
          assert es[j].programNumber as int in rest;
        } else {
          assert es[i] == PmtEntries(frequency, pmt, rest)[i - 1];
          assert es[j] == PmtEntries(frequency, pmt, rest)[j - 1];
        }
      }
    }
  }

  lemma {:induction false} PsiEntriesMembers(psi: AtscPSI, frequencies: seq<int>)
    requires forall i :: 0 <= i < |frequencies| ==> frequencies[i] in psi
    requires StrictlyIncreasing(frequencies)
    ensures forall e :: e in PsiEntries(psi, frequencies) <==> e.frequency as int in frequencies && StoredIn(psi, e)
    decreases |frequencies|
  {
    if frequencies != [] {
      var f := frequencies[0] as uint32;
      var rest := frequencies[1..];
      AscendingSpec(psi[f].Keys);
      PmtEntriesSpec(f, psi[f], Ascending(psi[f].Keys));
      PsiEntriesMembers(psi, rest);
      assert PsiEntries(psi, frequencies) == PmtEntriesOf(f, psi[f]) + PsiEntries(psi, rest);
    }
  }

  lemma ConcatAscending(head: seq<Entry>, tail: seq<Entry>)
    requires EntriesAscending(head) && EntriesAscending(tail)
    requires forall a, b :: a in head && b in tail ==> Before(a, b)
    ensures EntriesAscending(head + tail)
  {
    var es := head + tail;
    forall i, j | 0 <= i < j < |es| ensures Before(es[i], es[j]) {
      if i < |head| && j >= |head| {
        assert es[i] in head && es[j] == tail[j - |head|];
      } else if i >= |head| {
        assert es[i] == tail[i - |head|] && es[j] == tail[j - |head|];
      }
    }
  }

  lemma {:induction false} PsiEntriesAscending(psi: AtscPSI, frequencies: seq<int>)
    requires forall i :: 0 <= i < |frequencies| ==> frequencies[i] in psi
    requires StrictlyIncreasing(frequencies)
    ensures EntriesAscending(PsiEntries(psi, frequencies))
    decreases |frequencies|
  {
    if frequencies != [] {
      var f := frequencies[0] as uint32;
      var rest := frequencies[1..];
      AscendingSpec(psi[f].Keys);
      var head := PmtEntries(f, psi[f], Ascending(psi[f].Keys));
      PmtEntriesSpec(f, psi[f], Ascending(psi[f].Keys));
      PsiEntriesAscending(psi, rest);
      PsiEntriesMembers(psi, rest);
      var tail := PsiEntries(psi, rest);
      assert PsiEntries(psi, frequencies) == head + tail;
      forall a, b | a in head && b in tail ensures Before(a, b) {
        assert b.frequency as int in rest;
        var k :| 0 <= k < |rest| && rest[k] == b.frequency as int;
        assert frequencies[k + 1] == rest[k];
      }
      ConcatAscending(head, tail);
    }
  }

  lemma AllEntriesSpec(psi: AtscPSI)
    ensures var es := AllEntries(psi);
      && EntriesAscending(es)
      && forall e :: e in es <==> StoredIn(psi, e)
  {
    AscendingSpec(psi.Keys);
    PsiEntriesMembers(psi, Ascending(psi.Keys));
    PsiEntriesAscending(psi, Ascending(psi.Keys));
  }

  predicate Shown(es: seq<Entry>, c: ChannelDetails)
  {
    exists e :: e in es && HasAudioOrVideo(e.stream) && c == ChannelOf(e)
  }

  lemma {:induction false} ChannelsMembers(es: seq<Entry>)
    ensures forall c :: c in Channels(es) <==> Shown(es, c)
    decreases |es|
  {
    if es != [] {
      var rest := es[1..];
      ChannelsMembers(rest);
      var head := if ChannelTypeOf(es[0].stream) != Data then [ChannelOf(es[0])] else [];
      assert Channels(es) == head + Channels(rest);
      forall c ensures c in Channels(es) <==> Shown(es, c) {
        if Shown(rest, c) {
          var e :| e in rest && HasAudioOrVideo(e.stream) && c == ChannelOf(e);
          assert e in es;
        }
        if Shown(es, c) {
          var e :| e in es && HasAudioOrVideo(e.stream) && c == ChannelOf(e);
          if e != es[0] {
            var k :| 0 <= k < |es| && es[k] == e;
            assert rest[k - 1] == e;
            assert Shown(rest, c);
          }
        }
      }
    }
  }

  predicate ChannelsAscending(cs: seq<ChannelDetails>)
  {
    forall i, j :: 0 <= i < j < |cs| ==>
      cs[i].frequency < cs[j].frequency || (cs[i].frequency == cs[j].frequency && cs[i].programNumber < cs[j].programNumber)
  }

  lemma {:induction false} ChannelsInOrder(es: seq<Entry>)
    requires EntriesAscending(es)
    ensures ChannelsAscending(Channels(es))
    decreases |es|
  {
    if es != [] {
      var rest := es[1..];
      ChannelsInOrder(rest);
      ChannelsMembers(rest);
      var tail := Channels(rest);
      var cs := Channels(es);
      if HasAudioOrVideo(es[0].stream) {
        assert cs == [ChannelOf(es[0])] + tail;
        forall j | 0 < j < |cs|
          ensures cs[0].frequency < cs[j].frequency || (cs[0].frequency == cs[j].frequency && cs[0].programNumber < cs[j].programNumber)
        {
          assert cs[j] == tail[j - 1];
          assert Shown(rest, cs[j]);
          var e :| e in rest && HasAudioOrVideo(e.stream) && cs[j] == ChannelOf(e);
          var k :| 0 <= k < |rest| && rest[k] == e;
          assert es[k + 1] == e;
        }
        forall i, j | 0 < i < j < |cs|
          ensures cs[i].frequency < cs[j].frequency || (cs[i].frequency == cs[j].frequency && cs[i].programNumber < cs[j].programNumber)
        {
          assert cs[i] == tail[i - 1] && cs[j] == tail[j - 1];
        }
      } else {
        assert cs == tail;
      }
    }
  }

  /** The channel map lists a channel exactly for every record with a video
      or an audio pid, typed Normal when there is a video pid and Radio
      otherwise, in strictly ascending (frequency, program) order. */
  lemma ChannelMapSpec(psi: AtscPSI)
    ensures ChannelsAscending(ChannelMapOf(psi))
    ensures forall f: uint32, p: uint16, t: ChannelType :: ChannelDetails(f, p, t) in ChannelMapOf(psi) <==>
      f in psi && p in psi[f] && HasAudioOrVideo(psi[f][p]) && t == ChannelTypeOf(psi[f][p])
  {
    AllEntriesSpec(psi);
    ChannelsInOrder(AllEntries(psi));
    ChannelsMembers(AllEntries(psi));
    forall f: uint32, p: uint16, t: ChannelType
      ensures ChannelDetails(f, p, t) in ChannelMapOf(psi) <==>
        f in psi && p in psi[f] && HasAudioOrVideo(psi[f][p]) && t == ChannelTypeOf(psi[f][p])
    {
      if f in psi && p in psi[f] && HasAudioOrVideo(psi[f][p]) && t == ChannelTypeOf(psi[f][p]) {
        var e := Entry(f, p, psi[f][p]);
        assert StoredIn(psi, e);
        assert ChannelDetails(f, p, t) == ChannelOf(e);
        assert Shown(AllEntries(psi), ChannelDetails(f, p, t));
      }
      if ChannelDetails(f, p, t) in ChannelMapOf(psi) {
        assert Shown(AllEntries(psi), ChannelDetails(f, p, t));
        var e :| e in AllEntries(psi) && HasAudioOrVideo(e.stream) && ChannelDetails(f, p, t) == ChannelOf(e);
        assert StoredIn(psi, e);
      }
    }
  }

  /** Right after a PAT no program of that frequency is a channel: its
      records carry only PMT pids until the PMTs arrive. */
  lemma PatOnlyNoChannels(psi: AtscPSI, frequency: uint32, programs: seq<PatProgram>, p: uint16, t: ChannelType)
    ensures ChannelDetails(frequency, p, t) !in ChannelMapOf(OnPat(psi, frequency, programs))
  {
    OnPatSpec(psi, frequency, programs);
    ChannelMapSpec(OnPat(psi, frequency, programs));
  }
}
