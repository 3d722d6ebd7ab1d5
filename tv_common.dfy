/** The value types and constants shared by the Linux TV platform: the pid
    and table id constants, the per-program stream record and the two map
    types that make up the PSI table. */
module TvCommon {
  import opened Common

  /** How many adapters, and how many frontends per adapter, are probed. */
  const DVB_ADAPTER_SCAN: nat := 6

  // PidType
  const PID_PAT: uint16 := 0x0000
  const PID_VCT: uint16 := 0x1FFB

  // TableId
  const TABLE_PAT: uint8 := 0x00
  const TABLE_PMT: uint8 := 0x02
  const TABLE_VCT_TERR: uint8 := 0xC8
  const TABLE_VCT_CABLE: uint8 := 0xC9

  /** AtscStream: the pids of one program. */
  datatype AtscStream = AtscStream(pmtPid: uint16, audioPid: uint16, videoPid: uint16)

  /** What the default constructor leaves: no pid at all. */
  function NewAtscStream(): (s: AtscStream)
    ensures !HasAudioOrVideo(s) && s.pmtPid == 0
  {
    AtscStream(0, 0, 0)
  }

  predicate HasAudioOrVideo(s: AtscStream)
  {
    s.videoPid != 0 || s.audioPid != 0
  }

  /** AtscPmt: the streams of one transport stream by program number. */
  type AtscPmt = map<uint16, AtscStream>

  /** AtscPSI: the program tables by frequency. */
  type AtscPSI = map<uint32, AtscPmt>

  /** The stream operator[] yields: the stored one, or a fresh one. */
  function StreamAt(psi: AtscPSI, frequency: uint32, programNumber: uint16): AtscStream
  {
    if frequency in psi && programNumber in psi[frequency] then psi[frequency][programNumber]
    else NewAtscStream()
  }

  /** psi[frequency][programNumber] = stream: the entries on the path are
      created as needed and nothing else changes. */
  function Store(psi: AtscPSI, frequency: uint32, programNumber: uint16, stream: AtscStream): (r: AtscPSI)
  {
    var pmt := if frequency in psi then psi[frequency] else map[];
    psi[frequency := pmt[programNumber := stream]]
  }

  /** Storing at one place is seen there, creates that entry and no other,
      and leaves every other stream as it was: the map shape gives at most
      one table per frequency and one stream per program. */
  lemma StoreSpec(psi: AtscPSI, frequency: uint32, programNumber: uint16, stream: AtscStream)
    ensures var r := Store(psi, frequency, programNumber, stream);
      && r.Keys == psi.Keys + {frequency}
      && r[frequency].Keys == (if frequency in psi then psi[frequency].Keys else {}) + {programNumber}
      && StreamAt(r, frequency, programNumber) == stream
      && forall f: uint32, p: uint16 :: (f, p) != (frequency, programNumber) ==> StreamAt(r, f, p) == StreamAt(psi, f, p)
  {
  }
}
