# ATSC PSIP parser and Linux TV tuner platform, modelled in Dafny

This project models the Linux side of the TVControl plugin:

- **The ATSC PSIP parser** (`ParserATSC`). It takes the MGT, STT, VCT and EIT sections the tuner captures. From them it builds the channel and programme rows of the EPG database, sets the system clock, and walks the EIT pids of the MGT one after the other. Its `FrequencyHandler` retunes to the next frequency round robin.
- **The tuner backend** (`SourceBackend`). It runs one section filter session over a set of pids and decodes PAT and PMT sections into a PSI table that all backends share. It also scans a list of frequencies, tunes to a program, and reads the channel map and transport stream list back out of the table.
- **The platform object** (`TVPlatformImplementation`). It probes the DVB frontends once, makes one tuner per frontend that opens, and sends every request to either the streaming tuner or the filtering tuner.

Each stateful C++ class is a Dafny `class` with the same fields. Each state-changing method is proved to move the class's state, read through `State()`, the way a function of the same name does on a state value:

- the parser follows module `PsipState`;
- the backend follows module `SourceState`.

The properties the code promises are proved as lemmas about those functions, for example:

- how the EIT section bookkeeping tracks arrivals;
- what a scan leaves in the table and the frequency list;
- when a tune succeeds;
- the order and content of the channel map.

Byte-level decoders are modelled as functions, with round-trip lemmas against the matching encoders:

- the multiple string structure;
- the caption service and service location lookups;
- the section envelope between backend and parser.

The loops that read them are methods, each proved equal to its function.

Outside code is reduced to values:

- GStreamer, the DVB frontends, the EPG database, the clock and the foreign section decoders are not modelled as code;
- decoded tables come in as datatypes;
- what a main loop captures is an argument;
- the database rows, clock settings, filter requests and tuner handler notifications are logs in the state;
- text decoding is a function parameter `decode`.

Where the code and its layout disagree, the model follows the code:

- In `ParserATSC::ParseData`, the STT case requests an EIT pid whenever the MGT has been parsed, whatever the indentation under `if (!_isTimeParsed)` suggests.
- Functions that fall off their end without a `return` (`StartFilter`, `StopFilter`, `StopFilters`, and the platform's getters without a tuner) yield `FellOffEnd` (or `None`), not a made-up code.

## Model

| member | source | states |
|---|---|---|
| `AtscCommon.AtscTimeIsOffset` | TVControl/TableData/Parser/ATSC/ParserATSCCommon.h:8-13 | Below GPS second 2^32 - GPS_EPOCH the conversion adds the GPS epoch 315964800. |
| `AtscCommon.AtscTimeMonotone` | TVControl/TableData/Parser/ATSC/ParserATSCCommon.h:10-13 | In that range later GPS times give strictly later Unix times. |
| `AtscCommon.AtscTimeWraps` | TVControl/TableData/Parser/ATSC/ParserATSCCommon.h:10-13 | From that point on, the unsigned 32-bit sum wraps to a time before 1980. |
| `AtscCommon.GpsZeroIsGpsEpochDate` | TVControl/TableData/Parser/ATSC/ParserATSCCommon.h:8 | GPS second 0 is Unix midnight of 1980-01-06, checked against an independent civil calendar. |
| `AtscCommon.Chars` | TVControl/TableData/Parser/ATSC/ParserATSCCommon.h:33-34 | Language bytes become characters one for one, with the same codes. |
| `AtscCommon.CaptionLanguageBytes` | TVControl/TableData/Parser/ATSC/ParserATSCCommon.h:33-34 | The language of a caption service record is exactly 3 bytes. |
| `AtscCommon.CaptionServiceIdx` | TVControl/TableData/Parser/ATSC/ParserATSCCommon.h:27-37 | The lookup succeeds exactly when idx < length / 6. It then yields the record's 3 language bytes; otherwise it leaves the caller's language as it was. |
| `AtscCommon.LocationRecord` | TVControl/TableData/Parser/ATSC/ParserATSCCommon.h:46-50 | An element record the guard accepts is 6 bytes inside the descriptor. |
| `AtscCommon.ServiceLocationIdx` | TVControl/TableData/Parser/ATSC/ParserATSCCommon.h:40-58 | Found exactly when idx < length / 6. Then: the stream type is byte 0; the pid is the big-endian 16-bit field masked to 9 bits (0x01ff), so at most 511; the language is the last 3 bytes. |
| `AtscCommon.Segments` | TVControl/TableData/Parser/ATSC/ParserATSCCommon.h:99-126 | Reading n segments gives n segments and an end position inside the data. |
| `AtscCommon.Strings` | TVControl/TableData/Parser/ATSC/ParserATSCCommon.h:75-131 | Reading n strings gives n strings and an end position inside the data. |
| `AtscCommon.ParseMultString` | TVControl/TableData/Parser/ATSC/ParserATSCCommon.h:61-135 | The cursor-walking parser returns exactly the reference reading: null for size 0 and at the first header or payload that does not fit. |
| `AtscCommon.ParseSegments` | TVControl/TableData/Parser/ATSC/ParserATSCCommon.h:99-126 | The inner segment loop returns the reference reading of the segments, with the cursor after them. |
| `AtscCommon.SegmentsConsumeTheirBytes` | TVControl/TableData/Parser/ATSC/ParserATSCCommon.h:99-126 | The segments read re-encode to exactly the bytes consumed. |
| `AtscCommon.StringsConsumeTheirBytes` | TVControl/TableData/Parser/ATSC/ParserATSCCommon.h:75-131 | The strings read re-encode to exactly the bytes consumed. |
| `AtscCommon.MultStringShape` | TVControl/TableData/Parser/ATSC/ParserATSCCommon.h:61-135 | On success there are num_strings strings, and the count byte followed by their encoding is a prefix of the input. |
| `AtscCommon.SegmentsReadEncoding` | TVControl/TableData/Parser/ATSC/ParserATSCCommon.h:99-126 | Encoded segments read back as themselves. |
| `AtscCommon.StringsReadEncoding` | TVControl/TableData/Parser/ATSC/ParserATSCCommon.h:75-131 | Encoded strings read back as themselves. |
| `AtscCommon.MultStringRoundTrip` | TVControl/TableData/Parser/ATSC/ParserATSCCommon.h:61-135 | Round trip: a count byte and encodable strings read back as those strings, whatever follows. |
| `AtscCommon.MultStringOfEmpty` | TVControl/TableData/Parser/ATSC/ParserATSCCommon.h:63-68 | Size 0 yields null. |
| `AtscCommon.ShortStringHeaderFails` | TVControl/TableData/Parser/ATSC/ParserATSCCommon.h:80-85 | A string header that does not fit makes the whole parse null. |
| `Common.Decimal` | TVControl/TVPlatform/LinuxTV/SourceBackend.cpp:209-210 | std::to_string of a non-negative value is a non-empty string of digits. |
| `Common.DecimalRoundTrip` | TVControl/TVPlatform/LinuxTV/SourceBackend.cpp:209-210 | The decimal text of n reads back as n. |
| `Common.AscendingSpec` | TVControl/TVPlatform/LinuxTV/SourceBackend.cpp:209 | The iteration order of a std::set is strictly increasing and holds exactly the set's members. |
| `Common.AscendingOf` | TVControl/TVPlatform/LinuxTV/SourceBackend.cpp:209 | The loop that takes the least remaining element yields the ascending order of the set. |
| `Common.SeparatedRoundTrip` | TVControl/TVPlatform/LinuxTV/SourceBackend.cpp:416-420 | Values in decimal joined by ':' read back field by field as the values. |
| `Common.TerminatedRoundTrip` | TVControl/TVPlatform/LinuxTV/SourceBackend.cpp:208-210 | Values each followed by ':' in decimal read back as the values. |
| `Common.JoinedSeparators` | TVControl/TableData/Parser/ATSC/ParserATSC.cpp:333-337 | Joining n parts that hold no separator puts exactly n - 1 separators in. |
| `Common.NoTrailingSeparator` | TVControl/TableData/Parser/ATSC/ParserATSC.cpp:333-337 | A join whose last part is non-empty and free of the separator does not end with the separator. |
| `Envelope.LittleEndianRoundTrip` | TVControl/TVPlatform/LinuxTV/SourceBackend.cpp:169-170 | A value written in width bytes least significant first reads back as itself. |
| `Envelope.WriteEnvelope` | TVControl/TVPlatform/LinuxTV/SourceBackend.cpp:166-171 | The envelope is exactly BUFFER_SIZE bytes: the two header fields and the copied struct bytes up to the buffer's end. |
| `Envelope.EnvelopeRoundTrip` | TVControl/TVPlatform/LinuxTV/SourceBackend.cpp:166-171 | The parser reads back the frequency and length the backend wrote, and finds at DATA_OFFSET the struct bytes that the copy leaves inside the buffer. |
| `TvCommon.NewAtscStream` | TVControl/TVPlatform/LinuxTV/TVCommon.h:148-153 | A new stream has no pid at all. |
| `TvCommon.StoreSpec` | TVControl/TVPlatform/LinuxTV/TVCommon.h:159-161 | `psi[f][p] = s` creates just the entries on its path, is seen there, and leaves every other stream alone. |
| `ParserText.LastCaptionLanguage` | TVControl/TableData/Parser/ATSC/ParserATSC.cpp:421-426 | The caption language has 3 characters, or none when the descriptor holds no record. |
| `ParserText.ParseCaptionServiceDescriptor` | TVControl/TableData/Parser/ATSC/ParserATSC.cpp:421-426 | Looking up 0, 1, 2, ... until a lookup fails leaves the language of the last record. |
| `ParserText.LocationElements` | TVControl/TableData/Parser/ATSC/ParserATSC.cpp:360 | Gives the first n elements the lookup yields, each equal to its lookup. |
| `ParserText.ParseServiceLocationDescriptor` | TVControl/TableData/Parser/ATSC/ParserATSC.cpp:352-376 | The loop leaves exactly the info of the reference reading. |
| `ParserText.CollectAllSpec` | TVControl/TableData/Parser/ATSC/ParserATSC.cpp:360-375 | The info keeps the first AUDIO_CHAN_MAX audio elements, in order, with pids and languages. It keeps the video pid of the last video element, or the old one when there is none. |
| `ParserText.ServiceLocationBounds` | TVControl/TableData/Parser/ATSC/ParserATSC.cpp:366 | Never more than 32 audio entries. Every audio pid is at most 511. |
| `ParserText.CollectAudioIgnoresVideo` | TVControl/TableData/Parser/ATSC/ParserATSC.cpp:326-332 | The audio entries do not depend on the video pid carried in. |
| `ParserText.LanguagesIgnoreInfo` | TVControl/TableData/Parser/ATSC/ParserATSC.cpp:326-337 | A descriptor's languages do not depend on the info threaded through earlier descriptors. |
| `ParserText.SourceLanguageOf` | TVControl/TableData/Parser/ATSC/ParserATSC.cpp:325-343 | The descriptor walk of one VCT source builds exactly the reference language string. |
| `ParserText.AppendJoined` | TVControl/TableData/Parser/ATSC/ParserATSC.cpp:333-337 | The inner loop appends the languages joined by ',', with none after the last. |
| `ParserText.JoinedSplit` | TVControl/TableData/Parser/ATSC/ParserATSC.cpp:333-337 | The text after a languages, followed by the join of the rest, is the whole join. |
| `ParserText.SourceLanguageStep` | TVControl/TableData/Parser/ATSC/ParserATSC.cpp:327-343 | Each further descriptor adds its languages only when it is a service location descriptor. |
| `ParserText.OneDescriptorLanguage` | TVControl/TableData/Parser/ATSC/ParserATSC.cpp:333-337 | One descriptor with n >= 1 audio languages gives n - 1 commas and no trailing comma. |
| `ParserText.ATSCTextDecode` | TVControl/TableData/Parser/ATSC/ParserATSC.cpp:428-442 | The text is the decoding of the very last segment, or "" when there is none. |
| `ParserText.LastStringDecides` | TVControl/TableData/Parser/ATSC/ParserATSC.cpp:436-439 | A final string with segments decides the text alone. Each segment replaces the text; it is not appended. |
| `ParserText.EmptyStringKeepsText` | TVControl/TableData/Parser/ATSC/ParserATSC.cpp:432-440 | A final string without segments leaves the text unchanged. |
| `ParserText.RegionAt` | TVControl/TableData/Parser/ATSC/ParserATSC.cpp:456-462 | A rating region that reads moves strictly forward and stays inside the data. |
| `ParserText.Regions` | TVControl/TableData/Parser/ATSC/ParserATSC.cpp:455-463 | k regions that read give k descriptions. |
| `ParserText.RegionChain` | TVControl/TableData/Parser/ATSC/ParserATSC.cpp:455-463 | Region i starts where region i - 1 ends. |
| `ParserText.ParseContentAdvisoryDescriptor` | TVControl/TableData/Parser/ATSC/ParserATSC.cpp:444-466 | The walk returns the reference rating: the text of the last region's description. |
| `ParserText.ReadRegion` | TVControl/TableData/Parser/ATSC/ParserATSC.cpp:456-462 | One pass reads exactly the region at p and returns where the next one starts. |
| `ParserText.AdvisoryRatingOfOne` | TVControl/TableData/Parser/ATSC/ParserATSC.cpp:455-463 | With one region, the rating is that region's text. |
| `ParserText.NoRegionsNoRating` | TVControl/TableData/Parser/ATSC/ParserATSC.cpp:451-455 | rating_region_count 0 (low 6 bits) rates "". |
| `ParserText.EventDescriptors` | TVControl/TableData/Parser/ATSC/ParserATSC.cpp:397-413 | The loop leaves the rating of the last content advisory descriptor and the language of the last caption descriptor. |
| `ParserText.CaptionAfterKeepsRating` | TVControl/TableData/Parser/ATSC/ParserATSC.cpp:401-408 | A later caption descriptor does not disturb the rating and alone sets the caption language. |
| `PsiTable.PatTableSpec` | TVControl/TVPlatform/LinuxTV/SourceBackend.cpp:101-118 | The table of a PAT holds exactly its program numbers. Each has the PMT pid of its last entry and no video or audio pid. |
| `PsiTable.PatTableEmpty` | TVControl/TVPlatform/LinuxTV/SourceBackend.cpp:106-114 | The table is non-empty exactly when the PAT names a program. |
| `PsiTable.OnPatSpec` | TVControl/TVPlatform/LinuxTV/SourceBackend.cpp:114 | A PAT replaces only its own frequency's table, and that table holds no stream yet. |
| `PsiTable.SetAudioTwice` | TVControl/TVPlatform/LinuxTV/SourceBackend.cpp:142 | Setting the same audio pid again changes nothing. |
| `PsiTable.PmtStreamStepSpec` | TVControl/TVPlatform/LinuxTV/SourceBackend.cpp:125-155 | A video stream sets the video pid. An audio stream tagged "eng", or with no language, or met while the program has no audio pid, sets the audio pid; any other audio stream leaves the table alone. Other types change nothing, and no other program is touched. |
| `PsiTable.OnPmtTouchesOneProgram` | TVControl/TVPlatform/LinuxTV/SourceBackend.cpp:121-159 | A PMT changes only the record of its own program. |
| `PsiTable.OnPmtKeepsPmtPid` | TVControl/TVPlatform/LinuxTV/SourceBackend.cpp:121-159 | A PMT never changes any PMT pid. |
| `PsiTable.OnPmtKeepsKeys` | TVControl/TVPlatform/LinuxTV/SourceBackend.cpp:121-159 | A PMT for a known program creates no key at either level. |
| `PsiTable.StreamInfo` | TVControl/TVPlatform/LinuxTV/SourceBackend.cpp:488-508 | Found exactly when both keys are present, and then it is the stored stream. |
| `PsiTable.ChannelTypeOf` | TVControl/TVPlatform/LinuxTV/SourceBackend.cpp:296-301 | Data exactly when there is no video or audio pid. Normal exactly when there is a video pid. |
| `PsiTable.SameKeys` | TVControl/TVPlatform/LinuxTV/SourceBackend.cpp:287-307 | The channel map and the TS info list name the same programs in the same order. |
| `PsiTable.ChannelMapMatchesTSInfo` | TVControl/TVPlatform/LinuxTV/SourceBackend.cpp:519-542 | The same holds for the whole table. |
| `PsiTable.PmtEntriesSpec` | TVControl/TVPlatform/LinuxTV/SourceBackend.cpp:292-304 | Walking a program table in ascending program order gives its records, ascending, each exactly once. |
| `PsiTable.PsiEntriesMembers` | TVControl/TVPlatform/LinuxTV/SourceBackend.cpp:290-305 | Walking the frequencies gives exactly the records stored under them. |
| `PsiTable.PsiEntriesAscending` | TVControl/TVPlatform/LinuxTV/SourceBackend.cpp:290-305 | Walking ascending frequencies gives the records in ascending (frequency, program) order. |
| `PsiTable.AllEntriesSpec` | TVControl/TVPlatform/LinuxTV/SourceBackend.cpp:290-292 | The nested std::map walk visits every stored record once, in ascending (frequency, program) order. |
| `PsiTable.ChannelsMembers` | TVControl/TVPlatform/LinuxTV/SourceBackend.cpp:302-303 | A channel is listed exactly for each record that carries audio or video. |
| `PsiTable.ChannelsInOrder` | TVControl/TVPlatform/LinuxTV/SourceBackend.cpp:290-305 | Records in ascending order give channels in strictly ascending order. |
| `PsiTable.ChannelMapSpec` | TVControl/TVPlatform/LinuxTV/SourceBackend.cpp:287-307 | The channel map lists (f, p, t) exactly when record p of f has audio or video and t is its type. It is strictly ascending. |
| `PsiTable.PatOnlyNoChannels` | TVControl/TVPlatform/LinuxTV/SourceBackend.cpp:106-114 | Right after a PAT, no program of that frequency is a channel. |
| `PsipState.Initial` | TVControl/TableData/Parser/ATSC/ParserATSC.cpp:10-27 | The constructor's state has no pids, no pending sets, no channels and no flag set. |
| `PsipState.PushEitStartRequestSpec` | TVControl/TableData/Parser/ATSC/ParserATSC.cpp:226-233 | An empty pid list is a no-op. Otherwise the index is reduced modulo the list length and exactly that pid is requested. |
| `PsipState.MgtPidsSpec` | TVControl/TableData/Parser/ATSC/ParserATSC.cpp:285-293 | The list keeps its pids in place and stays duplicate free. It gains exactly the pids of EIT tables (types 0x0100-0x017F). |
| `PsipState.NonEitTablesIgnored` | TVControl/TableData/Parser/ATSC/ParserATSC.cpp:288 | Other table types leave the list alone. |
| `PsipState.SttTimeIsUtc` | TVControl/TableData/Parser/ATSC/ParserATSC.cpp:266-267 | Without wrap-around, the clock is set to system_time - gps_utc_offset + GPS epoch. |
| `PsipState.LogicalChannelNumberRoundTrip` | TVControl/TableData/Parser/ATSC/ParserATSC.cpp:313-316 | "major.minor" splits at its '.' back into major and minor. |
| `PsipState.ChannelRecordsSpec` | TVControl/TableData/Parser/ATSC/ParserATSC.cpp:310-348 | A row is inserted for every source whose program_number is not 0, and only for those. Every row has the section's frequency and a source id of the VCT. |
| `PsipState.ChannelSetIdempotent` | TVControl/TableData/Parser/ATSC/ParserATSC.cpp:323 | Parsing the same VCT twice leaves the channel set as after once. |
| `PsipState.SectionRange` | TVControl/TableData/Parser/ATSC/ParserATSC.cpp:190-191 | The seeded sections are exactly 0..last_section_number. |
| `PsipState.EventRecordsStep` | TVControl/TableData/Parser/ATSC/ParserATSC.cpp:381-417 | Each further event appends its row. |
| `PsipState.EventRecordsSpec` | TVControl/TableData/Parser/ATSC/ParserATSC.cpp:378-419 | One row per event, in order. Each has the 8-bit source id, the event id, the start time converted from GPS, the duration and the decoded title. |
| `PsipState.EmptyPendingIgnored` | TVControl/TableData/Parser/ATSC/ParserATSC.cpp:192-194 | A section of a source whose pending set is empty changes nothing. |
| `PsipState.EitPendingStepSpec` | TVControl/TableData/Parser/ATSC/ParserATSC.cpp:189-197 | On first sight the set becomes 0..last without the section's number. Later sections only remove their number. Other sources are untouched. |
| `PsipState.PendingTracksSeen` | TVControl/TableData/Parser/ATSC/ParserATSC.cpp:189-197 | Whatever the order of arrival or repetitions, the set is the first section's range minus every number seen. |
| `PsipState.CompleteEitPidSpec` | TVControl/TableData/Parser/ATSC/ParserATSC.cpp:204-214 | Completion reports EitBroadcasted, clears every pending set and advances the index. It then requests the next pid of the list, unless the list is through. |
| `PsipState.NextEitPidSpec` | TVControl/TableData/Parser/ATSC/ParserATSC.cpp:207-212 | Past the end nothing is filtered. Otherwise exactly the wrapped pid is requested. |
| `PsipState.FrequencyChangeResets` | TVControl/TableData/Parser/ATSC/ParserATSC.cpp:141-150 | A section of another frequency empties the pid list, the pending sets and the channel set, zeroes the index and records the frequency. Nothing else changes. |
| `PsipState.SameFrequencyKeepsTables` | TVControl/TableData/Parser/ATSC/ParserATSC.cpp:141-150 | A null section on the same frequency changes nothing. |
| `PsipState.EverySttPushesEitStart` | TVControl/TableData/Parser/ATSC/ParserATSC.cpp:168-173 | Once the time is parsed and the MGT is known, every further STT still requests an EIT pid. |
| `PsipState.SttSetsClockOnce` | TVControl/TableData/Parser/ATSC/ParserATSC.cpp:169-170 | Once the time is parsed, an STT does not set the clock again. |
| `PsipState.FlagsSurvive` | TVControl/TableData/Parser/ATSC/ParserATSC.cpp:139-179 | ParseData never clears the time or MGT flag, even across a frequency change. |
| `PsipState.EitKeepsFlags` | TVControl/TableData/Parser/ATSC/ParserATSC.cpp:165-167 | An EIT section leaves both flags as they were. |
| `PsipState.ParseEitKeepsFlags` | TVControl/TableData/Parser/ATSC/ParserATSC.cpp:181-216 | ParseEIT leaves both flags as they were. |
| `PsipState.CompleteKeepsFlags` | TVControl/TableData/Parser/ATSC/ParserATSC.cpp:204-214 | Completing a pid leaves both flags as they were. |
| `PsipState.SameListRestartsNothing` | TVControl/TableData/Parser/ATSC/ParserATSC.cpp:90-108 | Reading back the same frequency list stops and starts nothing. |
| `PsipState.HandlerWorkerSpec` | TVControl/TableData/Parser/ATSC/ParserATSC.cpp:486-510 | The handler index stays inside the list and stays put for a single frequency. Otherwise it advances round robin, and only when the parser runs and nothing streams. |
| `PsipState.HandlerWorkerRequests` | TVControl/TableData/Parser/ATSC/ParserATSC.cpp:491-495 | A retune stops the filters, tunes the frequency at the index, asks for the base tables and forgets the EIT pids. |
| `PsipState.QueueUsesWrittenFrequency` | TVControl/TableData/Parser/ATSC/ParserATSC.cpp:124-131 | A buffer the backend wrote is parsed under the frequency written into it. |
| `ParserAtsc.FrequencyHandler.constructor` | TVControl/TableData/Parser/ATSC/ParserATSC.cpp:474-478 | The handler starts at index 0 with no frequencies. |
| `ParserAtsc.FrequencyHandler.Worker` | TVControl/TableData/Parser/ATSC/ParserATSC.cpp:486-510 | The parser and handler state move as HandlerWorker says. |
| `ParserAtsc.ParserATSC.constructor` | TVControl/TableData/Parser/ATSC/ParserATSC.cpp:10-27 | The state is Initial(homeTS). |
| `ParserAtsc.ParserATSC.ReleaseFilters` | TVControl/TableData/Parser/ATSC/ParserATSC.cpp:56-59 | Issues StopFilters and nothing else. |
| `ParserAtsc.ParserATSC.RequestHomeTS` | TVControl/TableData/Parser/ATSC/ParserATSC.cpp:77 | Issues SetHomeTS(frequency) and nothing else. |
| `ParserAtsc.ParserATSC.SendBaseTableRequest` | TVControl/TableData/Parser/ATSC/ParserATSC.cpp:61-65 | Follows PsipState.SendBaseTableRequest. |
| `ParserAtsc.ParserATSC.UpdateCurrentFrequency` | TVControl/TableData/Parser/ATSC/ParserATSC.cpp:67-71 | Marks the parser as streaming and requests the base tables; the frequency is ignored. |
| `ParserAtsc.ParserATSC.PushEitStartRequest` | TVControl/TableData/Parser/ATSC/ParserATSC.cpp:226-233 | Follows PsipState.PushEitStartRequest. |
| `ParserAtsc.ParserATSC.PushEitStopRequest` | TVControl/TableData/Parser/ATSC/ParserATSC.cpp:218-224 | Follows PsipState.PushEitStopRequest: it stops the pid at the stored index. |
| `ParserAtsc.ParserATSC.ConfigureParser` | TVControl/TableData/Parser/ATSC/ParserATSC.cpp:73-88 | With a home TS it tunes there and asks for the base tables. Otherwise it starts the handler over a stored, non-empty list. |
| `ParserAtsc.ParserATSC.UpdateFrequencyList` | TVControl/TableData/Parser/ATSC/ParserATSC.cpp:90-108 | A changed, non-empty stored list restarts the handler over it, after stopping a running one. |
| `ParserAtsc.ParserATSC.ResetTables` | TVControl/TableData/Parser/ATSC/ParserATSC.cpp:248-257 | Empties pids, pending sets and channel set, zeroes the index, and returns true. |
| `ParserAtsc.ParserATSC.ClearEITPids` | TVControl/TableData/Parser/ATSC/ParserATSC.cpp:468-472 | Empties the pid list and zeroes the index. |
| `ParserAtsc.ParserATSC.ParseMGT` | TVControl/TableData/Parser/ATSC/ParserATSC.cpp:278-296 | Follows ParseMgt and returns whether the MGT decoded. |
| `ParserAtsc.ParserATSC.ParseSTT` | TVControl/TableData/Parser/ATSC/ParserATSC.cpp:259-276 | Follows ParseStt and returns whether the STT decoded. |
| `ParserAtsc.ParserATSC.ParseVCT` | TVControl/TableData/Parser/ATSC/ParserATSC.cpp:298-350 | The source loop follows ParseVct and returns whether the VCT decoded. |
| `ParserAtsc.ParserATSC.AddSource` | TVControl/TableData/Parser/ATSC/ParserATSC.cpp:311-347 | One source joins the channel set and, when its program_number is not 0, adds its row. |
| `ParserAtsc.ParserATSC.ParseEvents` | TVControl/TableData/Parser/ATSC/ParserATSC.cpp:378-419 | Appends exactly EventRecords of the events and returns true. |
| `ParserAtsc.ParserATSC.IsEITParsingCompleted` | TVControl/TableData/Parser/ATSC/ParserATSC.cpp:235-246 | True exactly when as many sources are tracked as there are channels, and none has a pending section. |
| `ParserAtsc.ParserATSC.ParseEIT` | TVControl/TableData/Parser/ATSC/ParserATSC.cpp:181-216 | Follows ParseEit and returns whether the EIT decoded. |
| `ParserAtsc.ParserATSC.TrackSection` | TVControl/TableData/Parser/ATSC/ParserATSC.cpp:188-197 | Refuses a source whose set is empty and changes nothing then. Otherwise it applies EitPendingStep. |
| `ParserAtsc.ParserATSC.CompleteEITPid` | TVControl/TableData/Parser/ATSC/ParserATSC.cpp:204-214 | Follows CompleteEitPid. |
| `ParserAtsc.ParserATSC.AnnounceEitPid` | TVControl/TableData/Parser/ATSC/ParserATSC.cpp:205-212 | Reports EitBroadcasted, advances the 32-bit index, then goes on as NextEitPid. |
| `ParserAtsc.ParserATSC.NextEitPid` | TVControl/TableData/Parser/ATSC/ParserATSC.cpp:208-212 | Follows PsipState.NextEitPid. |
| `ParserAtsc.ParserATSC.ParseData` | TVControl/TableData/Parser/ATSC/ParserATSC.cpp:139-179 | Follows PsipState.ParseData. |
| `ParserAtsc.ParserATSC.Worker` | TVControl/TableData/Parser/ATSC/ParserATSC.cpp:110-137 | The first run configures. Then each popped, non-null buffer is parsed under its own frequency. |
| `ParserAtsc.SeedSections` | TVControl/TableData/Parser/ATSC/ParserATSC.cpp:190-191 | Seeds exactly 0..last_section_number, 255 included. This is the corrected loop. |
| `ParserAtsc.SeedLoopNeverEnds` | TVControl/TableData/Parser/ATSC/ParserATSC.cpp:190 | With last_section_number 255, the loop as written never ends, for any number of iterations. |
| `ParserAtsc.SeedLoopEndsBelow255` | TVControl/TableData/Parser/ATSC/ParserATSC.cpp:190-191 | Below 255 the loop as written ends and adds exactly n..last, as SeedSections does. |
| `ParserAtsc.ChannelRecordsSnoc` | TVControl/TableData/Parser/ATSC/ParserATSC.cpp:345-347 | One more source appends its row exactly when its program_number is not 0. |
| `ParserAtsc.SourceIdsSnoc` | TVControl/TableData/Parser/ATSC/ParserATSC.cpp:323 | One more source adds its source id to the set. |
| `SourceState.Initial` | TVControl/TVPlatform/LinuxTV/SourceBackend.cpp:38-58 | A new backend has no filter pids, no scan, no playback and no session. The two fields the constructor leaves uninitialised are taken as false and 0 (see Left out). |
| `SourceState.PidList` | TVControl/TVPlatform/LinuxTV/SourceBackend.cpp:209 | The pid set in iteration order is strictly increasing and names each pid once. |
| `SourceState.FilterPidStringSpec` | TVControl/TVPlatform/LinuxTV/SourceBackend.cpp:208-212 | The filter pid string "p:" ... reads back as the pids in ascending order. |
| `SourceState.PlaybackPidStringSpec` | TVControl/TVPlatform/LinuxTV/SourceBackend.cpp:416-420 | The playback pid string reads back as pmt, video and audio pid. On a single tuner the filter pids follow, ascending. |
| `SourceState.StartFilterSpec` | TVControl/TVPlatform/LinuxTV/SourceBackend.cpp:255-276 | A known pid is refused and nothing changes. Otherwise the pid joins the set, the first handler is kept, and a session over the new set starts exactly when no scan, no playback and no single-tuner hand-over stands in the way. |
| `SourceState.StopFilterSpec` | TVControl/TVPlatform/LinuxTV/SourceBackend.cpp:221-248 | StopFilter removes exactly the pid and relaunches only when allowed. StopFilters empties the set. SetHomeTS clears it only for another frequency. |
| `SourceState.PauseResumeSpec` | TVControl/TVPlatform/LinuxTV/SourceBackend.cpp:314-340 | Without pids both do nothing. Otherwise pausing marks the tuner used, and resuming frees it and restarts a session over the same pids. |
| `SourceState.ChannelPrepared` | TVControl/TVPlatform/LinuxTV/SourceBackend.cpp:472-477 | Before the worker runs, the program is recorded while the result code and the pipeline flag are kept. |
| `SourceState.SameProgramRefused` | TVControl/TVPlatform/LinuxTV/SourceBackend.cpp:468-472 | Tuning to the current program reports an error and changes nothing else. |
| `SourceState.TuneSucceeds` | TVControl/TVPlatform/LinuxTV/SourceBackend.cpp:465-517 | Tuning to the current program returns TvmError. For another program the caller returns TvmSuccess exactly when the table holds that program with some non-zero pid and the pipeline is or can be built; playback then runs, ending on that frequency. In every other case the caller never returns, because nothing notifies the condition it waits on. |
| `SourceState.StartPlayBackSpec` | TVControl/TVPlatform/LinuxTV/SourceBackend.cpp:401-450 | Success exactly when the pipeline is or can be built and some pid is non-zero. The last session is then playback on the pid string. |
| `SourceState.PatPhase` | TVControl/TVPlatform/LinuxTV/SourceBackend.cpp:366-370 | After the PAT pass the frequency has an entry (std::map operator[]). |
| `SourceState.ProgramsOf` | TVControl/TVPlatform/LinuxTV/SourceBackend.cpp:373 | The programs visited are keys of the frequency's table. |
| `SourceState.PmtTablesSpec` | TVControl/TVPlatform/LinuxTV/SourceBackend.cpp:373-378 | The PMT pass changes only this frequency's records and no key. |
| `SourceState.ScanPrologue` | TVControl/TVPlatform/LinuxTV/SourceBackend.cpp:345-357 | The scan flag is raised and the frequency list emptied. The stop flag, the notices and the pids stay. |
| `SourceState.ScanEpilogue` | TVControl/TVPlatform/LinuxTV/SourceBackend.cpp:385-392 | A pending stop is consumed, or Completed is reported. Both flags drop; the list and the pids stay. |
| `SourceState.Visited` | TVControl/TVPlatform/LinuxTV/SourceBackend.cpp:365-384 | At most every frequency is visited. |
| `SourceState.ScanFrequencyState` | TVControl/TVPlatform/LinuxTV/SourceBackend.cpp:365-383 | One frequency is appended when its table names a program after the PAT phase, for any table it starts from. A stop request raises the flag. Nothing else changes. |
| `SourceState.ScanFrequencyTable` | TVControl/TVPlatform/LinuxTV/SourceBackend.cpp:365-378 | One frequency gains a table entry, or has its entry replaced, and no other entry changes. Whether it names a program afterwards is decided by HoldsAfter. |
| `SourceState.PatPhaseSpec` | TVControl/TVPlatform/LinuxTV/SourceBackend.cpp:366-370 | The frequency gets the PAT's programs when one came. Otherwise it keeps the table it had, or gets an empty one. |
| `SourceState.ScanFrequenciesFlags` | TVControl/TVPlatform/LinuxTV/SourceBackend.cpp:365-384 | The loop stops the first time the stop flag is seen, and only then reports Stopped. |
| `SourceState.UntilStopSpec` | TVControl/TVPlatform/LinuxTV/SourceBackend.cpp:365-384 | The frequencies up to the stop are exactly a prefix of the list. |
| `SourceState.ScanFrequenciesResult` | TVControl/TVPlatform/LinuxTV/SourceBackend.cpp:365-384 | For any list, repeats included: the list gains, in order, one entry per visit up to the stop after which the frequency's table names a program (ListedUntilStop). The table gains exactly the frequencies visited. |
| `SourceState.ListedWithoutRepeats` | TVControl/TVPlatform/LinuxTV/SourceBackend.cpp:365-371 | Over frequencies given once and not yet holding programs, the listed frequencies are exactly those whose PAT named a program, up to the stop. |
| `SourceState.ListedWithoutRepeatsFromEmpty` | TVControl/TVPlatform/LinuxTV/SourceBackend.cpp:346-371 | From the scan's empty table, a list without repeats lists exactly the frequencies whose PAT named a program, in scan order, up to the stop. |
| `SourceState.RepeatListedAgain` | TVControl/TVPlatform/LinuxTV/SourceBackend.cpp:366-371 | A frequency given twice is listed twice when its first PAT named a program and its second visit brought no PAT, because the table from the first visit remains. |
| `SourceState.PatPhaseHolds` | TVControl/TVPlatform/LinuxTV/SourceBackend.cpp:366-370 | After the PAT phase the frequency names a program exactly when the PAT that came named one, or, with no PAT, when it did before. |
| `SourceState.ScanningThreadSpec` | TVControl/TVPlatform/LinuxTV/SourceBackend.cpp:342-393 | A scan starts from an empty table. Afterwards, for any list: the table holds exactly the visited frequencies; the list is ListedUntilStop, which for a list without repeats is those whose PAT named a program, in order; one of Stopped and Completed is reported; neither flag is set. |
| `SourceState.ScanBody` | TVControl/TVPlatform/LinuxTV/SourceBackend.cpp:359-384 | The frequency loop after the prologue, with its flags, notices, list and table. |
| `SourceState.EpilogueNotices` | TVControl/TVPlatform/LinuxTV/SourceBackend.cpp:380-388 | Exactly one of Stopped and Completed is reported. None is reported when a stop was pending and the list is empty. |
| `SourceState.PendingStopCutsNextScan` | TVControl/TVPlatform/LinuxTV/SourceBackend.cpp:395-399 | For any list: a stop requested between scans cuts the next scan short after its first frequency. |
| `SourceState.ForwardedSectionSpec` | TVControl/TVPlatform/LinuxTV/SourceBackend.cpp:160-174 | Exactly MGT, STT, TVCT and EIT sections with data are forwarded; a CVCT never is. Each is forwarded in a full buffer that reads back its frequency and length. |
| `Backend.PsiStore.Clear` | TVControl/TVPlatform/LinuxTV/SourceBackend.cpp:347-348 | The shared table is empty afterwards. |
| `Backend.PsiStore.HandlePat` | TVControl/TVPlatform/LinuxTV/SourceBackend.cpp:101-118 | The table becomes OnPat of the old one. |
| `Backend.PsiStore.PatPhase` | TVControl/TVPlatform/LinuxTV/SourceBackend.cpp:366-370 | The table becomes SourceState.PatPhase of the old one. |
| `Backend.PsiStore.HandlePmt` | TVControl/TVPlatform/LinuxTV/SourceBackend.cpp:121-159 | The stream loop makes the table OnPmt of the old one. |
| `Backend.PsiStore.HandlePmtStream` | TVControl/TVPlatform/LinuxTV/SourceBackend.cpp:126-154 | One stream's descriptor walk makes the table PmtStreamStep of the old one. |
| `Backend.PsiStore.LanguageWalk` | TVControl/TVPlatform/LinuxTV/SourceBackend.cpp:138-144 | The walk leaves the last language and sets the audio pid at each "eng". |
| `Backend.PsiStore.OnBusMessage` | TVControl/TVPlatform/LinuxTV/SourceBackend.cpp:78-184 | The loop is quit exactly on an error, at end of stream, after a filtered PAT and after any PMT. The table changes only for those sections, and the right tables are forwarded. |
| `Backend.EngAudioStep` | TVControl/TVPlatform/LinuxTV/SourceBackend.cpp:141-142 | Each "eng" on an audio stream sets the audio pid; other languages leave it. |
| `Backend.StreamLanguagesSnoc` | TVControl/TVPlatform/LinuxTV/SourceBackend.cpp:130-152 | One more descriptor appends its languages. |
| `Backend.SourceBackend.constructor` | TVControl/TVPlatform/LinuxTV/SourceBackend.cpp:38-58 | The state is Initial over the tuner's default frequencies, with the shared table. |
| `Backend.SourceBackend.Release` | TVControl/TVPlatform/LinuxTV/SourceBackend.cpp:61-66 | The shared table is emptied and the scan flag drops. |
| `Backend.SourceBackend.UpdateTunerCount` | TVControl/TVPlatform/LinuxTV/SourceBackend.h:91 | Only the tuner count changes. |
| `Backend.SourceBackend.IsScanning` | TVControl/TVPlatform/LinuxTV/SourceBackend.h:89 | Returns the scan flag. |
| `Backend.SourceBackend.GetFrequencyList` | TVControl/TVPlatform/LinuxTV/SourceBackend.cpp:309-312 | Returns the frequency list. |
| `Backend.SourceBackend.StartFiltering` | TVControl/TVPlatform/LinuxTV/SourceBackend.cpp:611-627 | Opens one session on the frequency, pids and section kind, and returns true. |
| `Backend.SourceBackend.FilterPids` | TVControl/TVPlatform/LinuxTV/SourceBackend.cpp:208-210 | The loop builds the filter pid string, which reads back as the pids in ascending order. |
| `Backend.SourceBackend.SectionFilterThread` | TVControl/TVPlatform/LinuxTV/SourceBackend.cpp:206-219 | Follows LaunchSectionFilter. |
| `Backend.SourceBackend.StartFilter` | TVControl/TVPlatform/LinuxTV/SourceBackend.cpp:255-276 | Follows SourceState.StartFilter. It returns TvmError for a known pid and otherwise falls off its end. |
| `Backend.SourceBackend.StopFilter` | TVControl/TVPlatform/LinuxTV/SourceBackend.cpp:231-241 | Follows SourceState.StopFilter and falls off its end. |
| `Backend.SourceBackend.StopFilters` | TVControl/TVPlatform/LinuxTV/SourceBackend.cpp:243-248 | Empties the set and falls off its end. |
| `Backend.SourceBackend.SetHomeTS` | TVControl/TVPlatform/LinuxTV/SourceBackend.cpp:221-229 | Follows SourceState.SetHomeTS and returns TvmSuccess. |
| `Backend.SourceBackend.PauseFiltering` | TVControl/TVPlatform/LinuxTV/SourceBackend.cpp:329-340 | Returns true exactly when there were pids. |
| `Backend.SourceBackend.ResumeFiltering` | TVControl/TVPlatform/LinuxTV/SourceBackend.cpp:314-327 | Follows SourceState.ResumeFiltering. |
| `Backend.SourceBackend.StopPlayBack` | TVControl/TVPlatform/LinuxTV/SourceBackend.cpp:452-463 | Returns whether the pipeline was initialised. |
| `Backend.SourceBackend.PlaybackPids` | TVControl/TVPlatform/LinuxTV/SourceBackend.cpp:416-420 | Builds exactly PlaybackPidString. |
| `Backend.SourceBackend.StartPlayBack` | TVControl/TVPlatform/LinuxTV/SourceBackend.cpp:401-450 | Returns true exactly when the pipeline is or can be built and some pid is non-zero. |
| `Backend.SourceBackend.PlaybackStarted` | TVControl/TVPlatform/LinuxTV/SourceBackend.cpp:421-446 | Follows SourceState.PlaybackStarted. |
| `Backend.SourceBackend.FollowStreamingFrequency` | TVControl/TVPlatform/LinuxTV/SourceBackend.cpp:429-438 | Follows SourceState.FollowStreamingFrequency. |
| `Backend.SourceBackend.GetStreamInfo` | TVControl/TVPlatform/LinuxTV/SourceBackend.cpp:488-508 | Found exactly when both keys are present. The stored stream is then copied out; otherwise the caller's stream is left as it was. |
| `Backend.SourceBackend.SetCurrentChannelThread` | TVControl/TVPlatform/LinuxTV/SourceBackend.cpp:510-517 | Starts playback over the stored pids only when the lookup finds them. |
| `Backend.SourceBackend.SetCurrentChannel` | TVControl/TVPlatform/LinuxTV/SourceBackend.cpp:465-486 | Follows SourceState.SetCurrentChannel. Returns TvmError for the current program and TvmSuccess once playback has started; otherwise the caller stays blocked (None). |
| `Backend.SourceBackend.Tune` | TVControl/TVPlatform/LinuxTV/SourceBackend.cpp:250-253 | Does the same as SetCurrentChannel: the same new state and the same result, a blocked caller included. |
| `Backend.SourceBackend.GetChannelMap` | TVControl/TVPlatform/LinuxTV/SourceBackend.cpp:287-307 | The nested loops append exactly ChannelMapOf of the table and return success. |
| `Backend.SourceBackend.AppendChannels` | TVControl/TVPlatform/LinuxTV/SourceBackend.cpp:292-304 | The inner loop appends the channels of one program table, in ascending program order. |
| `Backend.SourceBackend.GetTSInfo` | TVControl/TVPlatform/LinuxTV/SourceBackend.cpp:519-542 | The nested loops append exactly TSInfoListOf of the table and return success. |
| `Backend.SourceBackend.AppendTSInfos` | TVControl/TVPlatform/LinuxTV/SourceBackend.cpp:525-538 | The inner loop appends the TS infos of one program table, in ascending program order. |
| `Backend.SourceBackend.StopScanning` | TVControl/TVPlatform/LinuxTV/SourceBackend.cpp:395-399 | Only the stop flag is set. Returns success. |
| `Backend.SourceBackend.StartScanning` | TVControl/TVPlatform/LinuxTV/SourceBackend.cpp:278-285 | Runs the scanning thread and returns success. |
| `Backend.SourceBackend.ScanningThread` | TVControl/TVPlatform/LinuxTV/SourceBackend.cpp:342-393 | The state and the shared table move as SourceState.ScanningThread says. |
| `Backend.SourceBackend.BeginScan` | TVControl/TVPlatform/LinuxTV/SourceBackend.cpp:345-357 | Follows ScanPrologue and empties the table. |
| `Backend.SourceBackend.PlaybackYields` | TVControl/TVPlatform/LinuxTV/SourceBackend.cpp:352-355 | Follows SourceState.PlaybackYields. |
| `Backend.SourceBackend.ScanAll` | TVControl/TVPlatform/LinuxTV/SourceBackend.cpp:365-384 | The frequency loop with its break follows ScanFrequencies. |
| `Backend.SourceBackend.EndScan` | TVControl/TVPlatform/LinuxTV/SourceBackend.cpp:385-392 | Follows ScanEpilogue. |
| `Backend.SourceBackend.ScanOne` | TVControl/TVPlatform/LinuxTV/SourceBackend.cpp:366-383 | Follows ScanFrequency. |
| `Backend.SourceBackend.ScanPat` | TVControl/TVPlatform/LinuxTV/SourceBackend.cpp:366-373 | Opens a PAT session, keeps the frequency when its table is not empty, and returns its programs in ascending order. |
| `Backend.SourceBackend.KeepFrequency` | TVControl/TVPlatform/LinuxTV/SourceBackend.cpp:370-371 | Appends the frequency only when its table is not empty. |
| `Backend.SourceBackend.ScanPmts` | TVControl/TVPlatform/LinuxTV/SourceBackend.cpp:373-378 | Opens one PMT session per program and applies the PMTs, following PmtSessions and PmtTables. |
| `Backend.SourceBackend.ScanPmt` | TVControl/TVPlatform/LinuxTV/SourceBackend.cpp:374-377 | Opens a session on the program's PMT pid and applies its PMT. |
| `Backend.StreamPidsSeparated` | TVControl/TVPlatform/LinuxTV/SourceBackend.cpp:416 | "pmt:video:audio" is the three pids separated by ':'. |
| `Backend.AppendFilterPids` | TVControl/TVPlatform/LinuxTV/SourceBackend.cpp:417-420 | The loop appends ":pid" for each filter pid, in ascending order. |
| `Backend.OnPmtSamePmtPids` | TVControl/TVPlatform/LinuxTV/SourceBackend.cpp:373-378 | A PMT during the pass keeps the programs and PMT pids the pass walks. |
| `Backend.ChannelStep` | TVControl/TVPlatform/LinuxTV/SourceBackend.cpp:292-304 | One program adds its channel exactly when it is not Data. |
| `Backend.TSInfoStep` | TVControl/TVPlatform/LinuxTV/SourceBackend.cpp:525-538 | One program adds its TS info exactly when it has an audio or video pid. |
| `Platform.GetTuner` | TVControl/TVPlatform/LinuxTV/TVPlatformImplementation.cpp:22-32 | No tuner exactly when the count is 0. Otherwise the index is below the count. |
| `Platform.TunerRoles` | TVControl/TVPlatform/LinuxTV/TVPlatformImplementation.cpp:24-29 | Filtering goes to tuner 0. A single tuner serves both roles. With two or more, streaming and filtering use different tuners. |
| `Platform.HomeTsGate` | TVControl/TVPlatform/LinuxTV/TVPlatformImplementation.cpp:63-69 | SetHomeTS is refused exactly when there is no tuner, or when the only tuner streams. |
| `Platform.IdentifiedSpec` | TVControl/TVPlatform/LinuxTV/TVPlatformImplementation.cpp:138-154 | The tuners are exactly the frontends that opened, each once, in adapter-major probing order. |
| `Platform.IdentifiedInRange` | TVControl/TVPlatform/LinuxTV/TVPlatformImplementation.cpp:138-139 | Every identified frontend number is below DVB_ADAPTER_SCAN. |
| `Platform.TVPlatformImplementation.constructor` | TVControl/TVPlatform/LinuxTV/TVPlatformImplementation.cpp:8-14 | The platform is running and not streaming, with the tuners InitializeTuners makes. |
| `Platform.TVPlatformImplementation.InitializeTuners` | TVControl/TVPlatform/LinuxTV/TVPlatformImplementation.cpp:121-157 | One fresh, distinct tuner per opened frontend, in probing order. Every tuner knows the final count. |
| `Platform.TVPlatformImplementation.Scan` | TVControl/TVPlatform/LinuxTV/TVPlatformImplementation.cpp:34-43 | Without a tuner: TvmError. Otherwise the streaming tuner scans, and success marks the platform as streaming. |
| `Platform.TVPlatformImplementation.StopScanning` | TVControl/TVPlatform/LinuxTV/TVPlatformImplementation.cpp:45-50 | The streaming tuner's stop flag is set. Without a tuner the function falls off its end. |
| `Platform.TVPlatformImplementation.Tune` | TVControl/TVPlatform/LinuxTV/TVPlatformImplementation.cpp:52-61 | Without a tuner: TvmError. Otherwise the result is the streaming tuner's, a blocked caller included, and success marks the platform as streaming. |
| `Platform.TVPlatformImplementation.IsScanning` | TVControl/TVPlatform/LinuxTV/TVPlatformImplementation.cpp:92-97 | The streaming tuner's scan flag; nothing defined without a tuner. |
| `Platform.TVPlatformImplementation.GetFrequencyList` | TVControl/TVPlatform/LinuxTV/TVPlatformImplementation.cpp:99-105 | Clears the streaming mark in every case. Returns the streaming tuner's list. |
| `Platform.TVPlatformImplementation.GetTSInfo` | TVControl/TVPlatform/LinuxTV/TVPlatformImplementation.cpp:107-112 | Appends the shared table's TS info list; falls off its end without a tuner. |
| `Platform.TVPlatformImplementation.GetChannelMap` | TVControl/TVPlatform/LinuxTV/TVPlatformImplementation.cpp:114-119 | Appends the shared table's channel map; falls off its end without a tuner. |
| `Platform.TVPlatformImplementation.SetHomeTS` | TVControl/TVPlatform/LinuxTV/TVPlatformImplementation.cpp:63-69 | Refused exactly as HomeTsGate says. Otherwise tuner 0 takes the primary frequency. |
| `Platform.TVPlatformImplementation.StopFilter` | TVControl/TVPlatform/LinuxTV/TVPlatformImplementation.cpp:71-76 | Tuner 0 stops the pid; the function falls off its end. |
| `Platform.TVPlatformImplementation.StopFilters` | TVControl/TVPlatform/LinuxTV/TVPlatformImplementation.cpp:78-83 | Tuner 0 stops every filter; the function falls off its end. |
| `Platform.TVPlatformImplementation.StartFilter` | TVControl/TVPlatform/LinuxTV/TVPlatformImplementation.cpp:85-90 | Tuner 0 starts the filter, with its result passed on. |
| `Platform.OpenTuners` | TVControl/TVPlatform/LinuxTV/TVPlatformImplementation.cpp:137-154 | The probing loops make one fresh, distinct tuner per opened frontend and count them. |
| `Platform.OpenAdapter` | TVControl/TVPlatform/LinuxTV/TVPlatformImplementation.cpp:139-153 | The frontend loop of one adapter extends the tuners and their data in order. |
| `Platform.TellTunerCount` | TVControl/TVPlatform/LinuxTV/TVPlatformImplementation.cpp:155-156 | Every tuner learns the count, and nothing else of it changes. |

## Left out

- Threads, mutexes and condition variables are not modelled.
  - A worker thread that the code starts and then waits for is modelled as a call run to completion: SetCurrentChannel's channel change, StartScanning's scanning thread, and the section filter thread up to its main loop.
  - Races between threads are not modelled, such as a StopScanning arriving in the middle of a frequency. That stop is the `stopRequested` flag of each frequency's outcome.
  - SetCurrentChannel waits on its condition variable without a predicate. The model takes the wait to begin before the worker notifies, and takes no spurious wakeup. A notification sent before the caller waits would be lost, and that caller would block as well.
- GStreamer pipelines and main loops are not modelled.
  - A session is recorded as its frequency, pid string and section type.
  - What the bus handler captures while a main loop runs is an argument: the PAT and PMTs of each scanned frequency, and whether the playback pipeline can be built (`initialises`).
  - The playback loop itself, OnPadAdded, PlayBackInitialization and FilteringInitialization are left out.
- The foreign section decoders (gst_mpegts_section_get_*, the ISO 639 and descriptor parsers) and gst_mpegts_atsc_string_segment_get_string are not modelled. Their results come in as datatypes and as the `decode` parameter.
- The memcpy of the raw GstMpegtsSection struct into the envelope is not modelled. It copies the struct itself, not the section bytes, and it copies sizeof(siBuf) bytes to DATA_OFFSET, which runs 6 bytes past the buffer's end. The bytes the copy leaves inside the buffer, from DATA_OFFSET to its end, are an opaque `body` of exactly BUFFER_SIZE - DATA_OFFSET bytes. The 6 bytes written past the end are not modelled. The parser receives the decoded section beside the buffer.
- A PMT captured during a scan is taken to be the one of the program filtered for. A PMT whose subtable extension names another program is not modelled there. OnBusMessage models it in general.
- The EPG database (CreateChannelTable, InsertChannelInfo, InsertProgramInfo, ReadFrequency) is not modelled. Inserted rows are logged in the parser state, and ReadFrequency's result is an argument. A logged row keeps the whole title and caption language, although the rows are handed over as C strings (`c_str()`), so the database would see the text only up to an interior NUL character.
- settimeofday and localtime_r are left out. The time passed to settimeofday is logged.
- OpenFE/CloseFE and the write to /etc/TVTune.txt are not modelled. Which frontends open is the `probes` argument, one flag per adapter and frontend.
- The singletons (IParser::GetInstance, DataQueue) and the parser and handler destructors are left out. ParserATSC::Worker takes the popped queue elements as a sequence.
- The destructor of TVPlatformImplementation is left out; it sets `_isRunning` to false and clears the list.
- TvTunerBackend is not part of this model. The platform's tuners are modelled as SourceBackend objects, which is the class that TvTunerBackend wraps on this platform.
- RemoteControl/LinuxDevice.cpp is not part of this model.
- SourceState.Initial: the constructor at TVControl/TVPlatform/LinuxTV/SourceBackend.cpp:38-58 never initialises `_playbackInProgress` and `_channelNo`, whose values are indeterminate. The model takes false and 0. With a real indeterminate `_channelNo`, SourceState.SameProgramRefused could fire on a first tune to any program, not only to program 0. With a real indeterminate `_playbackInProgress`, the first tune could stop a playback that never started.
- Backend.SourceBackend.StopFilter requires the pid to be in the set. `_pidSet.erase(_pidSet.find(pid))` on a missing pid erases end(), which is undefined.
- Platform.TVPlatformImplementation.StopFilter has the same requirement on tuner 0.
- ParserText.ParseContentAdvisoryDescriptor requires AdvisoryReadable: every region lies inside the descriptor and every description parses. The code reads past the descriptor otherwise, and dereferences the null that `_parse_atsc_mult_string` returns for a description of size 0.
- AtscCommon.ServiceLocationIdx requires the records the length/6 guard accepts to lie inside the descriptor. That holds for every length of the form 3 + 6n; other lengths make the code read past the end.
- ParserAtsc.ParserATSC.PushEitStopRequest requires the stored index to be inside the pid list, since the code indexes the list without reducing the index.
- ParserAtsc.FrequencyHandler.Worker requires the index to be inside the list when it retunes, as the code indexes without a check.
- ParserAtsc.SeedLoopAsWritten carries a `fuel` bound so that the non-terminating loop can be written as a function; None means the fuel ran out.
- Backend.SourceBackend.StartFilter, Backend.SourceBackend.StopFilter, Backend.SourceBackend.StopFilters and the platform's StopScanning, GetTSInfo, GetChannelMap and IsScanning without a tuner return `FellOffEnd` (or None), because the C++ function ends without a return there.
- PsipState.EventRecordsSpec stores the source id truncated to 8 bits, as ParseEvents receives it (`uint8_t sourceId`). Program rows of sources above 255 thus carry another id than their channel row. This is modelled as written.
- std::to_string is modelled for non-negative values only (`Common.Decimal`); every value the code converts is unsigned.
- The host byte order is taken to be little-endian (`Envelope.LittleEndian`).

## Findings

| source | as written | input that shows it | evidently intended | confidence | as-written member | corrected member |
|---|---|---|---|---|---|---|
| TVControl/TableData/Parser/ATSC/ParserATSC.cpp:190 | The seeding loop counts with a `uint8_t` and continues while `sectionNumber <= last_section_number`. | An EIT section with last_section_number 255 for a source not yet tracked. The counter wraps from 255 to 0 and the test never fails, so the loop never ends. | Seed the pending set with 0..255 and go on. | not executed | `ParserAtsc.SeedLoopNeverEnds` (about `ParserAtsc.SeedLoopAsWritten`) | `ParserAtsc.SeedSections`, used by ParseEIT and TrackSection |
