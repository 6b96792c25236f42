# scaphandre's energy bookkeeping, modelled in Dafny

scaphandre is a metrology agent. It reads the RAPL energy counters of
Intel CPUs through the Linux powercap sysfs tree (`intel-rapl:S:D`
folders, `energy_uj` files) and keeps a topology:
- a `Topology` of `CPUSocket`s, each holding RAPL `Domain`s;
- bounded buffers of energy records and of CPU statistics at every level;
- a `ProcessTracker` with one history of records per PID.

Exporters turn this state into metrics. This project models that
bookkeeping and the transport-independent part of the exporters, and
proves what each piece promises:
- buffers stay within their budget;
- ids stay unique;
- the domain-name list is sorted and distinct;
- the Prometheus exposition writes each HELP/TYPE header once per metric
  name;
- a process history keeps its newest records;
- the top-consumer selection really returns the top consumers;
- parsing and printing round-trip, and so on.

One Dafny module models each source file:

| file | module | source |
|---|---|---|
| wrappers.dfy | `Wrappers` | `Option`/`Result` |
| machine.dfy | `MachineInt` | u16/u64 wrapping arithmetic |
| strings.dfy | `Strings` | the `str` methods the source uses (`split`, `trim`, `find`, `parse`, `to_string`, `sort`) |
| units.dfy | `Units` | src/sensors/units.rs |
| lib.dfy | `Lib` | src/lib.rs |
| sensors.dfy | `Sensors` | src/sensors/mod.rs |
| socket.dfy | `Socket` | src/sensors/socket.rs |
| debug.dfy | `Debug` | src/sensors/debug.rs |
| sensor_utils.dfy | `SensorUtils` | src/sensors/utils.rs |
| powercap_rapl.dfy | `PowercapRapl` | src/sensors/powercap_rapl.rs |
| exporter_utils.dfy | `ExporterUtils` | src/exporters/utils.rs |
| qemu.dfy | `Qemu` | src/exporters/qemu.rs |
| datadog.dfy | `Datadog` | src/exporters/datadog.rs |
| metrics.dfy | `Metrics` | src/exporters/mod.rs |
| prometheus.dfy | `Prometheus` | src/exporters/prometheus.rs |
| prometheus_push.dfy | `PrometheusPush` | src/exporters/prometheuspush.rs |

Modelling choices:
- Objects the source mutates in place are classes:
  - `Domain`, `CPUSocket` and `Topology`, with their record and stat buffers;
  - `DebugSocket`, `ProcessTracker`, `MetricGenerator`, and the `last_request` of the Prometheus server.
- The loops that change them are methods with loop invariants. Each method is proved against a specification function, and the properties are proved about that function.
- Value types are datatypes, and pure code is functions and lemmas.
- A record's value stays a decimal string, as in the source. `ParseUnsigned` (`parse::<uN>()`) and `NatToString` (`to_string()`) read and write it, with a round-trip lemma between them.
- Timestamps are nanoseconds (`nat`).
- The byte sizes the cleaners use are constants: `size_of::<Record>()` is `RECORD_SIZE` = 48 and `size_of::<CPUStat>()` is `STAT_SIZE` = 128.
- Fixed-width arithmetic is written out:
  - `buffer_max_kbytes * 1000` wraps in u16 (`Budget`);
  - the topology's `curr_size as u16` truncates (`TopologyEvictCount`);
  - u64 subtractions of statistics wrap (`SubU64`);
  - `add_or_create` adds in u64, wrapping (`AddU64`).
- Behaviours that look accidental are kept as written and stated as lemmas:
  - a decreasing counter gives `None` in `Topology` and `Domain`, but 0 µJ in `CPUSocket` and `dyn Socket`; there is no wrap-around correction;
  - the topology's cleaner can be blind above 64 KiB (`TopologyEvictCountTruncates`);
  - `add_or_create` writes 0, not the value, when the file is missing (`FileAfterSum`);
  - `find_records` returns the last matching history;
  - the socket power metric reports the topology's power (`SocketPowerIsTopologyPower`);
  - Datadog names domain series by index (`DomainSeriesNamed`).
- The files come from different revisions and their signatures disagree:
  - `Topology::new` takes a map in src/sensors/mod.rs but nothing in src/sensors/powercap_rapl.rs;
  - `safe_add_socket` takes six arguments, five, or one socket, depending on the file.

  Each module follows its own file. The debug sensor builds a `Sensors.Topology` through `SafeInsertSocket`, because the boxed-socket `Topology` of that revision is not part of this model.

## Model

| member | source | states |
|---|---|---|
| MachineInt.SubU64 | src/sensors/mod.rs:519-522 | u64 `a - b` wrapping: exact when b ≤ a, else 2^64 + a − b; adding b back gives a |
| Strings.ParseOfNatToString | src/exporters/prometheus.rs:199 | `n.to_string()` parses back to n for every n below the type's limit |
| Strings.JoinSplit | src/sensors/powercap_rapl.rs:81 | `split(c)` loses nothing: joining the pieces with c rebuilds the string |
| Strings.SortStrings | src/sensors/mod.rs:252 | `sort()` of names: a sorted permutation of its input |
| Strings.TrimStartShape | src/sensors/powercap_rapl.rs:96 | `trim` removes exactly a prefix of Unicode White_Space characters (`char::is_whitespace`); the rest starts with a character outside that set |
| Strings.TrimEndShape | src/sensors/powercap_rapl.rs:96 | `trim` removes exactly a suffix of Unicode White_Space characters (`char::is_whitespace`); the rest ends with a character outside that set |
| Strings.SplitLastIsLastSegment | src/sensors/utils.rs:580 | `split(c).last()` is the text after the last c, or the whole string when c does not occur |
| Strings.Find | src/exporters/utils.rs:27 | `find`: the first occurrence of the pattern at or after the start, or none at all |
| Units.EnergyEqIsIdentity | src/sensors/units.rs:34-39 | comparing the Debug names of two energy units holds exactly when they are the same unit |
| Units.PowerEqIsIdentity | src/sensors/units.rs:75-80 | the same for power units |
| Units.Position | src/sensors/units.rs:14-15 | `position`: the first index satisfying the predicate, or none satisfies it |
| Units.EnergyPosition | src/sensors/units.rs:13-15 | searching the order for an energy unit finds its own index, so the `unwrap` cannot panic |
| Units.PowerPosition | src/sensors/units.rs:53-55 | the same for power units |
| Units.ScaleInverse | src/sensors/units.rs:12-31 | converting one way and back multiplies by exactly 1 |
| Units.ScaleRoundTrip | src/sensors/units.rs:12-31 | a measure converted one way and back is unchanged |
| Units.Multiplier | src/sensors/units.rs:17-29 | the loops build 1000^(dest − source) towards finer units, and its inverse towards coarser ones: the factor `Scale(source, dest)` |
| Units.ScaledMeasure | src/sensors/units.rs:30 | multiplying by the coarser-direction factor undoes a multiplication by 1000 per step |
| Units.EnergyTo | src/sensors/units.rs:12-31 | always `Ok`; ×1000 per step to finer units, ÷1000 per step to coarser; the same unit returns the measure unchanged; the result is the measure times `Scale(source, dest)`, which `ScaleRoundTrip` undoes |
| Units.PowerTo | src/sensors/units.rs:52-71 | the same for power units |
| Units.KilowattIsThousandWatts | src/sensors/units.rs:86-91 | 1 kW converts to 1000 W |
| Units.KilowattIsThousandthMegawatt | src/sensors/units.rs:93-98 | 1 kW converts to 0.001 MW |
| Units.JouleIsMillionMicrojoules | src/sensors/units.rs:101-106 | 1 J converts to 1 000 000 µJ |
| Lib.NewFromName | src/lib.rs:34-42 | "core", "uncore" and "dram" map to their kinds (each iff), and every other name maps to `Undefined` |
| Lib.NewFromNameOfDisplay | src/lib.rs:17-42 | reading back the displayed name of any kind gives that kind |
| Lib.RecordDisplay | src/lib.rs:56-60 | the displayed record is one line (no line break) |
| Lib.RecordDisplayValue | src/lib.rs:58 | the display starts with "recorded ", and the value's digits follow it and parse back to the value |
| Lib.RawReadFromPowercapSysfs | src/lib.rs:67-91 | the loop over the listing returns `Ok` of the report: one displayed record and "\n" per matching folder, in order |
| Lib.ReportSplitWith | src/lib.rs:85-86 | splitting the report plus a line-free tail at "\n" gives the report lines then the tail |
| Lib.ReportIsOneLinePerFolder | src/lib.rs:72-89 | split at "\n", the report gives exactly one line per `intel-rapl:\d:\d` folder, its displayed record, in listing order, then an empty tail: every line ends with "\n" |
| Sensors.Budget | src/sensors/mod.rs:1019 | `buffer_max_kbytes * 1000` in u16: exact up to 65 kB; 66 kB gives 464 bytes |
| Sensors.EvictCount | src/sensors/mod.rs:1011-1039 | nothing is removed unless size·len exceeds the budget by more than one entry; otherwise the survivors exceed it by one to two entries, and a non-empty buffer is never emptied |
| Sensors.TopologyEvictCount | src/sensors/mod.rs:91-117 | the comparison on `curr_size as u16` never removes more than the plain rule, and agrees with it below 64 KiB |
| Sensors.TopologyEvictCountTruncates | src/sensors/mod.rs:100 | 1366 records with a 1 kB budget: the topology removes none where the plain rule removes 1344 |
| Sensors.CleanedWithinBound | src/sensors/mod.rs:1384-1399 | whatever the length before, a cleaned buffer exceeds its budget by less than two entries |
| Sensors.StatTotalJiffies | src/sensors/mod.rs:1553-1570 | user + nice + system + guest_nice + guest, a missing field counting 0 |
| Sensors.OptionDiff | src/sensors/mod.rs:500-517 | an optional field's difference is present iff both sides are; adding previous back gives last (u64, wrapping), and it is last − previous when that is not negative |
| Sensors.StatsDiff | src/sensors/mod.rs:490-532 | `None` iff fewer than two stats; else each field is `stat_buffer[0] − stat_buffer[1]` wrapping at 2^64 (the u64 that added to the older value gives the newer one); each optional field is present iff present on both, and then is that difference |
| Sensors.StatsDiffTotal | src/sensors/mod.rs:1553-1570 | when no counter went down, the total jiffies of the difference is the difference of the totals |
| Sensors.RecordsDiff | src/sensors/mod.rs:429-442 | `Some` iff there are more than two records and previous ≤ last; then it is last − previous, with the last record's time and unit |
| Sensors.LastTwoCounters | src/sensors/mod.rs:447-455 | the trimmed last two values, parsed, when there are two records and both parse |
| Sensors.MicrojoulesOrNone | src/sensors/mod.rs:446-486 | the energy between the last two records, `None` when the counter went down (no wrap-around correction) |
| Sensors.MicrojoulesOrZero | src/sensors/mod.rs:1246-1287 | the same guard with 0 µJ instead of `None` when the counter went down |
| Sensors.MicrojoulesGuardsAgree | src/sensors/mod.rs:1264-1272 | the two guards agree whenever the counter did not go down |
| Sensors.RefreshedRecordsNewest | src/sensors/mod.rs:1361-1380 | after a refresh, a successful read is the last record and the survivors are a suffix of the old buffer; on an error, a suffix of the old buffer |
| Sensors.Domain.constructor | src/sensors/mod.rs:1416-1431 | the fields are stored and the buffer is empty |
| Sensors.Domain.RefreshRecord | src/sensors/mod.rs:1361-1380 | push on success, keep on error, clean a non-empty buffer; the budget bound is kept |
| Sensors.Domain.CleanOldRecords | src/sensors/mod.rs:1384-1399 | the `remove(0)` loop drops exactly `EvictCount` head records; the survivors are the old suffix in order |
| Sensors.DomainsWith | src/sensors/mod.rs:1084-1088 | the list is unchanged when the id is present; else the domain is appended; old entries keep their places |
| Sensors.DomainsWithKeepsIdsUnique | src/sensors/mod.rs:1084-1088 | adding a domain keeps domain ids unique |
| Sensors.CPUSocket.constructor | src/sensors/mod.rs:1058-1077 | the fields are stored; the buffers and cores are empty |
| Sensors.CPUSocket.RefreshRecord | src/sensors/mod.rs:988-1007 | push on success, keep on error, clean a non-empty buffer; nothing else changes |
| Sensors.CPUSocket.CleanOldRecords | src/sensors/mod.rs:1011-1039 | drops exactly `EvictCount` head records; nothing else changes |
| Sensors.CPUSocket.SafeAddDomain | src/sensors/mod.rs:1084-1088 | the domains become `DomainsWith`; nothing else changes |
| Sensors.CPUSocket.AddCpuCore | src/sensors/mod.rs:1111-1113 | the core is appended; nothing else changes |
| Sensors.CPUSocket.RefreshStats | src/sensors/mod.rs:1117-1122 | cleans first, then inserts the new stat at index 0 |
| Sensors.CPUSocket.CleanOldStats | src/sensors/mod.rs:1126-1164 | the `pop` loop drops `EvictCount` stats from the tail (the oldest) |
| Sensors.AppendNewSocketId | src/sensors/mod.rs:205-216 | appending a socket with an absent id keeps socket ids unique |
| Sensors.Topology.constructor | src/sensors/mod.rs:143-153 | no sockets, empty buffers, a 1 kB budget, no domain names, a tracker keeping 5 records per process |
| Sensors.Topology.HasSocket | src/sensors/mod.rs:205 | true iff some socket has the id |
| Sensors.Topology.SafeAddSocket | src/sensors/mod.rs:196-220 | returns `Some` copy iff the id was absent, in which case a new socket with the given fields and empty buffers is appended; otherwise the sockets are unchanged; ids stay unique |
| Sensors.Topology.SafeInsertSocket | src/sensors/mod.rs:222-226 | appends the socket unless its id is taken |
| Sensors.Topology.BuildDomainsNames | src/sensors/mod.rs:244-254 | the names are sorted, distinct, and exactly the names of all domains of all sockets |
| Sensors.Topology.SafeAddDomainToSocket | src/sensors/mod.rs:262-284 | each socket with the id gets the new domain unless it holds the domain id; other sockets are untouched; the names are rebuilt sorted and distinct |
| Sensors.Topology.AddDomainToSockets | src/sensors/mod.rs:271-282 | the loop over the sockets: the same per-socket effect |
| Sensors.Topology.AddDomainIfMatching | src/sensors/mod.rs:273-281 | one round: a matching socket without the domain id gets a fresh domain with the given fields; any other socket is unchanged |
| Sensors.Topology.RefreshRecord | src/sensors/mod.rs:68-87 | push on success, keep on error, then the topology cleaning of a non-empty buffer |
| Sensors.Topology.CleanOldRecords | src/sensors/mod.rs:91-117 | drops `TopologyEvictCount` head records (the u16-truncated comparison) |
| Sensors.Topology.RefreshStats | src/sensors/mod.rs:389-398 | inserts a successful read at index 0, then cleans |
| Sensors.Topology.CleanOldStats | src/sensors/mod.rs:402-425 | pops `EvictCount` stats from the tail |
| Socket.AddCpuCore | src/sensors/socket.rs:28-30 | the core is appended; nothing else changes |
| Socket.SafeAddDomain | src/sensors/socket.rs:33-38 | appends unless a domain with the id exists; nothing else changes |
| Socket.RefreshRecord | src/sensors/socket.rs:87-95 | push when `read_record_uj` succeeded, then clean a non-empty buffer; the budget bound is kept |
| Socket.CleanOldRecords | src/sensors/socket.rs:97-128 | drops `EvictCount` head records |
| Socket.RefreshStats | src/sensors/socket.rs:146-153 | cleans the existing buffer, then inserts the read stat at index 0 |
| Socket.CleanOldStats | src/sensors/socket.rs:157-198 | pops `EvictCount` stats from the tail |
| Debug.DebugSocket.constructor | src/sensors/debug.rs:53-62 | id and budget stored; domains, records, cores and stats empty |
| Debug.DebugSocket.Describe | src/sensors/socket.rs:250-254 | "Debug Socket (id=" then the id, which parses back, then ")" |
| Debug.ReadRecordUjIsConstant | src/sensors/debug.rs:66-78 | every read is `Ok`: 7081760374 µJ at the read time; `read_stats` is always `None` |
| Debug.GenerateTopology | src/sensors/debug.rs:18-29 | exactly one socket, id 1234, holding exactly one domain: id 4321, "debug domain", "debug domain uj_counter"; the domain names are ["debug domain"] |
| Debug.OnlyDomainName | src/sensors/debug.rs:21-27 | the name list of a one-socket, one-domain topology is that domain's name alone |
| SensorUtils.TotalTimeJiffies | src/sensors/utils.rs:1034-1060 | stime + utime, or 0 without a stat |
| SensorUtils.InsertDescSorted | src/sensors/utils.rs:492 | inserting into a sorted sequence keeps it sorted |
| SensorUtils.SortDesc | src/sensors/utils.rs:492 | the stable `sort_by` in decreasing key order: a sorted permutation |
| SensorUtils.SortDescOfSorted | src/sensors/utils.rs:492 | sorting a sorted sequence changes nothing |
| SensorUtils.CleanedKeepsNewest | src/sensors/utils.rs:488-501 | cleaning a longer history keeps exactly `max` records, newest first, and no dropped record is newer than a kept one |
| SensorUtils.SortedPrefixKeepsNewest | src/sensors/utils.rs:491-493 | any newest-first arrangement cut at `max` keeps the newest |
| SensorUtils.FirstMatch | src/sensors/utils.rs:463-464 | the first history whose head has the PID, or none has it |
| SensorUtils.AddRecordNewPid | src/sensors/utils.rs:478-481 | a PID without a history gets a one-record history at the end |
| SensorUtils.AddRecordKnownPid | src/sensors/utils.rs:466-477 | only the first matching history changes: the record goes in front (after a reset when `comm` changed), capped at `max` |
| SensorUtils.AddRecordNewestFirst | src/sensors/utils.rs:476-477 | when time did not go back, the new record heads its history after cleaning |
| SensorUtils.ResortPrefix | src/sensors/utils.rs:491-493 | a later round of the sort-and-pop loop pops the next-oldest record |
| SensorUtils.CandidateOf | src/sensors/utils.rs:849 | a history's entry is its oldest record's process, with a consumed time no more than the newest total |
| SensorUtils.CountTimeAbove | src/sensors/utils.rs:842-846 | counts the entries that consumed more; all counted iff all consumed more |
| SensorUtils.AdmitFacts | src/sensors/utils.rs:848-853 | push, sort and pop keep a sorted list of at most `top`, drawn from the old entries and the new one (all of them while under `top`) |
| SensorUtils.AdmitFull | src/sensors/utils.rs:851-853 | admitting into a full list drops exactly one entry, not above any kept |
| SensorUtils.TopConsumersAsWrittenBounded | src/sensors/utils.rs:835-893 | as written: at most `top` entries, in non-increasing consumed time, drawn from the histories of more than one record |
| SensorUtils.TopStepUnderfull | src/sensors/utils.rs:848-853 | an entry offered while under `top` is kept |
| SensorUtils.TopStepFull | src/sensors/utils.rs:842-853 | an entry admitted into a full list keeps the list a top-`top` |
| SensorUtils.TopStepSkipped | src/sensors/utils.rs:842-847 | an entry turned away by `top` larger consumers is left out harmlessly |
| SensorUtils.TopConsumersIsTopN | src/sensors/utils.rs:835-893 | the corrected selection returns a sorted top-`top` of the candidates, and all of them when there are fewer |
| SensorUtils.TopStepKeepsTopN | src/sensors/utils.rs:837-854 | each round of the corrected loop keeps a top-`top` of the candidates seen |
| SensorUtils.TopConsumersAsWrittenMissesBiggest | src/sensors/utils.rs:844 | with top = 1, a process that consumed 5 jiffies is reported instead of one that consumed 10 |
| SensorUtils.TopConsumersFindsBiggest | src/sensors/utils.rs:835-893 | on the same histories the corrected selection reports the one that consumed 10 |
| SensorUtils.AddAllOneProcess | src/sensors/utils.rs:1074-1113 | n additions for one process leave one history of min(n, max) records of that process (the tests: 3 after 3, 5 and 20 additions with max 3) |
| SensorUtils.AddToOnlyHistory | src/sensors/utils.rs:466-477 | adding to the only history replaces it by the cleaned extended history |
| SensorUtils.CleanedAllOf | src/sensors/utils.rs:488-501 | cleaning a one-process history keeps min(n, max) records of that process |
| SensorUtils.ProcessTracker.constructor | src/sensors/utils.rs:418-442 | no history, the given cap, `nb_cores` 0 |
| SensorUtils.ProcessTracker.CleanOldProcessRecords | src/sensors/utils.rs:488-501 | the sort-and-pop loop yields `CleanedRecords`: the `max` newest records |
| SensorUtils.ProcessTracker.AddProcessRecord | src/sensors/utils.rs:459-484 | the histories become `AddRecord` of the old ones; always `Ok` with the fixed message |
| SensorUtils.ProcessTracker.FindRecords | src/sensors/utils.rs:505-516 | `None` iff no history has the PID; else the last history whose head has it |
| SensorUtils.ProcessTracker.GetTopConsumers | src/sensors/utils.rs:835-893 | the loop computes `TopConsumers`, the corrected selection |
| SensorUtils.ProcessTracker.GetCpuTimeConsumed | src/sensors/utils.rs:810-818 | newest total − previous total when not negative, else 0 |
| SensorUtils.ProcessTracker.ExtractPodIdFromCgroupPath | src/sensors/utils.rs:579-591 | always `Ok` and free of '/'; the stripped last segment itself unless it mentions "cri-containerd", in which case the text after its last ':' (all of it when there is none) |
| SensorUtils.StripContainerAffixes | src/sensors/utils.rs:581-586 | the segment is the result with "docker-" in front exactly when the segment starts with it, and ".scope" behind exactly when the rest ends with it; no character is added |
| SensorUtils.PodIdStripped | src/sensors/utils.rs:580-586 | the text after the last '/' of the path is the result with "docker-" in front exactly when it starts with it, and ".scope" behind exactly when the rest ends with it; the result has no '/' |
| PowercapRapl.New | src/sensors/powercap_rapl.rs:20-41 | base path "/sys/class/powercap" on bare metal; in a VM, SCAPHANDRE_POWERCAP_PATH when set, else "/var/scaphandre"; the budgets are stored |
| PowercapRapl.RaplModules | src/sensors/powercap_rapl.rs:46-53 | exactly the loaded modules named intel_rapl, intel_rapl_msr or intel_rapl_common |
| PowercapRapl.CheckModule | src/sensors/powercap_rapl.rs:44-64 | `Ok` iff one of the three RAPL modules is loaded |
| PowercapRapl.TrailingDigits | src/sensors/powercap_rapl.rs:75 | the longest run of digits ending the text |
| PowercapRapl.TrailingDigitsOfSuffix | src/sensors/powercap_rapl.rs:75 | a digit run after a non-digit is that longest run |
| PowercapRapl.MatcherSound | src/sensors/powercap_rapl.rs:75 | a match of the hand-written matcher is a match of `^.*/intel-rapl:\d+:\d+$` |
| PowercapRapl.MatcherComplete | src/sensors/powercap_rapl.rs:75 | every match of the expression is found by the matcher |
| PowercapRapl.MatchesDomainFolderIsPattern | src/sensors/powercap_rapl.rs:75-79 | the matcher decides the expression |
| PowercapRapl.DomainFolderIds | src/sensors/powercap_rapl.rs:81-84 | the second and third ':' fields of a domain folder give back its socket and domain ids |
| PowercapRapl.DomainFolderMatches | src/sensors/powercap_rapl.rs:79 | every domain folder under a base path matches the expression |
| PowercapRapl.AddSocket | src/sensors/powercap_rapl.rs:85-91 | after `safe_add_socket` the topology holds exactly the sockets so far plus this one, each with its counter under the base path and the per-socket budget; the domains are unchanged |
| PowercapRapl.AddDomain | src/sensors/powercap_rapl.rs:92-103 | after `safe_add_domain_to_socket` the topology holds exactly the domains so far plus this one, each with its counter under the base path and the per-domain budget; the sockets are unchanged |
| PowercapRapl.AddFolder | src/sensors/powercap_rapl.rs:76-104 | one entry of the listing: a matching folder adds its socket and, when its name file is readable, its trimmed domain |
| PowercapRapl.GenerateTopology | src/sensors/powercap_rapl.rs:69-108 | a socket for exactly the socket ids of the matching folders, and a domain for exactly the matching folders with a readable name, and nothing else |
| PowercapRapl.SocketFolderIgnored | src/sensors/powercap_rapl.rs:75 | a socket folder `intel-rapl:S` is not a domain folder |
| PowercapRapl.DomainFolderIsDomainFolder | src/sensors/powercap_rapl.rs:79-84 | a domain folder matches and parses to its socket id |
| PowercapRapl.SocketIdsOfSnoc | src/sensors/powercap_rapl.rs:76-91 | one more domain folder adds its socket id |
| PowercapRapl.SocketIdsOfFolders | src/sensors/powercap_rapl.rs:76-91 | a listing of domain folders names exactly their socket ids |
| ExporterUtils.Replace | src/exporters/utils.rs:18 | `replace` of a character leaves none of it (when the replacement has none) and introduces nothing new |
| ExporterUtils.FilterCmdline | src/exporters/utils.rs:17-19 | no line break survives |
| ExporterUtils.FilterCmdlineCons | src/exporters/utils.rs:17-19 | '"' becomes '\"', '\n' is dropped, every other character is kept |
| ExporterUtils.ReplaceAppend | src/exporters/utils.rs:18 | replacing distributes over concatenation |
| ExporterUtils.FilterCmdlineHead | src/exporters/utils.rs:17-19 | the escaped text never starts with a bare quote |
| ExporterUtils.UnescapeFilterCmdline | src/exporters/utils.rs:126-133 | reading the escapes back gives the command line without its line breaks |
| ExporterUtils.GuestNameSound | src/exporters/utils.rs:26-35 | a guest name is non-empty, has no ',' and sits right after the first "guest=", followed by ',' |
| ExporterUtils.FilterQemuCmdlineSound | src/exporters/utils.rs:24-38 | a name is found only in a "qemu-system" command line, and it is that guest name |
| ExporterUtils.GuestNameNone | src/exporters/utils.rs:31-33 | no name iff there is no "guest=", no ',' in that option, or an empty name |
| ExporterUtils.FilterQemuCmdlineNone | src/exporters/utils.rs:24-37 | the same three cases for a qemu command line (the tests `ko_no_guest_token`, `ko_no_comma_separator`, `ko_empty_guest01` and `ko_empty_guest02`) |
| ExporterUtils.GuestNameFindsGuest | src/exporters/utils.rs:26-34 | a first "guest=NAME," gives NAME |
| ExporterUtils.FilterQemuCmdlineFindsGuest | src/exporters/utils.rs:63-66 | a qemu command line whose first option is "guest=NAME," gives NAME, as "fedora33" in the test |
| ExporterUtils.ScaphandreVersionOfTriple | src/exporters/utils.rs:41-47 | "a.b.c" becomes "a.bc" |
| Qemu.VmNameOf | src/exporters/qemu.rs:106-108 | the name has no ',' |
| Qemu.VmNameOfSeparators | src/exporters/qemu.rs:106-108 | the name has neither '=' nor ',' |
| Qemu.VmNameOfGuest | src/exporters/qemu.rs:105-108 | "guest=NAME,..." gives NAME back |
| Qemu.FirstGuestArg | src/exporters/qemu.rs:104-105 | the first element starting with "guest=", or none does |
| Qemu.GetVmNameFromCmdline | src/exporters/qemu.rs:103-112 | the name from the first "guest=" element, or "" when there is none |
| Qemu.QemuHistories | src/exporters/qemu.rs:135-158 | only Qemu histories, no more than the input |
| Qemu.QemuHistoriesMembers | src/exporters/qemu.rs:138-153 | a history is kept iff it is non-empty and its head's command line has an element containing "qemu-system" |
| Qemu.QemuHistoriesOfAppend | src/exporters/qemu.rs:138-156 | filtering keeps the order |
| Qemu.FindArg | src/exporters/qemu.rs:141-146 | the `find`: an element containing the pattern, or none contains it |
| Qemu.FilterQemuVmProcesses | src/exporters/qemu.rs:135-158 | the nested copy loops compute exactly `QemuHistories` |
| Qemu.AddOrCreate | src/exporters/qemu.rs:117-131 | an existing file holds old + value (u64, wrapping); a missing file gets 0 |
| Qemu.FileAfter | src/exporters/qemu.rs:126-130 | a file exists iff there was at least one call, and it always parses |
| Qemu.FileAfterSum | src/exporters/qemu.rs:117-131 | repeated calls accumulate every value except the first |
| Qemu.AccountedStep | src/exporters/qemu.rs:62-97 | one more history accounts for that history |
| Qemu.AccountedShortHistories | src/exporters/qemu.rs:63 | histories of two records or fewer change no file |
| Qemu.AccountedFolders | src/exporters/qemu.rs:62-97 | only the guests' folders are written, and every accounted guest's folder exists afterwards |
| Qemu.Iterate | src/exporters/qemu.rs:55-99 | nothing without the host power; else each Qemu history of more than two records adds its share to its guest's file |
| Datadog.AsStr | src/exporters/datadog.rs:16-24 | the name is "count", "gauge" or "rate", and it is "count" exactly for `Count`, "gauge" exactly for `Gauge`, "rate" exactly for `Rate` |
| Datadog.AsStrInjective | src/exporters/datadog.rs:16-24 | different types get different names |
| Datadog.NewSerie | src/exporters/datadog.rs:80-89 | the name and type; no host, no interval, no points, no tags |
| Datadog.SetHost | src/exporters/datadog.rs:93-96 | sets the host; no other field changes |
| Datadog.SetInterval | src/exporters/datadog.rs:98-101 | sets the interval; no other field changes |
| Datadog.SetPoints | src/exporters/datadog.rs:103-106 | replaces the points; no other field changes |
| Datadog.AddPoint | src/exporters/datadog.rs:108-111 | appends the point at the end; no other field changes |
| Datadog.SetTags | src/exporters/datadog.rs:115-118 | replaces the tags; no other field changes |
| Datadog.AddTag | src/exporters/datadog.rs:120-123 | appends the tag at the end; no other field changes |
| Datadog.AddPointAddTagCommute | src/exporters/datadog.rs:108-123 | adding a point and a tag commute |
| Datadog.Merge | src/exporters/datadog.rs:163-168 | the fold yields first followed by second |
| Datadog.GetDomainName | src/exporters/datadog.rs:170-177 | a name iff the index is 0, 1 or 2; "core" exactly for 0, "uncore" exactly for 1, "dram" exactly for 2 |
| Datadog.GetDomainNameInjective | src/exporters/datadog.rs:170-177 | the three indexes get different names |
| Datadog.ConsumptionSerie | src/exporters/datadog.rs:302-306 | a "consumption" gauge of the host, tagged "hostname:{host}", with no points |
| Datadog.PowerValue | src/exporters/datadog.rs:352 | `parse::<u64>().unwrap_or(0)`: the value when it parses, else 0 |
| Datadog.DomainSeriesFrom | src/exporters/datadog.rs:361-391 | no more domain series than domains |
| Datadog.DomainSeriesNamed | src/exporters/datadog.rs:366-388 | every domain serie is that of a domain among the first three that has a record, named by its index |
| Datadog.DomainSeriesComplete | src/exporters/datadog.rs:366-388 | every domain among the first three that has a record gets its serie |
| Datadog.DomainSeriesPastThird | src/exporters/datadog.rs:367-370 | no domain past the third gets a serie |
| Datadog.SocketSeries | src/exporters/datadog.rs:348-360 | nothing without a socket power record; else the socket serie comes first |
| Datadog.FoldSeriesAppend | src/exporters/datadog.rs:344-347 | the fold over consecutive groups of sockets concatenates their series |
| Datadog.CollectSocketSeriesShape | src/exporters/datadog.rs:343-393 | every socket serie is a one-point "consumption" gauge of the host, first tagged with the host |
| Datadog.CollectSocketSeriesSkips | src/exporters/datadog.rs:348-351 | a socket without a power record contributes nothing, even when its domains have records |
| Datadog.CollectSeries | src/exporters/datadog.rs:395-399 | the process series followed by the socket series |
| Metrics.DomainRecordsMetricsShape | src/exporters/mod.rs:249-266 | one records count per domain, in order: its buffer length, tagged with the socket id and that domain's name |
| Metrics.SocketSelfMetricsShape | src/exporters/mod.rs:221-267 | a socket's stats count, then its records count, then its domains' records counts |
| Metrics.HostMetricsShape | src/exporters/mod.rs:272-322 | nothing for an empty buffer; else the last record's energy, then its whole seconds (parsing back), then the power when it exists |
| Metrics.SocketMetricsOfShape | src/exporters/mod.rs:326-366 | nothing for a socket without records; else its last energy, then the power when it exists, both tagged with the socket id |
| Metrics.SocketPowerIsTopologyPower | src/exporters/mod.rs:348-363 | every socket power metric carries the topology's power |
| Metrics.SocketsMetricsSkipEmpty | src/exporters/mod.rs:330 | sockets without records add no metric |
| Metrics.SystemMetricsShape | src/exporters/mod.rs:370-426 | one integer metric per available counter, none for the others |
| Metrics.ProcessAttributesShape | src/exporters/mod.rs:436-449 | pid and exe always; the escaped cmdline iff readable; vmname iff Qemu mode and a guest name is found |
| Metrics.ProcessMetrics | src/exporters/mod.rs:432-465 | no more metrics than processes |
| Metrics.ProcessMetricsSound | src/exporters/mod.rs:451-464 | every process metric is a process's power with its attributes |
| Metrics.ProcessMetricsComplete | src/exporters/mod.rs:452 | every process with a power value gets its metric |
| Metrics.MetricGenerator.constructor | src/exporters/mod.rs:98-105 | no metric yet |
| Metrics.MetricGenerator.PushDomainRecordsMetrics | src/exporters/mod.rs:249-266 | the domain loop appends exactly `DomainRecordsMetrics` |
| Metrics.MetricGenerator.GenSelfMetrics | src/exporters/mod.rs:108-268 | appends the version, the topology counts, then every socket's self metrics |
| Metrics.MetricGenerator.GenHostMetrics | src/exporters/mod.rs:272-323 | appends exactly `HostMetrics` |
| Metrics.MetricGenerator.PushSocketMetrics | src/exporters/mod.rs:329-364 | appends exactly one socket's `SocketMetricsOf` |
| Metrics.MetricGenerator.GenSocketMetrics | src/exporters/mod.rs:326-367 | appends the metrics of every socket, in order |
| Metrics.MetricGenerator.GenSystemMetrics | src/exporters/mod.rs:370-427 | appends exactly `SystemMetrics` |
| Metrics.MetricGenerator.BuildProcessAttributes | src/exporters/mod.rs:436-449 | the insertions build exactly `ProcessAttributes` |
| Metrics.MetricGenerator.GenProcessMetrics | src/exporters/mod.rs:429-466 | appends exactly `ProcessMetrics` |
| Metrics.MetricGenerator.GenAllMetrics | src/exporters/mod.rs:469-496 | appends self, host, socket, system then process metrics, in that order |
| Prometheus.PushMetric | src/exporters/prometheus.rs:137-151 | the old body is kept as a prefix and the line ends the result; with help, the header "# HELP n h\n# TYPE n t\n" sits between them; without, body ++ line |
| Prometheus.HelpHeaderLines | src/exporters/prometheus.rs:146-147 | the header is exactly a HELP line and a TYPE line |
| Prometheus.RenderValue | src/exporters/prometheus.rs:195-201 | an unsigned value renders as decimal digits of that value with no leading zero; text verbatim |
| Prometheus.AttributesOf | src/exporters/prometheus.rs:190-193 | `None` iff there are no attributes |
| Prometheus.PushedNamesSeen | src/exporters/prometheus.rs:203-209 | a name is in `metrics_pushed` iff some metric so far has it |
| Prometheus.PushedNamesDistinct | src/exporters/prometheus.rs:208 | `metrics_pushed` holds each name once |
| Prometheus.Chunks | src/exporters/prometheus.rs:186-219 | one chunk per metric, in batch order: the header when the metric is the first of its name, then its line |
| Prometheus.ExpositionChunks | src/exporters/prometheus.rs:186-219 | the body is the concatenation, in metric order, of the optional headers and the lines |
| Prometheus.HelpOncePerName | src/exporters/prometheus.rs:203-209 | every name in the batch gets its header exactly once, at its first metric |
| Prometheus.RefreshPlan | src/exporters/prometheus.rs:167-180 | one refresh decision per request |
| Prometheus.RefreshPlanGaps | src/exporters/prometheus.rs:167-180 | a request refreshes iff more than 2 s passed since the previous request (since 0 for the first) |
| Prometheus.NoRefreshUnderFrequentScrapes | src/exporters/prometheus.rs:167-180 | when consecutive scrapes are at most 2 s apart, none after the first refreshes, and the first refreshes iff more than 2 s passed since the previous request |
| Prometheus.PowerMetrics.constructor | src/exporters/prometheus.rs:109-112 | `last_request` starts at 0 |
| Prometheus.PowerMetrics.ShowMetrics | src/exporters/prometheus.rs:154-236 | on "/{suffix}": refresh iff more than 2 s passed, `last_request` := now, body = the exposition; elsewhere the HTML link page and nothing changes |
| Prometheus.RenderMetrics | src/exporters/prometheus.rs:186-219 | the loop builds exactly the exposition of the batch |
| Prometheus.ExpositionExtend | src/exporters/prometheus.rs:203-218 | one loop round extends the exposition and `metrics_pushed` by one metric |
| PrometheusPush.PushUriFields | src/exporters/prometheuspush.rs:81-89 | split at '/', the URI gives back scheme, host:port, suffix, "job", job, "instance", hostname, and the port text parses back |
| PrometheusPush.WithHostAttributes | src/exporters/prometheuspush.rs:117-124 | "instance" and "hostname" are added with the hostname only when absent; existing attributes are unchanged |
| PrometheusPush.HeaderWritten | src/exporters/prometheuspush.rs:113-116 | the two `write!`s make up the same header as `push_metric` |
| PrometheusPush.BatchBody | src/exporters/prometheuspush.rs:101-132 | the loop builds exactly the exposition of the batch with the host attributes, headers once per name |

## Left out

- Reads of procfs and sysinfo (`KernelStats`, `CpuInfo`, process handles, memory, disk and load): their results are parameters, such as the read `Record`, the `CPUStat`, the `SystemReadings` and the `ProcessReading`s. `generate_cpu_cores`, `add_cpu_cores`, `refresh`, `refresh_procs` and `read_stats` of cores and topology are not part of this model.
- File and directory I/O: reads of `energy_uj` and `name`, directory listings, Qemu directory creation, and the file writes are modelled as input sequences and maps. The `create_dir_all` panic is not modelled.
- Floating point: the power divisions of `get_records_diff_power_microwatts`, `get_process_power_consumption_microwatts`, the per-process share in `iterate` (`ujToAdd` is a parameter), Datadog `collect_process_series`, and the CPU and memory self metrics of `gen_self_metrics`. Only the integer guards are modelled. Units use `real`, so f64 rounding is not modelled.
- Network and concurrency: the hyper/tokio server, `Mutex`/`Arc` and the lock errors in prometheus.rs, the isahc send and the sleep loop in prometheuspush.rs, and `Client::send` in datadog.rs.
- Prometheus.PowerMetrics.ShowMetrics: the refresh itself (`clean_terminated_process_records_vectors` and `topology.refresh`) is reported through `refreshed` and not performed. The batch is a parameter, because `pop_metrics` is not part of this model (src/exporters/mod.rs defines `get_metrics`).
- Prometheus.PowerMetrics.ShowMetrics: requires `last_request <= now` on the metrics path. When the system clock moves back, `now - *last_request` (src/exporters/prometheus.rs:167) panics while both mutexes are held. That poisons them, and every later scrape takes the `Err` branches (lines 221-230) and answers an empty body. Neither the panic nor the poisoning is modelled.
- `format_prometheus_metric` is not part of this model: the line format is a parameter of the Prometheus modules.
- PrometheusPush.BatchBody: the value text is `RenderValue`. The source calls `to_string`, which needs a `Display` impl, but src/exporters/mod.rs:53-62 defines only `Debug`.
- PrometheusPush.PushUriFields: requires a host without ':', so bracketed IPv6 hosts are not covered.
- Metrics.MetricGenerator.GenAllMetrics: the topology metrics are read from the topology as it was on entry. The version string is a parameter, with `ExporterUtils.ScaphandreVersion` giving its shape. The metric descriptions are a table of constants.
- Metrics.MetricGenerator.GenSelfMetrics: the CPU and memory usage metrics of the scaphandre process are left out (floating point and procfs).
- `get_records_passive`, `get_sockets_passive`, `get_metrics` and the debug getters are field reads, so they are modelled as the fields themselves. `get_debug_type` is the constant "Debug".
- `set_id` of `CPUSocket` and the Windows code paths are not part of this model.
- The socket.rs methods of `impl dyn Socket` are modelled over `Debug.DebugSocket`, the only `Socket` implementation in this model.
- Socket.RefreshStats: the source unwraps `read_stats`, so the model requires a stat. For `DebugSocket`, which has none, the source panics.
- PowercapRapl.GenerateTopology: requires the ids of every matching folder to parse as u16, because the source unwraps them. The module check only logs a warning. `\d` is taken as the ASCII digits, while the regex crate's `\d` matches every Unicode decimal digit.
- PowercapRapl.DomainFolderIds: requires a base path without ':'. A ':' in the base path shifts the fields the source reads.
- Lib.RawReadFromPowercapSysfs: requires every matching folder to be readable and its value to parse as u128, because the source unwraps both.
- Lib.RawReadFromPowercapSysfs: `\d` in `intel-rapl:\d{1}:\d{1}` (src/lib.rs:70) is taken as the ASCII digits 0-9. The regex crate's `\d` also matches the other Unicode decimal digits, so a folder named with, say, Arabic-Indic digits is reported by the source and not by the model.
- Lib.ReportIsOneLinePerFolder: the same ASCII reading of `\d` applies to the folders it counts.
- Sensors.RecordsDiff: requires the last two values to parse, because the source unwraps them.
- SensorUtils.TotalTimeJiffies: the sum is stated only below 2^64. The source's `+` would panic in a debug build and wrap in release.
- `get_diff_utime`, `get_diff_stime`, `get_alive_processes`, `get_alive_pids`, `get_process_name`, `get_process_cmdline`, `get_filtered_processes`, `clean_terminated_process_records_vectors` and `get_process_container_description` read procfs or container APIs and are not part of this model.
- Python bindings, the stdout, JSON, Riemann, Warp10 and Elastic exporters, main.rs, errors.rs, msr_rapl.rs and the integration test are not part of this model.

## Findings

| source | as written | input that shows it | evidently intended | confidence | as-written member | corrected member |
|---|---|---|---|---|---|---|
| src/sensors/utils.rs:842-847 | a history is admitted while fewer than `top` held entries have a *total* jiffies count (of the stored process, the history's oldest record) above the new entry's *consumed* time | `top` = 1; process 1 has records of 100 then 95 total jiffies (consumed 5); process 2, listed after it, has 10 then 0 (consumed 10): 95 > 10, so process 2 is turned away and process 1 is reported | compare consumed time with consumed time, so that the `top` largest consumers are returned | not executed; proved on the model | SensorUtils.TopConsumersAsWrittenMissesBiggest | SensorUtils.TopConsumersIsTopN |
