/** The energy topology of src/sensors/mod.rs: a `Topology` owns `CPUSocket`s,
    which own RAPL `Domain`s; each keeps a bounded buffer of energy `Record`s
    (appended at the tail, evicted from the head) and the topology and
    sockets keep a bounded buffer of `CPUStat`s (inserted at index 0, popped
    from the tail). Reads of counters and of /proc/stat are inputs. */
module Sensors {
  import opened Wrappers
  import opened Strings
  import opened MachineInt
  import SensorUtils

  /** The variants of `units::Unit` that records of this module carry. */
  datatype RecordUnit = MicroJoule | MicroWatt | Percentage | Bytes

  /** `Record`: a measurement, the time it was taken (nanoseconds since the
      epoch) and its value as text. */
  datatype Record = Record(timestamp: nat, value: string, unit: RecordUnit)

  /** `Duration::as_secs` of a record's timestamp: its whole seconds. */
  function Seconds(r: Record): (secs: nat)
    ensures secs * 1_000_000_000 <= r.timestamp < (secs + 1) * 1_000_000_000
  {
    r.timestamp / 1_000_000_000
  }

  /** `CPUStat`: cumulated CPU times, in jiffies. */
  datatype CPUStat = CPUStat(
    user: u64, nice: u64, system: u64, idle: u64,
    irq: Option<u64>, iowait: Option<u64>, softirq: Option<u64>,
    steal: Option<u64>, guest: Option<u64>, guest_nice: Option<u64>)

  /** `CPUCore`: a core id and its /proc/cpuinfo attributes. */
  datatype CPUCore = CPUCore(id: u16, attributes: map<string, string>)

  /** `size_of_val` of one `Record` (a `Duration`, a `String` and a unit) and
      of one `CPUStat` (four u64 and six `Option<u64>`), in bytes. */
  const RECORD_SIZE: nat := 48
  const STAT_SIZE: nat := 128

  // ---------------------------------------------------------------------
  // Buffer eviction.

  /** `buffer_max_kbytes * 1000`, computed in u16: it wraps above 65 kB. */
  function Budget(kb: u16): (b: u16)
    ensures kb <= 65 ==> b == kb * 1000
    ensures kb == 66 ==> b == 464
  {
    MulU16(kb, 1000)
  }

  /** Number of entries the cleaners remove from a buffer of `len` entries
      of `size` bytes: nothing unless the buffer exceeds `budget` by more
      than one entry; else the `1..n` loop runs floor(excess / size) - 1 times.
      What survives still exceeds the budget by one to two entries. */
  function EvictCount(size: nat, len: nat, budget: nat): (k: nat)
    requires size > 0
    ensures k <= len && (len > 0 ==> k < len)
    ensures size * len <= budget + size ==> k == 0
    ensures size * len > budget + size ==> budget + size <= size * (len - k) < budget + 2 * size
  {
    var curr := size * len;
    if curr > budget && curr - budget > size then
      var excess := curr - budget;
      var q := excess / size;
      assert excess == q * size + excess % size;
      assert q * size <= size * len;
      assert q <= len;
      assert size * (len - (q - 1)) == size * len - q * size + size;
      q - 1
    else 0
  }

  /** `clean_old_records` of `Topology`: the same count, but the comparison
      with the budget is made on `curr_size as u16`. It never removes more
      than the plain count, and agrees with it below 64 KiB. */
  function TopologyEvictCount(size: nat, len: nat, budget: nat): (k: nat)
    requires size > 0
    ensures k <= EvictCount(size, len, budget)
    ensures size * len < U16_LIMIT ==> k == EvictCount(size, len, budget)
  {
    var curr := size * len;
    if AsU16(curr) > budget && curr - budget > size then (curr - budget) / size - 1 else 0
  }

  /** Above it the cleaner can be blind: 1366 records take 65568 bytes,
      which truncate to 32, so nothing is removed although the one-kilobyte
      budget is exceeded 65 times over. */
  lemma TopologyEvictCountTruncates()
    ensures TopologyEvictCount(RECORD_SIZE, 1366, Budget(1)) == 0
    ensures EvictCount(RECORD_SIZE, 1366, Budget(1)) == 1344
  {
    assert AsU16(RECORD_SIZE * 1366) == 32;
  }

  /** A buffer whose size is less than two entries above the budget. */
  predicate WithinBound(size: nat, len: nat, budget: nat) {
    size * len < budget + 2 * size
  }

  /** Whatever its size before, a cleaned buffer is within the bound: the
      cleaners only ever let a buffer exceed its budget by less than two entries. */
  lemma CleanedWithinBound(size: nat, len: nat, budget: nat)
    requires size > 0
    ensures WithinBound(size, len - EvictCount(size, len, budget), budget)
  {
    var k := EvictCount(size, len, budget);
    if size * len <= budget + size {
      assert k == 0;
    }
  }

  // ---------------------------------------------------------------------
  // Differences of counters and of CPU stats.

  /** `CPUStat::total_time_jiffies`: user + nice + system + guest_nice + guest
      in u64, a missing field counting as 0; idle, iowait, irq, softirq and
      steal are not part of it. */
  function StatTotalJiffies(s: CPUStat): (t: u64)
    ensures var sum := s.user + s.nice + s.system + s.guest_nice.UnwrapOr(0) + s.guest.UnwrapOr(0);
      sum < U64_LIMIT ==> t == sum
  {
    AddU64(AddU64(AddU64(AddU64(s.user, s.nice), s.system), s.guest_nice.UnwrapOr(0)), s.guest.UnwrapOr(0))
  }

  /** The difference of an optional field: present only when both sides are. */
  function OptionDiff(last: Option<u64>, previous: Option<u64>): (r: Option<u64>)
    ensures r.Some? <==> last.Some? && previous.Some?
    ensures r.Some? ==> AddU64(r.value, previous.value) == last.value
    ensures r.Some? && previous.value <= last.value ==> r.value == last.value - previous.value
  {
    if last.Some? && previous.Some? then Some(SubU64(last.value, previous.value)) else None
  }

  /** `d` is the difference of an optional field: present exactly when both
      sides are, and then the u64 value that added to `previous` gives `last`. */
  predicate FieldDiff(d: Option<u64>, last: Option<u64>, previous: Option<u64>) {
    && (d.Some? <==> last.Some? && previous.Some?)
    && (d.Some? ==> AddU64(d.value, previous.value) == last.value)
  }

  /** `get_stats_diff`: with the newest stat at index 0, the field-by-field
      difference `stat_buffer[0] - stat_buffer[1]` (u64 subtraction, wrapping). */
  function StatsDiff(buf: seq<CPUStat>): (r: Option<CPUStat>)
    ensures r.Some? <==> |buf| > 1
    ensures r.Some? ==> AddU64(r.value.user, buf[1].user) == buf[0].user
                        && AddU64(r.value.nice, buf[1].nice) == buf[0].nice
                        && AddU64(r.value.system, buf[1].system) == buf[0].system
                        && AddU64(r.value.idle, buf[1].idle) == buf[0].idle
    ensures r.Some? ==> FieldDiff(r.value.irq, buf[0].irq, buf[1].irq)
                        && FieldDiff(r.value.iowait, buf[0].iowait, buf[1].iowait)
                        && FieldDiff(r.value.softirq, buf[0].softirq, buf[1].softirq)
                        && FieldDiff(r.value.steal, buf[0].steal, buf[1].steal)
                        && FieldDiff(r.value.guest, buf[0].guest, buf[1].guest)
                        && FieldDiff(r.value.guest_nice, buf[0].guest_nice, buf[1].guest_nice)
  {
    if |buf| > 1 then
      var last := buf[0];
      var previous := buf[1];
      Some(CPUStat(
        SubU64(last.user, previous.user), SubU64(last.nice, previous.nice),
        SubU64(last.system, previous.system), SubU64(last.idle, previous.idle),
        OptionDiff(last.irq, previous.irq), OptionDiff(last.iowait, previous.iowait),
        OptionDiff(last.softirq, previous.softirq), OptionDiff(last.steal, previous.steal),
        OptionDiff(last.guest, previous.guest), OptionDiff(last.guest_nice, previous.guest_nice)))
    else None
  }

  /** No counted field went down, and each optional one is present on both
      sides or on neither. */
  predicate CountersGrew(last: CPUStat, previous: CPUStat) {
    && previous.user <= last.user && previous.nice <= last.nice && previous.system <= last.system
    && (last.guest.Some? <==> previous.guest.Some?)
    && (last.guest.Some? ==> previous.guest.value <= last.guest.value)
    && (last.guest_nice.Some? <==> previous.guest_nice.Some?)
    && (last.guest_nice.Some? ==> previous.guest_nice.value <= last.guest_nice.value)
  }

  /** When the counters grew and nothing overflows, the total of the
      difference is the difference of the totals. */
  lemma StatsDiffTotal(buf: seq<CPUStat>)
    requires |buf| > 1 && CountersGrew(buf[0], buf[1])
    requires buf[0].user + buf[0].nice + buf[0].system + buf[0].guest_nice.UnwrapOr(0) + buf[0].guest.UnwrapOr(0) < U64_LIMIT
    ensures StatTotalJiffies(StatsDiff(buf).value) + StatTotalJiffies(buf[1]) == StatTotalJiffies(buf[0])
  {
    var d := StatsDiff(buf).value;
    assert d.user == buf[0].user - buf[1].user;
    assert d.nice == buf[0].nice - buf[1].nice;
    assert d.system == buf[0].system - buf[1].system;
    assert d.guest.UnwrapOr(0) == buf[0].guest.UnwrapOr(0) - buf[1].guest.UnwrapOr(0);
    assert d.guest_nice.UnwrapOr(0) == buf[0].guest_nice.UnwrapOr(0) - buf[1].guest_nice.UnwrapOr(0);
  }

  /** A record value that `parse::<u64>()` accepts. */
  predicate ParsesU64(s: string) {
    ParseUnsigned(s, U64_LIMIT).Some?
  }

  /** `Topology::get_records_diff`: with more than two records (the source
      unwraps the parse of the last two), the difference of the last two
      values with the last record's time and unit, or `None` when the
      counter went down; no wrap-around correction. */
  function RecordsDiff(buf: seq<Record>): (r: Option<Record>)
    requires |buf| > 2 ==> ParsesU64(buf[|buf| - 1].value) && ParsesU64(buf[|buf| - 2].value)
    ensures r.Some? <==> |buf| > 2 && ParseUnsigned(buf[|buf| - 2].value, U64_LIMIT).value
                                      <= ParseUnsigned(buf[|buf| - 1].value, U64_LIMIT).value
    ensures r.Some? ==> r.value.timestamp == buf[|buf| - 1].timestamp && r.value.unit == buf[|buf| - 1].unit
    ensures r.Some? ==> ParseUnsigned(r.value.value, U64_LIMIT).Some?
                        && ParseUnsigned(r.value.value, U64_LIMIT).value + ParseUnsigned(buf[|buf| - 2].value, U64_LIMIT).value
                           == ParseUnsigned(buf[|buf| - 1].value, U64_LIMIT).value
  {
    if |buf| > 2 then
      var last := buf[|buf| - 1];
      var lastValue := ParseUnsigned(last.value, U64_LIMIT).value;
      var previousValue := ParseUnsigned(buf[|buf| - 2].value, U64_LIMIT).value;
      if previousValue <= lastValue then
        ParseOfNatToString(lastValue - previousValue, U64_LIMIT);
        Some(Record(last.timestamp, NatToString(lastValue - previousValue), last.unit))
      else None
    else None
  }

  /** The trimmed values of the last two records (previous, then last)
      parsed as unsigned integers below `limit`, when there are two records
      and both parse. */
  function LastTwoCounters(buf: seq<Record>, limit: nat): (r: Option<(nat, nat)>)
    ensures r.Some? <==> |buf| > 1 && ParseUnsigned(Trim(buf[|buf| - 1].value), limit).Some?
                         && ParseUnsigned(Trim(buf[|buf| - 2].value), limit).Some?
    ensures r.Some? ==> r.value == (ParseUnsigned(Trim(buf[|buf| - 2].value), limit).value,
                                    ParseUnsigned(Trim(buf[|buf| - 1].value), limit).value)
  {
    if |buf| > 1 then
      match (ParseUnsigned(Trim(buf[|buf| - 2].value), limit), ParseUnsigned(Trim(buf[|buf| - 1].value), limit))
      case (Some(previous), Some(last)) => Some((previous, last))
      case _ => None
    else None
  }

  /** The microjoules between the last two records, as the guards of
      `get_records_diff_power_microwatts` of `Topology` (parsing as u128)
      and of `Domain` (as u64) see them: `None` with fewer than two
      records, an unparsable trimmed value or a counter that went down. */
  function MicrojoulesOrNone(buf: seq<Record>, limit: nat): (r: Option<nat>)
    ensures r.Some? <==> LastTwoCounters(buf, limit).Some? && LastTwoCounters(buf, limit).value.0 <= LastTwoCounters(buf, limit).value.1
    ensures r.Some? ==> r.value + LastTwoCounters(buf, limit).value.0 == LastTwoCounters(buf, limit).value.1
  {
    match LastTwoCounters(buf, limit)
    case Some((previous, last)) => if previous > last then None else Some(last - previous)
    case None => None
  }

  /** The same guard for `CPUSocket` and `dyn Socket`: a counter that went
      down gives 0 microjoules instead of `None`. */
  function MicrojoulesOrZero(buf: seq<Record>): (r: Option<nat>)
    ensures r.Some? <==> LastTwoCounters(buf, U64_LIMIT).Some?
    ensures r.Some? ==> var (previous, last) := LastTwoCounters(buf, U64_LIMIT).value;
                        (previous <= last ==> r.value + previous == last) && (previous > last ==> r.value == 0)
  {
    match LastTwoCounters(buf, U64_LIMIT)
    case Some((previous, last)) => Some(if last >= previous then last - previous else 0)
    case None => None
  }

  /** Both guards agree whenever the counter did not go down. */
  lemma MicrojoulesGuardsAgree(buf: seq<Record>)
    requires MicrojoulesOrNone(buf, U64_LIMIT).Some?
    ensures MicrojoulesOrZero(buf) == MicrojoulesOrNone(buf, U64_LIMIT)
  {
    var counters := LastTwoCounters(buf, U64_LIMIT);
    assert counters.Some? && counters.value.0 <= counters.value.1;
    assert MicrojoulesOrNone(buf, U64_LIMIT) == Some(counters.value.1 - counters.value.0);
    assert MicrojoulesOrZero(buf) == Some(counters.value.1 - counters.value.0);
  }

  // ---------------------------------------------------------------------
  // Domain.

  /** The buffer an energy-record refresh leaves: the read record appended
      when the read succeeded, then the cleaning. */
  function RefreshedRecords(buf: seq<Record>, read: Result<Record, string>, budget: nat): seq<Record> {
    var pushed := if read.Ok? then buf + [read.value] else buf;
    pushed[EvictCount(RECORD_SIZE, |pushed|, budget)..]
  }

  /** A refresh keeps the newest records: the read one is the last when it
      succeeded, and the survivors are a suffix of what was there. */
  lemma RefreshedRecordsNewest(buf: seq<Record>, read: Result<Record, string>, budget: nat)
    ensures var r := RefreshedRecords(buf, read, budget);
      (read.Ok? ==> |r| > 0 && r[|r| - 1] == read.value && r[..|r| - 1] == buf[|buf| + 1 - |r|..])
      && (read.Err? ==> r == buf[|buf| - |r|..])
  {
  }

  class Domain {
    const id: u16
    const name: string
    const counterUjPath: string
    const bufferMaxKbytes: u16
    const sensorData: map<string, string>
    /** Energy records, oldest first. */
    var recordBuffer: seq<Record>

    /** The buffer stays less than two records above the budget. */
    ghost predicate Valid()
      reads this
    {
      WithinBound(RECORD_SIZE, |recordBuffer|, Budget(bufferMaxKbytes))
    }

    /** `Domain::new`: an empty buffer. */
    constructor (id: u16, name: string, counterUjPath: string, bufferMaxKbytes: u16, sensorData: map<string, string>)
      ensures this.id == id && this.name == name && this.counterUjPath == counterUjPath
      ensures this.bufferMaxKbytes == bufferMaxKbytes && this.sensorData == sensorData
      ensures recordBuffer == [] && Valid()
    {
      this.id := id;
      this.name := name;
      this.counterUjPath := counterUjPath;
      this.bufferMaxKbytes := bufferMaxKbytes;
      this.sensorData := sensorData;
      recordBuffer := [];
    }

    /** `refresh_record`, the result of `read_record` given: push on success,
        keep the buffer on error, then clean a non-empty buffer. */
    method RefreshRecord(read: Result<Record, string>)
      modifies this
      ensures recordBuffer == RefreshedRecords(old(recordBuffer), read, Budget(bufferMaxKbytes))
      ensures Valid()
    {
      if read.Ok? {
        recordBuffer := recordBuffer + [read.value];
      }
      if |recordBuffer| > 0 {
        CleanOldRecords();
      }
      ghost var pushed := if read.Ok? then old(recordBuffer) + [read.value] else old(recordBuffer);
      CleanedWithinBound(RECORD_SIZE, |pushed|, Budget(bufferMaxKbytes));
    }

    /** `clean_old_records`: remove EvictCount records from the head. The
        source indexes `record_buffer[0]`, so the buffer is not empty. */
    method CleanOldRecords()
      requires |recordBuffer| > 0
      modifies this
      ensures recordBuffer == old(recordBuffer)[EvictCount(RECORD_SIZE, |old(recordBuffer)|, Budget(bufferMaxKbytes))..]
    {
      var currSize := RECORD_SIZE * |recordBuffer|;
      var budget := Budget(bufferMaxKbytes);
      if currSize > budget {
        var sizeDiff := currSize - budget;
        if sizeDiff > RECORD_SIZE {
          var nbRecordsToDelete := sizeDiff / RECORD_SIZE;
          for i := 1 to nbRecordsToDelete
            invariant recordBuffer == old(recordBuffer)[i - 1..]
          {
            if |recordBuffer| > 0 {
              recordBuffer := recordBuffer[1..];
            }
          }
        }
      }
    }
  }

  // ---------------------------------------------------------------------
  // CPUSocket.

  /** Some domain of the list has this id. */
  predicate HasDomainId(domains: seq<Domain>, id: u16) {
    exists d :: d in domains && d.id == id
  }

  /** The domain list after `safe_add_domain`: unchanged when a domain with
      the same id is present, else the new domain appended. */
  function DomainsWith(domains: seq<Domain>, domain: Domain): (r: seq<Domain>)
    ensures |r| == if HasDomainId(domains, domain.id) then |domains| else |domains| + 1
    ensures HasDomainId(r, domain.id)
    ensures forall i :: 0 <= i < |domains| ==> r[i] == domains[i]
  {
    if HasDomainId(domains, domain.id) then domains else domains + [domain]
  }

  /** Adding a domain keeps domain ids unique. */
  lemma DomainsWithKeepsIdsUnique(domains: seq<Domain>, domain: Domain)
    requires forall i, j :: 0 <= i < j < |domains| ==> domains[i].id != domains[j].id
    ensures var r := DomainsWith(domains, domain);
      forall i, j :: 0 <= i < j < |r| ==> r[i].id != r[j].id
  {
    var r := DomainsWith(domains, domain);
    if !HasDomainId(domains, domain.id) {
      forall i, j | 0 <= i < j < |r|
        ensures r[i].id != r[j].id
      {
        if j == |domains| {
          assert domains[i] in domains;
        }
      }
    }
  }

  /** The stat buffer after the tail cleaning: the newest entries kept. */
  function CleanedStats(buf: seq<CPUStat>, budget: nat): seq<CPUStat> {
    buf[..|buf| - EvictCount(STAT_SIZE, |buf|, budget)]
  }

  class CPUSocket {
    const id: u16
    const attributes: seq<seq<map<string, string>>>
    const counterUjPath: string
    const bufferMaxKbytes: u16
    const sensorData: map<string, string>
    var domains: seq<Domain>
    /** Energy records, oldest first. */
    var recordBuffer: seq<Record>
    var cpuCores: seq<CPUCore>
    /** CPU stats, newest first. */
    var statBuffer: seq<CPUStat>

    /** The record buffer stays less than two records above the budget; the
        stat buffer, cleaned before each insertion, less than three stats. */
    ghost predicate Valid()
      reads this
    {
      && WithinBound(RECORD_SIZE, |recordBuffer|, Budget(bufferMaxKbytes))
      && STAT_SIZE * |statBuffer| < Budget(bufferMaxKbytes) + 3 * STAT_SIZE
    }

    /** `CPUSocket::new`: empty buffers and no core yet. */
    constructor (id: u16, domains: seq<Domain>, attributes: seq<seq<map<string, string>>>,
                 counterUjPath: string, bufferMaxKbytes: u16, sensorData: map<string, string>)
      ensures this.id == id && this.domains == domains && this.attributes == attributes
      ensures this.counterUjPath == counterUjPath && this.bufferMaxKbytes == bufferMaxKbytes
      ensures this.sensorData == sensorData
      ensures recordBuffer == [] && cpuCores == [] && statBuffer == [] && Valid()
    {
      this.id := id;
      this.domains := domains;
      this.attributes := attributes;
      this.counterUjPath := counterUjPath;
      this.bufferMaxKbytes := bufferMaxKbytes;
      this.sensorData := sensorData;
      recordBuffer := [];
      cpuCores := [];
      statBuffer := [];
    }

    /** `refresh_record`, the result of `read_record` given. */
    method RefreshRecord(read: Result<Record, string>)
      modifies this
      ensures recordBuffer == RefreshedRecords(old(recordBuffer), read, Budget(bufferMaxKbytes))
      ensures domains == old(domains) && cpuCores == old(cpuCores) && statBuffer == old(statBuffer)
      ensures old(Valid()) ==> Valid()
    {
      ghost var pushed := if read.Ok? then recordBuffer + [read.value] else recordBuffer;
      if read.Ok? {
        recordBuffer := recordBuffer + [read.value];
      }
      assert recordBuffer == pushed;
      if |recordBuffer| > 0 {
        CleanOldRecords();
      }
      CleanedWithinBound(RECORD_SIZE, |pushed|, Budget(bufferMaxKbytes));
    }

    /** `clean_old_records`: remove EvictCount records from the head. */
    method CleanOldRecords()
      requires |recordBuffer| > 0
      modifies this
      ensures recordBuffer == old(recordBuffer)[EvictCount(RECORD_SIZE, |old(recordBuffer)|, Budget(bufferMaxKbytes))..]
      ensures domains == old(domains) && cpuCores == old(cpuCores) && statBuffer == old(statBuffer)
    {
      var currSize := RECORD_SIZE * |recordBuffer|;
      var budget := Budget(bufferMaxKbytes);
      if currSize > budget {
        var sizeDiff := currSize - budget;
        if sizeDiff > RECORD_SIZE {
          var nbRecordsToDelete := sizeDiff / RECORD_SIZE;
          for i := 1 to nbRecordsToDelete
            invariant recordBuffer == old(recordBuffer)[i - 1..]
            invariant domains == old(domains) && cpuCores == old(cpuCores) && statBuffer == old(statBuffer)
          {
            if |recordBuffer| > 0 {
              recordBuffer := recordBuffer[1..];
            }
          }
        }
      }
    }

    /** `safe_add_domain`: append unless a domain with that id is present. */
    method SafeAddDomain(domain: Domain)
      modifies this
      ensures domains == DomainsWith(old(domains), domain)
      ensures recordBuffer == old(recordBuffer) && cpuCores == old(cpuCores) && statBuffer == old(statBuffer)
    {
      var present := false;
      for i := 0 to |domains|
        invariant present <==> exists j :: 0 <= j < i && domains[j].id == domain.id
      {
        if domains[i].id == domain.id {
          present := true;
        }
      }
      if !present {
        domains := domains + [domain];
      }
    }

    /** `add_cpu_core`: append the core, nothing else changes. */
    method AddCpuCore(core: CPUCore)
      modifies this
      ensures cpuCores == old(cpuCores) + [core]
      ensures domains == old(domains) && recordBuffer == old(recordBuffer) && statBuffer == old(statBuffer)
    {
      cpuCores := cpuCores + [core];
    }

    /** `refresh_stats`: clean a non-empty buffer first, then insert the
        stat `read_stats` returned (always `Some` for a socket) at index 0. */
    method RefreshStats(stats: CPUStat)
      modifies this
      ensures statBuffer == [stats] + CleanedStats(old(statBuffer), Budget(bufferMaxKbytes))
      ensures domains == old(domains) && recordBuffer == old(recordBuffer) && cpuCores == old(cpuCores)
      ensures old(Valid()) ==> Valid()
    {
      if |statBuffer| > 0 {
        CleanOldStats();
      }
      statBuffer := [stats] + statBuffer;
      CleanedWithinBound(STAT_SIZE, |old(statBuffer)|, Budget(bufferMaxKbytes));
    }

    /** `clean_old_stats`: pop EvictCount stats from the tail (the oldest). */
    method CleanOldStats()
      requires |statBuffer| > 0
      modifies this
      ensures statBuffer == CleanedStats(old(statBuffer), Budget(bufferMaxKbytes))
      ensures domains == old(domains) && recordBuffer == old(recordBuffer) && cpuCores == old(cpuCores)
    {
      var currSize := STAT_SIZE * |statBuffer|;
      var budget := Budget(bufferMaxKbytes);
      if currSize > budget {
        var sizeDiff := currSize - budget;
        if sizeDiff > STAT_SIZE {
          var nbStatsToDelete := sizeDiff / STAT_SIZE;
          for i := 1 to nbStatsToDelete
            invariant statBuffer == old(statBuffer)[..|old(statBuffer)| - (i - 1)]
            invariant domains == old(domains) && recordBuffer == old(recordBuffer) && cpuCores == old(cpuCores)
          {
            if |statBuffer| > 0 {
              statBuffer := statBuffer[..|statBuffer| - 1];
            }
          }
        }
      }
    }
  }

  // ---------------------------------------------------------------------
  // Topology.

  /** No two sockets share an id. */
  predicate UniqueSocketIds(sockets: seq<CPUSocket>) {
    forall i, j :: 0 <= i < j < |sockets| ==> sockets[i].id != sockets[j].id
  }

  predicate HasSocketId(sockets: seq<CPUSocket>, id: u16) {
    exists s :: s in sockets && s.id == id
  }

  /** Appending a socket whose id is absent keeps ids unique. */
  lemma AppendNewSocketId(sockets: seq<CPUSocket>, socket: CPUSocket)
    requires UniqueSocketIds(sockets) && !HasSocketId(sockets, socket.id)
    ensures UniqueSocketIds(sockets + [socket])
  {
    var r := sockets + [socket];
    forall i, j | 0 <= i < j < |r|
      ensures r[i].id != r[j].id
    {
      if j == |sockets| {
        assert sockets[i] in sockets;
      }
    }
  }

  /** The names of the domains of a list of domains. */
  function NamesOf(domains: seq<Domain>): set<string> {
    set d | d in domains :: d.name
  }

  /** The names of all domains of all sockets. */
  ghost function DomainNamesOf(sockets: seq<CPUSocket>): set<string>
    reads set s | s in sockets
  {
    if sockets == [] then {}
    else DomainNamesOf(sockets[..|sockets| - 1]) + NamesOf(sockets[|sockets| - 1].domains)
  }

  /** The buffer an energy-record refresh of the topology leaves. */
  function TopologyRefreshedRecords(buf: seq<Record>, read: Result<Record, string>, budget: nat): seq<Record> {
    var pushed := if read.Ok? then buf + [read.value] else buf;
    pushed[TopologyEvictCount(RECORD_SIZE, |pushed|, budget)..]
  }

  /** The stat buffer a topology refresh leaves: a successful read inserted
      at index 0, then the tail cleaning. */
  function TopologyRefreshedStats(buf: seq<CPUStat>, read: Option<CPUStat>, budget: nat): seq<CPUStat> {
    if read.Some? then CleanedStats([read.value] + buf, budget) else buf
  }

  class Topology {
    var sockets: seq<CPUSocket>
    const procTracker: SensorUtils.ProcessTracker
    /** CPU stats, newest first. */
    var statBuffer: seq<CPUStat>
    /** Energy records, oldest first. */
    var recordBuffer: seq<Record>
    const bufferMaxKbytes: u16
    var domainsNames: Option<seq<string>>
    const sensorData: map<string, string>

    /** Socket ids are unique and both buffers stay less than two entries
        above a budget that does not wrap. */
    ghost predicate Valid()
      reads this
    {
      && UniqueSocketIds(sockets)
      && bufferMaxKbytes <= 65
      && WithinBound(RECORD_SIZE, |recordBuffer|, Budget(bufferMaxKbytes))
      && WithinBound(STAT_SIZE, |statBuffer|, Budget(bufferMaxKbytes))
    }

    /** `Topology::new`: no socket, empty buffers, a process tracker keeping
        5 records per process, a one-kilobyte budget and no domain names. */
    constructor (sensorData: map<string, string>)
      ensures sockets == [] && statBuffer == [] && recordBuffer == [] && domainsNames == None
      ensures bufferMaxKbytes == 1 && this.sensorData == sensorData
      ensures fresh(procTracker) && procTracker.procs == [] && procTracker.maxRecordsPerProcess == 5
      ensures Valid()
    {
      sockets := [];
      procTracker := new SensorUtils.ProcessTracker(5);
      statBuffer := [];
      recordBuffer := [];
      bufferMaxKbytes := 1;
      domainsNames := None;
      this.sensorData := sensorData;
    }

    /** Whether some socket already has `id` (the `any` of the safe adders). */
    method HasSocket(id: u16) returns (found: bool)
      ensures found <==> HasSocketId(sockets, id)
    {
      found := false;
      for i := 0 to |sockets|
        invariant found <==> exists j :: 0 <= j < i && sockets[j].id == id
      {
        if sockets[i].id == id {
          found := true;
        }
      }
    }

    /** `safe_add_socket`: when no socket has `socketId`, append a new socket
        and return a copy of it; otherwise change nothing and return `None`. */
    method SafeAddSocket(socketId: u16, domains: seq<Domain>, attributes: seq<seq<map<string, string>>>,
                         counterUjPath: string, bufferMaxKbytes: u16, sensorData: map<string, string>)
      returns (r: Option<CPUSocket>)
      modifies this
      ensures r.Some? <==> !HasSocketId(old(sockets), socketId)
      ensures r.None? ==> sockets == old(sockets)
      ensures r.Some? ==> |sockets| == |old(sockets)| + 1 && sockets == old(sockets) + [sockets[|sockets| - 1]]
      ensures r.Some? ==> var added := sockets[|sockets| - 1];
        && fresh(added) && fresh(r.value) && added != r.value
        && added.id == socketId && r.value.id == socketId
        && added.domains == domains && r.value.domains == domains
        && added.attributes == attributes && r.value.attributes == attributes
        && added.counterUjPath == counterUjPath && r.value.counterUjPath == counterUjPath
        && added.bufferMaxKbytes == bufferMaxKbytes && r.value.bufferMaxKbytes == bufferMaxKbytes
        && added.sensorData == sensorData && r.value.sensorData == sensorData
        && added.recordBuffer == [] && r.value.recordBuffer == []
        && added.cpuCores == [] && r.value.cpuCores == []
        && added.statBuffer == [] && r.value.statBuffer == []
      ensures statBuffer == old(statBuffer) && recordBuffer == old(recordBuffer) && domainsNames == old(domainsNames)
      ensures old(Valid()) ==> Valid()
    {
      var found := HasSocket(socketId);
      if !found {
        var socket := new CPUSocket(socketId, domains, attributes, counterUjPath, bufferMaxKbytes, sensorData);
        var copy := new CPUSocket(socketId, domains, attributes, counterUjPath, bufferMaxKbytes, sensorData);
        if old(Valid()) {
          AppendNewSocketId(sockets, socket);
        }
        sockets := sockets + [socket];
        r := Some(copy);
      } else {
        r := None;
      }
    }

    /** `safe_insert_socket`: append the socket unless its id is taken. */
    method SafeInsertSocket(socket: CPUSocket)
      modifies this
      ensures sockets == if HasSocketId(old(sockets), socket.id) then old(sockets) else old(sockets) + [socket]
      ensures statBuffer == old(statBuffer) && recordBuffer == old(recordBuffer) && domainsNames == old(domainsNames)
      ensures old(Valid()) ==> Valid()
    {
      var found := HasSocket(socket.id);
      if !found {
        if old(Valid()) {
          AppendNewSocketId(sockets, socket);
        }
        sockets := sockets + [socket];
      }
    }

    /** `build_domains_names`: the names of all domains of all sockets,
        each once, sorted. */
    method BuildDomainsNames()
      modifies this
      ensures domainsNames.Some?
      ensures SortedStrings(domainsNames.value) && Distinct(domainsNames.value)
      ensures forall n :: n in domainsNames.value <==> n in DomainNamesOf(sockets)
      ensures sockets == old(sockets) && statBuffer == old(statBuffer) && recordBuffer == old(recordBuffer)
    {
      var names: seq<string> := [];
      var all := sockets;
      for i := 0 to |all|
        invariant forall n :: n in names <==> n in DomainNamesOf(all[..i])
        invariant Distinct(names)
      {
        var ds := all[i].domains;
        for k := 0 to |ds|
          invariant forall n :: n in names <==> n in DomainNamesOf(all[..i]) || n in NamesOf(ds[..k])
          invariant Distinct(names)
        {
          assert NamesOf(ds[..k + 1]) == NamesOf(ds[..k]) + {ds[k].name} by {
            assert ds[..k + 1] == ds[..k] + [ds[k]];
          }
          if ds[k].name !in names {
            names := names + [ds[k].name];
          }
        }
        assert all[..i + 1][..i] == all[..i];
        assert ds[..|ds|] == ds;
      }
      assert all[..|all|] == all;
      var sorted := SortStrings(names);
      DistinctPermutation(sorted, names);
      assert forall n :: n in sorted <==> n in multiset(names);
      domainsNames := Some(sorted);
    }

    /** `safe_add_domain_to_socket`: every socket with `socketId` gets a new
        domain unless it has one with `domainId`; the other sockets are
        untouched; then the domain names are rebuilt. */
    method SafeAddDomainToSocket(socketId: u16, domainId: u16, name: string, ujCounter: string,
                                 bufferMaxKbytes: u16, sensorData: map<string, string>)
      modifies this, set s | s in sockets
      ensures sockets == old(sockets) && statBuffer == old(statBuffer) && recordBuffer == old(recordBuffer)
      ensures forall s :: s in sockets ==>
        && s.recordBuffer == old(s.recordBuffer) && s.cpuCores == old(s.cpuCores) && s.statBuffer == old(s.statBuffer)
        && (s.id != socketId || HasDomainId(old(s.domains), domainId) ==> s.domains == old(s.domains))
        && (s.id == socketId && !HasDomainId(old(s.domains), domainId) ==>
              && |s.domains| == |old(s.domains)| + 1 && s.domains == old(s.domains) + [s.domains[|s.domains| - 1]]
              && var d := s.domains[|s.domains| - 1];
                 fresh(d) && d.id == domainId && d.name == name && d.counterUjPath == ujCounter
                 && d.bufferMaxKbytes == bufferMaxKbytes && d.sensorData == sensorData && d.recordBuffer == [])
      ensures domainsNames.Some? && SortedStrings(domainsNames.value) && Distinct(domainsNames.value)
      ensures forall n :: n in domainsNames.value <==> n in DomainNamesOf(sockets)
      ensures old(Valid()) ==> Valid()
    {
      AddDomainToSockets(socketId, domainId, name, ujCounter, bufferMaxKbytes, sensorData);
      BuildDomainsNames();
    }

    /** The loop of `safe_add_domain_to_socket`: a new domain for every socket
        with the id that does not hold the domain id yet. */
    method AddDomainToSockets(socketId: u16, domainId: u16, name: string, ujCounter: string,
                              bufferMaxKbytes: u16, sensorData: map<string, string>)
      modifies set s | s in sockets
      ensures forall s :: s in sockets ==>
        && s.recordBuffer == old(s.recordBuffer) && s.cpuCores == old(s.cpuCores) && s.statBuffer == old(s.statBuffer)
        && (s.id != socketId || HasDomainId(old(s.domains), domainId) ==> s.domains == old(s.domains))
        && (s.id == socketId && !HasDomainId(old(s.domains), domainId) ==>
              && |s.domains| == |old(s.domains)| + 1 && s.domains == old(s.domains) + [s.domains[|s.domains| - 1]]
              && var d := s.domains[|s.domains| - 1];
                 fresh(d) && d.id == domainId && d.name == name && d.counterUjPath == ujCounter
                 && d.bufferMaxKbytes == bufferMaxKbytes && d.sensorData == sensorData && d.recordBuffer == [])
    {
      ghost var visited: set<CPUSocket> := {};
      for i := 0 to |sockets|
        invariant forall j :: 0 <= j < i ==> sockets[j] in visited
        invariant forall s :: s in sockets ==>
          && s.recordBuffer == old(s.recordBuffer) && s.cpuCores == old(s.cpuCores) && s.statBuffer == old(s.statBuffer)
          && (s !in visited || s.id != socketId || HasDomainId(old(s.domains), domainId) ==> s.domains == old(s.domains))
          && (s in visited && s.id == socketId && !HasDomainId(old(s.domains), domainId) ==>
                && |s.domains| == |old(s.domains)| + 1 && s.domains == old(s.domains) + [s.domains[|s.domains| - 1]]
                && var d := s.domains[|s.domains| - 1];
                   fresh(d) && d.id == domainId && d.name == name && d.counterUjPath == ujCounter
                   && d.bufferMaxKbytes == bufferMaxKbytes && d.sensorData == sensorData && d.recordBuffer == [])
      {
        var socket := sockets[i];
        AddDomainIfMatching(socket, socketId, domainId, name, ujCounter, bufferMaxKbytes, sensorData);
        visited := visited + {socket};
      }
    }

    /** One round of that loop. */
    static method AddDomainIfMatching(socket: CPUSocket, socketId: u16, domainId: u16, name: string, ujCounter: string,
                                      bufferMaxKbytes: u16, sensorData: map<string, string>)
      modifies socket
      ensures socket.recordBuffer == old(socket.recordBuffer) && socket.cpuCores == old(socket.cpuCores)
      ensures socket.statBuffer == old(socket.statBuffer)
      ensures socket.id != socketId || HasDomainId(old(socket.domains), domainId) ==> socket.domains == old(socket.domains)
      ensures socket.id == socketId && !HasDomainId(old(socket.domains), domainId) ==>
        && |socket.domains| == |old(socket.domains)| + 1
        && socket.domains == old(socket.domains) + [socket.domains[|socket.domains| - 1]]
        && var d := socket.domains[|socket.domains| - 1];
           fresh(d) && d.id == domainId && d.name == name && d.counterUjPath == ujCounter
           && d.bufferMaxKbytes == bufferMaxKbytes && d.sensorData == sensorData && d.recordBuffer == []
    {
      if socket.id == socketId {
        var domain := new Domain(domainId, name, ujCounter, bufferMaxKbytes, sensorData);
        socket.SafeAddDomain(domain);
      }
    }


    /** `refresh_record`, the result of `read_record` given. */
    method RefreshRecord(read: Result<Record, string>)
      modifies this
      ensures recordBuffer == TopologyRefreshedRecords(old(recordBuffer), read, Budget(bufferMaxKbytes))
      ensures sockets == old(sockets) && statBuffer == old(statBuffer) && domainsNames == old(domainsNames)
      ensures old(Valid()) ==> Valid()
    {
      ghost var pushed := if read.Ok? then recordBuffer + [read.value] else recordBuffer;
      if read.Ok? {
        recordBuffer := recordBuffer + [read.value];
      }
      assert recordBuffer == pushed;
      if |recordBuffer| > 0 {
        CleanOldRecords();
      }
      CleanedWithinBound(RECORD_SIZE, |pushed|, Budget(bufferMaxKbytes));
    }

    /** `clean_old_records` of the topology, comparing `curr_size as u16`. */
    method CleanOldRecords()
      requires |recordBuffer| > 0
      modifies this
      ensures recordBuffer == old(recordBuffer)[TopologyEvictCount(RECORD_SIZE, |old(recordBuffer)|, Budget(bufferMaxKbytes))..]
      ensures sockets == old(sockets) && statBuffer == old(statBuffer) && domainsNames == old(domainsNames)
    {
      var currSize := RECORD_SIZE * |recordBuffer|;
      var budget := Budget(bufferMaxKbytes);
      if AsU16(currSize) > budget {
        var sizeDiff := currSize - budget;
        if sizeDiff > RECORD_SIZE {
          var nbRecordsToDelete := sizeDiff / RECORD_SIZE;
          for i := 1 to nbRecordsToDelete
            invariant recordBuffer == old(recordBuffer)[i - 1..]
            invariant sockets == old(sockets) && statBuffer == old(statBuffer) && domainsNames == old(domainsNames)
          {
            if |recordBuffer| > 0 {
              recordBuffer := recordBuffer[1..];
            }
          }
        }
      }
    }

    /** `refresh_stats`: insert a successful read at index 0, then clean. */
    method RefreshStats(read: Option<CPUStat>)
      modifies this
      ensures statBuffer == TopologyRefreshedStats(old(statBuffer), read, Budget(bufferMaxKbytes))
      ensures sockets == old(sockets) && recordBuffer == old(recordBuffer) && domainsNames == old(domainsNames)
      ensures old(Valid()) ==> Valid()
    {
      if read.Some? {
        statBuffer := [read.value] + statBuffer;
        CleanOldStats();
        CleanedWithinBound(STAT_SIZE, |old(statBuffer)| + 1, Budget(bufferMaxKbytes));
      }
    }

    /** `clean_old_stats`: pop EvictCount stats from the tail. */
    method CleanOldStats()
      requires |statBuffer| > 0
      modifies this
      ensures statBuffer == CleanedStats(old(statBuffer), Budget(bufferMaxKbytes))
      ensures sockets == old(sockets) && recordBuffer == old(recordBuffer) && domainsNames == old(domainsNames)
    {
      var currSize := STAT_SIZE * |statBuffer|;
      var budget := Budget(bufferMaxKbytes);
      if currSize > budget {
        var sizeDiff := currSize - budget;
        if sizeDiff > STAT_SIZE {
          var nbStatsToDelete := sizeDiff / STAT_SIZE;
          for i := 1 to nbStatsToDelete
            invariant statBuffer == old(statBuffer)[..|old(statBuffer)| - (i - 1)]
            invariant sockets == old(sockets) && recordBuffer == old(recordBuffer) && domainsNames == old(domainsNames)
          {
            if |statBuffer| > 0 {
              statBuffer := statBuffer[..|statBuffer| - 1];
            }
          }
        }
      }
    }
  }
}
