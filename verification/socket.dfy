// The operations src/sensors/socket.rs defines on any `dyn Socket`, given
// here over the one socket implementation in view, the debug socket. The
// result of `read_record_uj` / `read_stats` is passed in. The pure
// `get_stats_diff` and the integer guard of
// `get_records_diff_power_microwatts` read only the buffers; they are
// `Sensors.StatsDiff` and `Sensors.MicrojoulesOrZero` of those buffers.

module Socket {
  import opened Wrappers
  import opened Strings
  import opened MachineInt
  import opened Sensors
  import opened Debug

  /** `add_cpu_core`: append the core, nothing else changes. */
  method AddCpuCore(s: DebugSocket, core: CPUCore)
    modifies s
    ensures s.cpuCores == old(s.cpuCores) + [core]
    ensures s.domains == old(s.domains) && s.recordBuffer == old(s.recordBuffer) && s.statBuffer == old(s.statBuffer)
  {
    s.cpuCores := s.cpuCores + [core];
  }

  /** `safe_add_domain`: append unless a domain with that id is present. */
  method SafeAddDomain(s: DebugSocket, domain: Domain)
    modifies s
    ensures s.domains == DomainsWith(old(s.domains), domain)
    ensures s.cpuCores == old(s.cpuCores) && s.recordBuffer == old(s.recordBuffer) && s.statBuffer == old(s.statBuffer)
  {
    var present := false;
    for i := 0 to |s.domains|
      invariant present <==> exists j :: 0 <= j < i && s.domains[j].id == domain.id
    {
      if s.domains[i].id == domain.id {
        present := true;
      }
    }
    if !present {
      s.domains := s.domains + [domain];
    }
  }

  /** `refresh_record`: push the read record when the read succeeded, then
      clean a non-empty buffer. */
  method RefreshRecord(s: DebugSocket, read: Result<Record, string>)
    modifies s
    ensures s.recordBuffer == RefreshedRecords(old(s.recordBuffer), read, Budget(s.bufferMaxKbytes))
    ensures s.domains == old(s.domains) && s.cpuCores == old(s.cpuCores) && s.statBuffer == old(s.statBuffer)
    ensures WithinBound(RECORD_SIZE, |old(s.recordBuffer)|, Budget(s.bufferMaxKbytes))
            ==> WithinBound(RECORD_SIZE, |s.recordBuffer|, Budget(s.bufferMaxKbytes))
  {
    if read.Ok? {
      s.recordBuffer := s.recordBuffer + [read.value];
    }
    if |s.recordBuffer| > 0 {
      CleanOldRecords(s);
    }
    ghost var pushed := if read.Ok? then old(s.recordBuffer) + [read.value] else old(s.recordBuffer);
    CleanedWithinBound(RECORD_SIZE, |pushed|, Budget(s.bufferMaxKbytes));
  }

  /** `clean_old_records`: remove EvictCount records from the head. */
  method CleanOldRecords(s: DebugSocket)
    requires |s.recordBuffer| > 0
    modifies s
    ensures s.recordBuffer == old(s.recordBuffer)[EvictCount(RECORD_SIZE, |old(s.recordBuffer)|, Budget(s.bufferMaxKbytes))..]
    ensures s.domains == old(s.domains) && s.cpuCores == old(s.cpuCores) && s.statBuffer == old(s.statBuffer)
  {
    var currSize := RECORD_SIZE * |s.recordBuffer|;
    var budget := Budget(s.bufferMaxKbytes);
    if currSize > budget {
      var sizeDiff := currSize - budget;
      if sizeDiff > RECORD_SIZE {
        var nbRecordsToDelete := sizeDiff / RECORD_SIZE;
        for i := 1 to nbRecordsToDelete
          invariant s.recordBuffer == old(s.recordBuffer)[i - 1..]
          invariant s.domains == old(s.domains) && s.cpuCores == old(s.cpuCores) && s.statBuffer == old(s.statBuffer)
        {
          if |s.recordBuffer| > 0 {
            s.recordBuffer := s.recordBuffer[1..];
          }
        }
      }
    }
  }

  /** `refresh_stats`: clean a non-empty buffer, then insert the stat
      `read_stats` returned at index 0; the source unwraps that result. */
  method RefreshStats(s: DebugSocket, read: Option<CPUStat>)
    requires read.Some?
    modifies s
    ensures s.statBuffer == [read.value] + CleanedStats(old(s.statBuffer), Budget(s.bufferMaxKbytes))
    ensures s.domains == old(s.domains) && s.cpuCores == old(s.cpuCores) && s.recordBuffer == old(s.recordBuffer)
  {
    if |s.statBuffer| > 0 {
      CleanOldStats(s);
    }
    s.statBuffer := [read.value] + s.statBuffer;
  }

  /** `clean_old_stats`: pop EvictCount stats from the tail (the oldest). */
  method CleanOldStats(s: DebugSocket)
    requires |s.statBuffer| > 0
    modifies s
    ensures s.statBuffer == CleanedStats(old(s.statBuffer), Budget(s.bufferMaxKbytes))
    ensures s.domains == old(s.domains) && s.cpuCores == old(s.cpuCores) && s.recordBuffer == old(s.recordBuffer)
  {
    var currSize := STAT_SIZE * |s.statBuffer|;
    var budget := Budget(s.bufferMaxKbytes);
    if currSize > budget {
      var sizeDiff := currSize - budget;
      if sizeDiff > STAT_SIZE {
        var nbStatsToDelete := sizeDiff / STAT_SIZE;
        for i := 1 to nbStatsToDelete
          invariant s.statBuffer == old(s.statBuffer)[..|old(s.statBuffer)| - (i - 1)]
          invariant s.domains == old(s.domains) && s.cpuCores == old(s.cpuCores) && s.recordBuffer == old(s.recordBuffer)
        {
          if |s.statBuffer| > 0 {
            s.statBuffer := s.statBuffer[..|s.statBuffer| - 1];
          }
        }
      }
    }
  }
}
