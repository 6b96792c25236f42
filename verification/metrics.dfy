// The `MetricGenerator` of src/exporters/mod.rs: the exporter-neutral list
// of metrics built from a topology. Every `gen_*` method appends to `data`
// and reads the topology without changing it. Readings that come from procfs
// or from floating-point divisions (process power, host power, process
// counts) are inputs.

module Metrics {
  import opened Wrappers
  import opened Strings
  import opened MachineInt
  import opened Sensors
  import ExporterUtils

  /** `MetricValueType` for the values the model produces. */
  datatype MetricValue = Text(text: string) | IntUnsigned(n: nat)

  /** `Metric`: a named value with the fields the exporters read. */
  datatype Metric = Metric(
    name: string, metricType: string, ttl: nat, hostname: string, state: string,
    tags: seq<string>, attributes: map<string, string>, description: string, value: MetricValue)

  /** The description of every metric the generator produces, one field
      per metric; the generator keeps the table `DESCRIPTIONS`. */
  datatype Descriptions = Descriptions(
    version: string, topoStats: string, topoRecords: string, topoProcs: string,
    socketStats: string, socketRecords: string, domainRecords: string,
    hostEnergy: string, hostTimestamp: string, hostPower: string,
    socketEnergy: string, socketPower: string,
    forks: string, running: string, blocked: string, contextSwitches: string,
    processPower: string)

  /** The descriptions `src/exporters/mod.rs` writes in each metric. */
  const DESCRIPTIONS := Descriptions(
    "Version number of scaphandre represented as a float.",
    "Number of CPUStat traces stored for the host.",
    "Number of energy consumption Records stored for the host.",
    "Number of processes monitored for the host.",
    "Number of CPUStat traces stored for each socket",
    "Number of energy consumption Records stored for each socket",
    "Number of energy consumption Records stored for a Domain",
    "Energy measurement for the whole host, as extracted from the sensor, in microjoules.",
    "Timestamp in seconds when host_energy_microjoules has been computed.",
    "Power measurement on the whole host, in microwatts",
    "Socket related energy measurement in microjoules.",
    "Power measurement relative to a CPU socket, in microwatts",
    "Number of forks that have occured since boot (number of processes to have existed so far).",
    "Number of processes currently running.",
    "Number of processes currently blocked waiting for I/O.",
    "Number of context switches since boot.",
    "Power consumption due to the process, measured on at the topology level, in microwatts")

  /** Every metric of the generator lives 60 s, is "ok" and is tagged
      "scaphandre". */
  function ScaphMetric(name: string, metricType: string, hostname: string, attributes: map<string, string>,
                       description: string, value: MetricValue): Metric
  {
    Metric(name, metricType, 60, hostname, "ok", ["scaphandre"], attributes, description, value)
  }

  /** The attributes of a socket metric. */
  function SocketAttributes(id: u16): map<string, string> {
    map["socket_id" := NatToString(id as nat)]
  }

  // Self metrics

  function VersionMetric(hostname: string, help: Descriptions, version: string): Metric {
    ScaphMetric("scaph_self_version", "gauge", hostname, map[],
                help.version, Text(version))
  }

  function TopoStatsMetric(hostname: string, help: Descriptions, n: nat): Metric {
    ScaphMetric("scaph_self_topo_stats_nb", "gauge", hostname, map[],
                help.topoStats, IntUnsigned(n))
  }

  function TopoRecordsMetric(hostname: string, help: Descriptions, n: nat): Metric {
    ScaphMetric("scaph_self_topo_records_nb", "gauge", hostname, map[],
                help.topoRecords, IntUnsigned(n))
  }

  function TopoProcsMetric(hostname: string, help: Descriptions, n: nat): Metric {
    ScaphMetric("scaph_self_topo_procs_nb", "gauge", hostname, map[],
                help.topoProcs, IntUnsigned(n))
  }

  function SocketStatsMetric(hostname: string, help: Descriptions, id: u16, n: nat): Metric {
    ScaphMetric("scaph_self_socket_stats_nb", "gauge", hostname, SocketAttributes(id),
                help.socketStats, IntUnsigned(n))
  }

  function SocketRecordsMetric(hostname: string, help: Descriptions, id: u16, n: nat): Metric {
    ScaphMetric("scaph_self_socket_records_nb", "gauge", hostname, SocketAttributes(id),
                help.socketRecords, IntUnsigned(n))
  }

  function DomainRecordsMetric(hostname: string, help: Descriptions, id: u16, name: string, n: nat): Metric {
    ScaphMetric("scaph_self_domain_records_nb", "gauge", hostname,
                SocketAttributes(id)["rapl_domain_name" := name],
                help.domainRecords, IntUnsigned(n))
  }

  /** One records count per domain, in the socket's order: the domain's
      buffer length, tagged with the socket id and the domain's own name. */
  function DomainRecordsMetrics(hostname: string, help: Descriptions, id: u16, domains: seq<Domain>): seq<Metric>
    reads set d | d in domains
  {
    if |domains| == 0 then []
    else
      var last := domains[|domains| - 1];
      DomainRecordsMetrics(hostname, help, id, domains[..|domains| - 1])
        + [DomainRecordsMetric(hostname, help, id, last.name, |last.recordBuffer|)]
  }

  /** The i-th domain records count is that of the i-th domain, tagged with
      the socket id and that domain's name. */
  lemma {:induction false} DomainRecordsMetricsShape(hostname: string, help: Descriptions, id: u16, domains: seq<Domain>)
    ensures var r := DomainRecordsMetrics(hostname, help, id, domains);
      && |r| == |domains|
      && forall i :: 0 <= i < |domains| ==>
        && r[i].name == "scaph_self_domain_records_nb"
        && r[i].value == IntUnsigned(|domains[i].recordBuffer|)
        && r[i].attributes == map["socket_id" := NatToString(id as nat), "rapl_domain_name" := domains[i].name]
  {
    if |domains| > 0 {
      DomainRecordsMetricsShape(hostname, help, id, domains[..|domains| - 1]);
    }
  }

  lemma AppendAssoc(a: seq<Metric>, b: seq<Metric>, c: seq<Metric>)
    ensures a + b + c == a + (b + c)
  {
  }

  /** The sockets and their domains: what the socket metrics read. */
  ghost function SocketsFootprint(sockets: seq<CPUSocket>): set<object>
    reads set s | s in sockets
  {
    (set s | s in sockets) + (set s, d | s in sockets && d in s.domains :: d)
  }

  /** The self metrics of one socket: its stats count, its records count and
      one records count per domain. */
  function SocketSelfMetrics(hostname: string, help: Descriptions, s: CPUSocket): seq<Metric>
    reads s, set d | d in s.domains
  {
    [SocketStatsMetric(hostname, help, s.id, |s.statBuffer|), SocketRecordsMetric(hostname, help, s.id, |s.recordBuffer|)]
      + DomainRecordsMetrics(hostname, help, s.id, s.domains)
  }
  /** A socket's self metrics: its stats count, its records count, then
      each of its domains' records count, in the socket's order. */
  lemma SocketSelfMetricsShape(hostname: string, help: Descriptions, s: CPUSocket)
    ensures var r := SocketSelfMetrics(hostname, help, s);
      && |r| == 2 + |s.domains|
      && r[0].value == IntUnsigned(|s.statBuffer|) && r[0].attributes == SocketAttributes(s.id)
      && r[1].value == IntUnsigned(|s.recordBuffer|) && r[1].attributes == SocketAttributes(s.id)
      && forall i :: 0 <= i < |s.domains| ==>
        r[2 + i].value == IntUnsigned(|s.domains[i].recordBuffer|)
        && r[2 + i].attributes == SocketAttributes(s.id)["rapl_domain_name" := s.domains[i].name]
  {
    DomainRecordsMetricsShape(hostname, help, s.id, s.domains);
    var r := SocketSelfMetrics(hostname, help, s);
    forall i | 0 <= i < |s.domains|
      ensures r[2 + i].attributes == SocketAttributes(s.id)["rapl_domain_name" := s.domains[i].name]
    {
      assert r[2 + i] == DomainRecordsMetrics(hostname, help, s.id, s.domains)[i];
    }
  }


  /** The self metrics of the sockets, socket after socket. */
  function SocketsSelfMetrics(hostname: string, help: Descriptions, sockets: seq<CPUSocket>): (r: seq<Metric>)
    reads SocketsFootprint(sockets)
  {
    if |sockets| == 0 then []
    else SocketsSelfMetrics(hostname, help, sockets[..|sockets| - 1]) + SocketSelfMetrics(hostname, help, sockets[|sockets| - 1])
  }

  // Host and socket metrics

  const HOST_ENERGY := "scaph_host_energy_microjoules"
  const HOST_TIMESTAMP := "scaph_host_energy_timestamp_seconds"
  const HOST_POWER := "scaph_host_power_microwatts"
  const SOCKET_ENERGY := "scaph_socket_energy_microjoules"
  const SOCKET_POWER := "scaph_socket_power_microwatts"

  function HostEnergyMetric(hostname: string, help: Descriptions, record: Record): Metric {
    ScaphMetric(HOST_ENERGY, "counter", hostname, map[],
                help.hostEnergy,
                Text(record.value))
  }

  function HostTimestampMetric(hostname: string, help: Descriptions, record: Record): Metric {
    ScaphMetric(HOST_TIMESTAMP, "counter", hostname, map[],
                help.hostTimestamp,
                Text(NatToString(Seconds(record))))
  }

  function HostPowerMetric(hostname: string, help: Descriptions, power: Record): Metric {
    ScaphMetric(HOST_POWER, "gauge", hostname, map[],
                help.hostPower, Text(power.value))
  }

  /** `gen_host_metrics` on the topology's records and power: nothing for an
      empty buffer; else the last record's energy, then its time in whole
      seconds, then the power when there is one. */
  function HostMetrics(hostname: string, help: Descriptions, records: seq<Record>, power: Option<Record>): seq<Metric>
  {
    if records == [] then []
    else
      var record := records[|records| - 1];
      [HostEnergyMetric(hostname, help, record), HostTimestampMetric(hostname, help, record)]
      + (if power.Some? then [HostPowerMetric(hostname, help, power.value)] else [])
  }

  /** Nothing for an empty buffer; else the last record's energy, then a
      timestamp that reads back as that record's whole seconds, then the
      power when there is one. */
  lemma HostMetricsShape(hostname: string, help: Descriptions, records: seq<Record>, power: Option<Record>)
    ensures var r := HostMetrics(hostname, help, records, power);
      && (records == [] ==> r == [])
      && (records != [] ==> |r| == (if power.Some? then 3 else 2))
      && (records != [] ==>
        && r[0].name == HOST_ENERGY && r[0].value == Text(records[|records| - 1].value)
        && r[1].name == HOST_TIMESTAMP && r[1].value.Text?
        && ParseUnsigned(r[1].value.text, Seconds(records[|records| - 1]) + 1) == Some(Seconds(records[|records| - 1])))
      && (records != [] && power.Some? ==> r[2].name == HOST_POWER && r[2].value == Text(power.value.value))
  {
    if records != [] {
      var record := records[|records| - 1];
      ParseOfNatToString(Seconds(record), Seconds(record) + 1);
    }
  }

  function SocketEnergyMetric(hostname: string, help: Descriptions, id: u16, record: Record): Metric {
    ScaphMetric(SOCKET_ENERGY, "counter", hostname, SocketAttributes(id),
                help.socketEnergy, Text(record.value))
  }

  function SocketPowerMetric(hostname: string, help: Descriptions, id: u16, power: Record): Metric {
    ScaphMetric(SOCKET_POWER, "gauge", hostname, SocketAttributes(id),
                help.socketPower, Text(power.value))
  }

  /** The metrics of one socket: none without records; else its last
      record's energy, then the topology's power when there is one. */
  function SocketMetricsOf(hostname: string, help: Descriptions, id: u16, records: seq<Record>, power: Option<Record>): seq<Metric>
  {
    if records == [] then []
    else
      [SocketEnergyMetric(hostname, help, id, records[|records| - 1])]
      + (if power.Some? then [SocketPowerMetric(hostname, help, id, power.value)] else [])
  }
  /** Nothing for a socket without records; else its last record's energy,
      then the topology's power when there is one, both tagged with the
      socket id. */
  lemma SocketMetricsOfShape(hostname: string, help: Descriptions, id: u16, records: seq<Record>, power: Option<Record>)
    ensures var r := SocketMetricsOf(hostname, help, id, records, power);
      && (records == [] ==> r == [])
      && (records != [] ==> |r| == (if power.Some? then 2 else 1))
      && (records != [] ==>
        r[0].name == SOCKET_ENERGY && r[0].value == Text(records[|records| - 1].value)
        && r[0].attributes == SocketAttributes(id))
      && (records != [] && power.Some? ==>
        r[1].name == SOCKET_POWER && r[1].value == Text(power.value.value) && r[1].attributes == SocketAttributes(id))
  {
  }


  function SocketMetrics(hostname: string, help: Descriptions, s: CPUSocket, power: Option<Record>): seq<Metric>
    reads s
  {
    SocketMetricsOf(hostname, help, s.id, s.recordBuffer, power)
  }

  /** `gen_socket_metrics`: the metrics of every socket, in order. */
  function SocketsMetrics(hostname: string, help: Descriptions, sockets: seq<CPUSocket>, power: Option<Record>): (r: seq<Metric>)
    reads set s | s in sockets
  {
    if |sockets| == 0 then []
    else SocketsMetrics(hostname, help, sockets[..|sockets| - 1], power) + SocketMetrics(hostname, help, sockets[|sockets| - 1], power)
  }

  /** Every socket power metric carries the topology-level power, whatever
      the socket: the source has no per-socket power here. */
  lemma {:induction false} SocketPowerIsTopologyPower(hostname: string, help: Descriptions, sockets: seq<CPUSocket>, power: Option<Record>)
    ensures forall m :: m in SocketsMetrics(hostname, help, sockets, power) && m.name == SOCKET_POWER ==>
      power.Some? && m.value == Text(power.value.value)
  {
    if |sockets| > 0 {
      SocketPowerIsTopologyPower(hostname, help, sockets[..|sockets| - 1], power);
      var last := sockets[|sockets| - 1];
      SocketMetricsOfShape(hostname, help, last.id, last.recordBuffer, power);
    }
  }

  /** Sockets with no records add no metric. */
  lemma {:induction false} SocketsMetricsSkipEmpty(hostname: string, help: Descriptions, sockets: seq<CPUSocket>, power: Option<Record>)
    requires forall s :: s in sockets ==> s.recordBuffer == []
    ensures SocketsMetrics(hostname, help, sockets, power) == []
  {
    if |sockets| > 0 {
      assert sockets[|sockets| - 1] in sockets;
      SocketsMetricsSkipEmpty(hostname, help, sockets[..|sockets| - 1], power);
    }
  }

  // System metrics

  /** The procfs counters `gen_system_metrics` reads, each possibly
      unavailable. */
  datatype SystemReadings = SystemReadings(
    forks: Option<nat>, running: Option<nat>, blocked: Option<nat>, contextSwitches: Option<nat>)

  function MetricIf(reading: Option<nat>, m: nat -> Metric): seq<Metric> {
    match reading
    case Some(n) => [m(n)]
    case None => []
  }

  /** `gen_system_metrics`: one metric per available counter, in the order
      forks, running, blocked, context switches. */
  function SystemMetrics(hostname: string, help: Descriptions, readings: SystemReadings): seq<Metric>
  {
    MetricIf(readings.forks, (n: nat) => ScaphMetric("scaph_forks_since_boot_total", "counter", hostname, map[],
               help.forks,
               IntUnsigned(n)))
    + MetricIf(readings.running, (n: nat) => ScaphMetric("scaph_processes_running_current", "gauge", hostname, map[],
               help.running, IntUnsigned(n)))
    + MetricIf(readings.blocked, (n: nat) => ScaphMetric("scaph_processes_blocked_current", "gauge", hostname, map[],
               help.blocked, IntUnsigned(n)))
    + MetricIf(readings.contextSwitches, (n: nat) => ScaphMetric("scaph_context_switches_total", "counter", hostname, map[],
               help.contextSwitches, IntUnsigned(n)))
  }
  /** One integer metric per available counter and none for the others. */
  lemma SystemMetricsShape(hostname: string, help: Descriptions, readings: SystemReadings)
    ensures var r := SystemMetrics(hostname, help, readings);
      && |r| == (if readings.forks.Some? then 1 else 0) + (if readings.running.Some? then 1 else 0)
                + (if readings.blocked.Some? then 1 else 0) + (if readings.contextSwitches.Some? then 1 else 0)
      && forall m :: m in r ==> m.value.IntUnsigned?
  {
  }


  // Process metrics

  /** What the tracker answers for one alive pid: its name, its command line
      when readable, and its power when computable. */
  datatype ProcessReading = ProcessReading(pid: nat, exe: string, cmdline: Option<string>, power: Option<string>)

  /** The attributes of a process metric. */
  function ProcessAttributes(p: ProcessReading, qemu: bool): map<string, string>
  {
    var base := map["pid" := NatToString(p.pid), "exe" := p.exe];
    match p.cmdline
    case None => base
    case Some(cmdline) =>
      var withCmdline := base["cmdline" := ExporterUtils.Replace(cmdline, '"', "\\\"")];
      if qemu then
        match ExporterUtils.FilterQemuCmdline(cmdline)
        case Some(vmname) => withCmdline["vmname" := vmname]
        case None => withCmdline
      else withCmdline
  }
  /** The pid and the name always; the escaped command line exactly when it
      was readable; the guest name exactly when Qemu mode is on and the
      command line names a guest. */
  lemma ProcessAttributesShape(p: ProcessReading, qemu: bool)
    ensures var r := ProcessAttributes(p, qemu);
      && r.Keys <= {"pid", "exe", "cmdline", "vmname"}
      && "pid" in r && r["pid"] == NatToString(p.pid) && "exe" in r && r["exe"] == p.exe
      && ("cmdline" in r <==> p.cmdline.Some?)
      && (p.cmdline.Some? ==> r["cmdline"] == ExporterUtils.Replace(p.cmdline.value, '"', "\\\""))
      && ("vmname" in r <==> qemu && p.cmdline.Some? && ExporterUtils.FilterQemuCmdline(p.cmdline.value).Some?)
      && ("vmname" in r ==> r["vmname"] == ExporterUtils.FilterQemuCmdline(p.cmdline.value).value)
  {
  }


  const PROCESS_POWER := "scaph_process_power_consumption_microwatts"

  function ProcessPowerMetric(hostname: string, help: Descriptions, attributes: map<string, string>, power: string): Metric {
    ScaphMetric(PROCESS_POWER, "gauge", hostname, attributes,
                help.processPower,
                Text(power))
  }

  function ProcessMetric(hostname: string, help: Descriptions, p: ProcessReading, qemu: bool): seq<Metric> {
    if p.power.Some? then [ProcessPowerMetric(hostname, help, ProcessAttributes(p, qemu), p.power.value)] else []
  }

  /** `gen_process_metrics`: one metric per process with a power value, in
      the order of the pids. */
  function ProcessMetrics(hostname: string, help: Descriptions, procs: seq<ProcessReading>, qemu: bool): (r: seq<Metric>)
    ensures |r| <= |procs|
  {
    if |procs| == 0 then []
    else ProcessMetrics(hostname, help, procs[..|procs| - 1], qemu) + ProcessMetric(hostname, help, procs[|procs| - 1], qemu)
  }

  /** Every process metric is that of a process with a power value: its
      power, with that process's attributes. */
  lemma {:induction false} ProcessMetricsSound(hostname: string, help: Descriptions, procs: seq<ProcessReading>, qemu: bool)
    ensures forall m :: m in ProcessMetrics(hostname, help, procs, qemu) ==>
      exists p :: p in procs && p.power.Some? && m.name == PROCESS_POWER
        && m.value == Text(p.power.value) && m.attributes == ProcessAttributes(p, qemu)
  {
    if |procs| > 0 {
      var init := procs[..|procs| - 1];
      ProcessMetricsSound(hostname, help, init, qemu);
      assert forall p :: p in init ==> p in procs;
      assert procs[|procs| - 1] in procs;
    }
  }

  /** Every process with a power value gets its metric. */
  lemma {:induction false} ProcessMetricsComplete(hostname: string, help: Descriptions, procs: seq<ProcessReading>, qemu: bool, p: ProcessReading)
    requires p in procs && p.power.Some?
    ensures ProcessMetric(hostname, help, p, qemu)[0] in ProcessMetrics(hostname, help, procs, qemu)
  {
    var init := procs[..|procs| - 1];
    if p == procs[|procs| - 1] {
    } else {
      assert procs == init + [procs[|procs| - 1]];
      ProcessMetricsComplete(hostname, help, init, qemu, p);
    }
  }

  /** The inputs of one `gen_all_metrics` round besides the topology. */
  datatype Readings = Readings(topologyPower: Option<Record>, system: SystemReadings, processes: seq<ProcessReading>)

  class MetricGenerator {
    /** The metrics generated so far. */
    var data: seq<Metric>
    const topology: Topology
    const hostname: string
    /** The descriptions the metrics carry. */
    const help: Descriptions

    /** `MetricGenerator::new`: no metric yet. */
    constructor (topology: Topology, hostname: string)
      ensures data == [] && this.topology == topology && this.hostname == hostname
      ensures help == DESCRIPTIONS
    {
      data := [];
      this.topology := topology;
      this.hostname := hostname;
      help := DESCRIPTIONS;
    }

    /** The four topology-wide self metrics. */
    function TopologySelfMetrics(version: string): seq<Metric>
      reads topology, topology.procTracker
    {
      [VersionMetric(hostname, help, version),
       TopoStatsMetric(hostname, help, |topology.statBuffer|),
       TopoRecordsMetric(hostname, help, |topology.recordBuffer|),
       TopoProcsMetric(hostname, help, |topology.procTracker.procs|)]
    }

    /** The inner loop of `gen_self_metrics`: one records count per domain,
        the shared attributes map getting each domain's name in turn. */
    method PushDomainRecordsMetrics(id: u16, domains: seq<Domain>)
      modifies this`data
      ensures data == old(data) + old(DomainRecordsMetrics(hostname, help, id, domains))
    {
      var attributes := SocketAttributes(id);
      for j := 0 to |domains|
        invariant data == old(data) + old(DomainRecordsMetrics(hostname, help, id, domains[..j]))
        invariant j == 0 ==> attributes == SocketAttributes(id)
        invariant j > 0 ==> attributes == SocketAttributes(id)["rapl_domain_name" := domains[j - 1].name]
      {
        var domain := domains[j];
        assert domains[..j + 1][..j] == domains[..j];
        attributes := attributes["rapl_domain_name" := domain.name];
        assert attributes == SocketAttributes(id)["rapl_domain_name" := domain.name];
        data := data + [ScaphMetric("scaph_self_domain_records_nb", "gauge", hostname, attributes,
                                    help.domainRecords,
                                    IntUnsigned(|domain.recordBuffer|))];
      }
      assert domains[..|domains|] == domains;
    }

    /** `gen_self_metrics` (the topology counts): the version, the host's
        stats, records and processes counts, then for each socket its stats
        and records counts and its domains' records counts. `version` is
        what `get_scaphandre_version` returns (`ExporterUtils.ScaphandreVersion`
        of the crate version). */
    method GenSelfMetrics(version: string)
      modifies this`data
      ensures data == old(data) + old(TopologySelfMetrics(version))
                     + old(SocketsSelfMetrics(hostname, help, topology.sockets))
    {
      data := data + TopologySelfMetrics(version);
      ghost var head := data;
      var sockets := topology.sockets;
      for i := 0 to |sockets|
        invariant data == head + old(SocketsSelfMetrics(hostname, help, sockets[..i]))
      {
        assert sockets[..i + 1][..i] == sockets[..i];
        ghost var before := data;
        var socket := sockets[i];
        var counts := [SocketStatsMetric(hostname, help, socket.id, |socket.statBuffer|),
                       SocketRecordsMetric(hostname, help, socket.id, |socket.recordBuffer|)];
        data := data + counts;
        var domains := socket.domains;
        ghost var socketMetrics := counts + DomainRecordsMetrics(hostname, help, socket.id, domains);
        assert old(SocketSelfMetrics(hostname, help, socket)) == socketMetrics;
        PushDomainRecordsMetrics(socket.id, domains);
        AppendAssoc(before, counts, DomainRecordsMetrics(hostname, help, socket.id, domains));
        AppendAssoc(head, old(SocketsSelfMetrics(hostname, help, sockets[..i])), socketMetrics);
      }
      assert sockets[..|sockets|] == sockets;
    }

    /** `gen_host_metrics` with the topology's power diff `power`. */
    method GenHostMetrics(power: Option<Record>)
      modifies this`data
      ensures data == old(data) + HostMetrics(hostname, help, topology.recordBuffer, power)
    {
      var records := topology.recordBuffer;
      if |records| > 0 {
        var record := records[|records| - 1];
        data := data + [HostEnergyMetric(hostname, help, record), HostTimestampMetric(hostname, help, record)];
        if power.Some? {
          data := data + [HostPowerMetric(hostname, help, power.value)];
        }
      }
    }

    /** The body of the loop of `gen_socket_metrics`, for one socket's id
        and record buffer. */
    method PushSocketMetrics(id: u16, records: seq<Record>, power: Option<Record>)
      modifies this`data
      ensures data == old(data) + SocketMetricsOf(hostname, help, id, records, power)
    {
      if |records| > 0 {
        data := data + [SocketEnergyMetric(hostname, help, id, records[|records| - 1])];
        if power.Some? {
          data := data + [SocketPowerMetric(hostname, help, id, power.value)];
        }
      }
    }

    /** `gen_socket_metrics` with the topology's power diff `power`. */
    method GenSocketMetrics(power: Option<Record>)
      modifies this`data
      ensures data == old(data) + old(SocketsMetrics(hostname, help, topology.sockets, power))
    {
      var sockets := topology.sockets;
      for i := 0 to |sockets|
        invariant data == old(data) + old(SocketsMetrics(hostname, help, sockets[..i], power))
      {
        assert sockets[..i + 1][..i] == sockets[..i];
        var socket := sockets[i];
        PushSocketMetrics(socket.id, socket.recordBuffer, power);
      }
      assert sockets[..|sockets|] == sockets;
    }

    /** `gen_system_metrics` on the procfs counters. */
    method GenSystemMetrics(readings: SystemReadings)
      modifies this`data
      ensures data == old(data) + SystemMetrics(hostname, help, readings)
    {
      data := data + SystemMetrics(hostname, help, readings);
    }

    /** The attributes map `gen_process_metrics` builds for one process,
        one insertion after the other. */
    static method BuildProcessAttributes(p: ProcessReading, qemu: bool) returns (attributes: map<string, string>)
      ensures attributes == ProcessAttributes(p, qemu)
    {
      attributes := map["pid" := NatToString(p.pid)];
      attributes := attributes["exe" := p.exe];
      if p.cmdline.Some? {
        attributes := attributes["cmdline" := ExporterUtils.Replace(p.cmdline.value, '"', "\\\"")];
        if qemu {
          var vmname := ExporterUtils.FilterQemuCmdline(p.cmdline.value);
          if vmname.Some? {
            attributes := attributes["vmname" := vmname.value];
          }
        }
      }
    }

    /** `gen_process_metrics` over the alive processes. */
    method GenProcessMetrics(qemu: bool, procs: seq<ProcessReading>)
      modifies this`data
      ensures data == old(data) + ProcessMetrics(hostname, help, procs, qemu)
    {
      for i := 0 to |procs|
        invariant data == old(data) + ProcessMetrics(hostname, help, procs[..i], qemu)
      {
        assert procs[..i + 1][..i] == procs[..i];
        var p := procs[i];
        var attributes := BuildProcessAttributes(p, qemu);
        if p.power.Some? {
          data := data + [ProcessPowerMetric(hostname, help, attributes, p.power.value)];
        }
      }
      assert procs[..|procs|] == procs;
    }

    /** `gen_all_metrics`: self, host, socket, system then process metrics,
        appended in that order, all read from the topology as it was on
        entry. */
    method GenAllMetrics(qemu: bool, version: string, readings: Readings)
      modifies this`data
      ensures data == old(data)
        + old(TopologySelfMetrics(version))
        + old(SocketsSelfMetrics(hostname, help, topology.sockets))
        + old(HostMetrics(hostname, help, topology.recordBuffer, readings.topologyPower))
        + old(SocketsMetrics(hostname, help, topology.sockets, readings.topologyPower))
        + SystemMetrics(hostname, help, readings.system)
        + ProcessMetrics(hostname, help, readings.processes, qemu)
    {
      ghost var selfMetrics := TopologySelfMetrics(version) + SocketsSelfMetrics(hostname, help, topology.sockets);
      ghost var socketMetrics := SocketsMetrics(hostname, help, topology.sockets, readings.topologyPower);
      GenSelfMetrics(version);
      assert data == old(data) + selfMetrics;
      GenHostMetrics(readings.topologyPower);
      label Sockets:
      GenSocketMetrics(readings.topologyPower);
      assert old@Sockets(SocketsMetrics(hostname, help, topology.sockets, readings.topologyPower)) == socketMetrics;
      GenSystemMetrics(readings.system);
      GenProcessMetrics(qemu, readings.processes);
    }

    /** `get_metrics`: the stored metrics. */
    function GetMetrics(): seq<Metric>
      reads this
    {
      data
    }
  }
}
