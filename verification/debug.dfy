// The deterministic debug sensor of src/sensors/debug.rs: a socket whose
// energy counter always reads the same value, and the one-socket,
// one-domain topology the sensor generates.

module Debug {
  import opened Wrappers
  import opened Strings
  import opened MachineInt
  import opened Sensors

  /** The id of the only socket of the debug topology. */
  const DEBUG_SOCKET_ID: u16 := 1234
  /** The id of the only domain of the debug topology. */
  const DEBUG_DOMAIN_ID: u16 := 4321
  const DEBUG_DOMAIN_NAME: string := "debug domain"
  const DEBUG_DOMAIN_COUNTER: string := "debug domain uj_counter"
  /** The energy counter value every read returns, in microjoules, and its
      decimal text. */
  const DEBUG_COUNTER: nat := 7081760374
  const DEBUG_COUNTER_VALUE: string := NatToString(DEBUG_COUNTER)

  /** A socket implementation with no hardware behind it. */
  class DebugSocket {
    const id: u16
    var domains: seq<Domain>
    /** Energy records, oldest first. */
    var recordBuffer: seq<Record>
    const bufferMaxKbytes: u16
    var cpuCores: seq<CPUCore>
    /** CPU stats, newest first. */
    var statBuffer: seq<CPUStat>

    /** `DebugSocket::new`: the id and budget stored, everything else empty. */
    constructor (id: u16, bufferMaxKbytes: u16)
      ensures this.id == id && this.bufferMaxKbytes == bufferMaxKbytes
      ensures domains == [] && recordBuffer == [] && cpuCores == [] && statBuffer == []
    {
      this.id := id;
      this.bufferMaxKbytes := bufferMaxKbytes;
      domains := [];
      recordBuffer := [];
      cpuCores := [];
      statBuffer := [];
    }

    /** `read_record_uj`: always a microjoule record of the fixed counter
        value, stamped with the current time `now`. */
    function ReadRecordUj(now: nat): (r: Result<Record, string>)
    {
      Ok(Record(now, DEBUG_COUNTER_VALUE, MicroJoule))
    }

    /** `read_stats`: a debug socket has no statistics. */
    function ReadStats(): (r: Option<CPUStat>)
    {
      None
    }

    function DebugType(): string {
      "Debug"
    }

    /** The `Debug` formatting of a `dyn Socket`: "{type} Socket (id={id})". */
    function Describe(): (r: string)
      reads this
      ensures StartsWith(r, "Debug Socket (id=") && r[|r| - 1] == ')'
      ensures ParseUnsigned(r[17..|r| - 1], U16_LIMIT) == Some(id as nat)
    {
      var prefix := DebugType() + " Socket (id=";
      assert prefix == "Debug Socket (id=";
      var digits := NatToString(id as nat);
      Enclosed(prefix, digits, ")");
      ParseOfNatToString(id as nat, U16_LIMIT);
      prefix + digits + ")"
    }
  }

  /** Text put between a prefix and a one-character suffix is found again
      between them. */
  lemma Enclosed(prefix: string, body: string, suffix: string)
    requires |suffix| == 1
    ensures var r := prefix + body + suffix;
      StartsWith(r, prefix) && r[|r| - 1] == suffix[0] && r[|prefix|..|r| - 1] == body
  {
    var r := prefix + body + suffix;
    assert r[..|prefix|] == prefix;
    assert r[|prefix|..|r| - 1] == body;
  }

  /** Every read of a debug socket succeeds with 7081760374 microjoules at
      the time of the read, and it never has statistics. */
  lemma ReadRecordUjIsConstant(s: DebugSocket, now: nat)
    ensures s.ReadStats().None?
    ensures s.ReadRecordUj(now).Ok?
    ensures s.ReadRecordUj(now).value.timestamp == now && s.ReadRecordUj(now).value.unit == MicroJoule
    ensures ParseUnsigned(s.ReadRecordUj(now).value.value, U64_LIMIT) == Some(DEBUG_COUNTER)
  {
    ParseOfNatToString(DEBUG_COUNTER, U64_LIMIT);
  }

  /** `DebugSensor::generate_topology`: a fresh topology with exactly one
      socket, id 1234, holding exactly one domain, id 4321, named
      "debug domain", both with the sensor's budget. */
  method GenerateTopology(bufferPerSocketMaxKbytes: u16) returns (topo: Topology)
    ensures fresh(topo) && topo.Valid()
    ensures |topo.sockets| == 1 && fresh(topo.sockets[0])
    ensures topo.sockets[0].id == DEBUG_SOCKET_ID && topo.sockets[0].bufferMaxKbytes == bufferPerSocketMaxKbytes
    ensures |topo.sockets[0].domains| == 1
    ensures var d := topo.sockets[0].domains[0];
      && d.id == DEBUG_DOMAIN_ID && d.name == DEBUG_DOMAIN_NAME && d.counterUjPath == DEBUG_DOMAIN_COUNTER
      && d.bufferMaxKbytes == bufferPerSocketMaxKbytes && d.recordBuffer == []
    ensures topo.recordBuffer == [] && topo.statBuffer == []
    ensures topo.domainsNames == Some([DEBUG_DOMAIN_NAME])
  {
    topo := new Topology(map[]);
    var socket := new CPUSocket(DEBUG_SOCKET_ID, [], [], "", bufferPerSocketMaxKbytes, map[]);
    topo.SafeInsertSocket(socket);
    assert topo.sockets == [socket] && socket.domains == [];
    label inserted:
    topo.SafeAddDomainToSocket(DEBUG_SOCKET_ID, DEBUG_DOMAIN_ID, DEBUG_DOMAIN_NAME, DEBUG_DOMAIN_COUNTER,
                               bufferPerSocketMaxKbytes, map[]);
    assert socket in topo.sockets && old@inserted(socket.domains) == [];
    OnlyDomainName(topo.domainsNames.value, topo.sockets, socket, DEBUG_DOMAIN_NAME);
  }

  /** The name list of a one-socket topology whose socket holds one domain
      is that domain's name alone. */
  lemma OnlyDomainName(names: seq<string>, sockets: seq<CPUSocket>, socket: CPUSocket, x: string)
    requires sockets == [socket] && |socket.domains| == 1 && socket.domains[0].name == x
    requires Distinct(names) && forall n :: n in names <==> n in DomainNamesOf(sockets)
    ensures names == [x]
  {
    assert DomainNamesOf(sockets) == {x} by {
      assert sockets[..0] == [];
      assert NamesOf(socket.domains) == {x};
    }
    SingleDistinct(names, x);
  }

  /** A duplicate-free sequence whose only member is `x` is `[x]`. */
  lemma SingleDistinct(s: seq<string>, x: string)
    requires Distinct(s) && x in s && forall y :: y in s ==> y == x
    ensures s == [x]
  {
    assert s[0] in s && s[|s| - 1] in s;
  }
}
