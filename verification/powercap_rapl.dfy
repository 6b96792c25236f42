// The powercap/RAPL sensor of src/sensors/powercap_rapl.rs: where it looks
// for the powercap tree, whether the RAPL kernel modules are loaded, and how
// a directory listing of that tree becomes sockets and domains of a
// topology. The environment, the module list, the directory listing and
// the contents of the `name` files are inputs.

module PowercapRapl {
  import opened Wrappers
  import opened Strings
  import opened MachineInt
  import opened Sensors

  const BARE_METAL_POWERCAP_PATH: string := "/sys/class/powercap"
  const VM_POWERCAP_PATH: string := "/var/scaphandre"

  datatype PowercapRAPLSensor = PowercapRAPLSensor(
    basePath: string,
    bufferPerSocketMaxKbytes: u16,
    bufferPerDomainMaxKbytes: u16,
    virtualMachine: bool)

  /** `PowercapRAPLSensor::new`, `powercapEnv` being the value of
      SCAPHANDRE_POWERCAP_PATH when it is set: on bare metal the sysfs
      powercap tree; in a virtual machine the variable's value, or the
      directory the hypervisor-side exporter fills when it is unset. */
  function New(bufferPerSocketMaxKbytes: u16, bufferPerDomainMaxKbytes: u16, virtualMachine: bool,
               powercapEnv: Option<string>): (r: PowercapRAPLSensor)
    ensures !virtualMachine ==> r.basePath == BARE_METAL_POWERCAP_PATH
    ensures virtualMachine && powercapEnv.None? ==> r.basePath == VM_POWERCAP_PATH
    ensures virtualMachine && powercapEnv.Some? ==> r.basePath == powercapEnv.value
    ensures r.bufferPerSocketMaxKbytes == bufferPerSocketMaxKbytes
    ensures r.bufferPerDomainMaxKbytes == bufferPerDomainMaxKbytes
    ensures r.virtualMachine == virtualMachine
  {
    var path := if !virtualMachine then BARE_METAL_POWERCAP_PATH
                else if powercapEnv.Some? then powercapEnv.value
                else VM_POWERCAP_PATH;
    PowercapRAPLSensor(path, bufferPerSocketMaxKbytes, bufferPerDomainMaxKbytes, virtualMachine)
  }

  // ---------------------------------------------------------------------
  // Kernel modules.

  predicate IsRaplModule(name: string) {
    name == "intel_rapl" || name == "intel_rapl_msr" || name == "intel_rapl_common"
  }

  /** The loaded modules whose name is one of the RAPL modules, in order. */
  function RaplModules(modules: seq<string>): (r: seq<string>)
    ensures forall m :: m in r <==> m in modules && IsRaplModule(m)
  {
    if modules == [] then []
    else RaplModules(modules[..|modules| - 1])
         + (if IsRaplModule(modules[|modules| - 1]) then [modules[|modules| - 1]] else [])
  }

  /** `check_module` over the names of the loaded modules. */
  function CheckModule(modules: seq<string>): (r: Result<string, string>)
    ensures r.Ok? <==> exists m :: m in modules && IsRaplModule(m)
  {
    var found := RaplModules(modules);
    if |found| > 0 then
      assert found[0] in found;
      Ok("intel_rapl or intel_rapl_msr+intel_rapl_common modules found.")
    else
      Err("None of intel_rapl, intel_rapl_common or intel_rapl_msr kernel modules found.")
  }

  // ---------------------------------------------------------------------
  // Domain folders.

  const RAPL_MARKER: string := "/intel-rapl:"

  // The regular expression `^.*/intel-rapl:\d+:\d+$` matched with its
  // `/intel-rapl:` at `i` and its second ':' at `j`: no line break before
  // `i` (what `.` refuses), then one or more digits, ':', one or more
  // digits up to the end.
  predicate RegexSplitAt(s: string, i: nat, j: nat) {
    && i + |RAPL_MARKER| < j < |s| - 1
    && '\n' !in s[..i]
    && s[i..i + |RAPL_MARKER|] == RAPL_MARKER
    && AllDigits(s[i + |RAPL_MARKER|..j])
    && s[j] == ':'
    && AllDigits(s[j + 1..])
  }

  // A full match of `^.*/intel-rapl:\d+:\d+$` (ASCII digits).
  ghost predicate DomainFolderPattern(s: string) {
    exists i: nat, j: nat :: RegexSplitAt(s, i, j)
  }

  /** Length of the longest run of digits that ends `s`. */
  function TrailingDigits(s: string): (n: nat)
    ensures n <= |s| && AllDigits(s[|s| - n..])
    ensures n < |s| ==> !IsDigit(s[|s| - n - 1])
  {
    if |s| > 0 && IsDigit(s[|s| - 1]) then
      var t := s[..|s| - 1];
      var m := TrailingDigits(t);
      var n := m + 1;
      var run := s[|s| - n..];
      var shorter := t[|t| - m..];
      assert forall k :: 0 <= k < m ==> shorter[k] == run[k];
      assert run[m] == s[|s| - 1];
      assert n < |s| ==> s[|s| - n - 1] == t[|t| - m - 1];
      n
    else 0
  }

  /** The matcher: the trailing digits, a ':', the digits before it, then
      the marker, and no line break in front. */
  function MatchesDomainFolder(s: string): bool {
    var n2 := TrailingDigits(s);
    if 0 < n2 < |s| && s[|s| - n2 - 1] == ':' then
      var p := s[..|s| - n2 - 1];
      var n1 := TrailingDigits(p);
      0 < n1 && EndsWith(p[..|p| - n1], RAPL_MARKER) && '\n' !in p[..|p| - n1 - |RAPL_MARKER|]
    else false
  }

  /** No run of digits can be extended past a non-digit: the digit run
      of a match is the longest trailing run. */
  lemma TrailingDigitsOfSuffix(s: string, k: nat)
    requires 0 < k < |s| && AllDigits(s[k..]) && !IsDigit(s[k - 1])
    ensures TrailingDigits(s) == |s| - k
  {
  }

  /** A match found by the matcher is a match of the expression. */
  lemma MatcherSound(s: string)
    requires MatchesDomainFolder(s)
    ensures DomainFolderPattern(s)
  {
    var n2 := TrailingDigits(s);
    assert 0 < n2 < |s| && s[|s| - n2 - 1] == ':';
    var j: nat := |s| - n2 - 1;
    var p := s[..j];
    var n1 := TrailingDigits(p);
    var q := p[..|p| - n1];
    assert 0 < n1 && EndsWith(q, RAPL_MARKER) && '\n' !in q[..|q| - |RAPL_MARKER|];
    var i: nat := |q| - |RAPL_MARKER|;
    assert s[..i] == q[..|q| - |RAPL_MARKER|];
    assert s[i..i + |RAPL_MARKER|] == q[|q| - |RAPL_MARKER|..];
    assert s[i + |RAPL_MARKER|..j] == p[|p| - n1..];
    assert s[j + 1..] == s[|s| - n2..];
    assert RegexSplitAt(s, i, j);
  }

  /** Every match of the expression is found by the matcher. */
  lemma MatcherComplete(s: string, i: nat, j: nat)
    requires RegexSplitAt(s, i, j)
    ensures MatchesDomainFolder(s)
  {
    TrailingDigitsOfSuffix(s, j + 1);
    var p := s[..j];
    assert p[i + |RAPL_MARKER|..] == s[i + |RAPL_MARKER|..j];
    assert p[i + |RAPL_MARKER| - 1] == ':';
    TrailingDigitsOfSuffix(p, i + |RAPL_MARKER|);
    assert p[..i + |RAPL_MARKER|][i..] == RAPL_MARKER;
    assert p[..i] == s[..i];
  }

  /** The matcher decides the regular expression. */
  lemma MatchesDomainFolderIsPattern(s: string)
    ensures MatchesDomainFolder(s) <==> DomainFolderPattern(s)
  {
    if MatchesDomainFolder(s) {
      MatcherSound(s);
    }
    if DomainFolderPattern(s) {
      var i: nat, j: nat :| RegexSplitAt(s, i, j);
      MatcherComplete(s, i, j);
    }
  }

  /** The socket and domain ids of a folder path: the second and third
      ':'-separated fields parsed as u16; `None` where the source's
      `unwrap` would panic. */
  function FolderIds(folder: string): (r: Option<(u16, u16)>)
  {
    var fields := Split(folder, ':');
    if |fields| < 3 then None
    else match (ParseUnsigned(fields[1], U16_LIMIT), ParseUnsigned(fields[2], U16_LIMIT))
      case (Some(socketId), Some(domainId)) => Some((socketId as u16, domainId as u16))
      case _ => None
  }

  /** The folder of domain `domainId` of socket `socketId` under `base`. */
  function DomainFolder(base: string, socketId: u16, domainId: u16): string {
    base + RAPL_MARKER + NatToString(socketId as nat) + ":" + NatToString(domainId as nat)
  }

  function SocketCounterPath(base: string, socketId: u16): string {
    base + "/intel-rapl:" + NatToString(socketId as nat) + "/energy_uj"
  }

  function DomainCounterPath(base: string, socketId: u16, domainId: u16): string {
    DomainFolder(base, socketId, domainId) + "/energy_uj"
  }

  /** Under a base path without ':', the folder of any socket and domain
      gives its ids back. */
  lemma DomainFolderIds(base: string, socketId: u16, domainId: u16)
    requires ':' !in base
    ensures FolderIds(DomainFolder(base, socketId, domainId)) == Some((socketId, domainId))
  {
    var a := NatToString(socketId as nat);
    var b := NatToString(domainId as nat);
    var x := base + "/intel-rapl";
    var s := DomainFolder(base, socketId, domainId);
    assert s == x + [':'] + (a + [':'] + b);
    assert ':' !in x by {
      forall k | 0 <= k < |x|
        ensures x[k] != ':'
      {
        if k < |base| {
          assert x[k] == base[k];
        }
      }
    }
    SplitAround(x, ':', a + [':'] + b);
    SplitAround(a, ':', b);
    assert ':' !in a && ':' !in b;
    assert Split(s, ':') == [x, a, b];
    ParseOfNatToString(socketId as nat, U16_LIMIT);
    ParseOfNatToString(domainId as nat, U16_LIMIT);
  }

  /** Under a base path without line break, the folder of any socket and
      domain matches the expression. */
  lemma DomainFolderMatches(base: string, socketId: u16, domainId: u16)
    requires '\n' !in base
    ensures MatchesDomainFolder(DomainFolder(base, socketId, domainId))
  {
    var a := NatToString(socketId as nat);
    var b := NatToString(domainId as nat);
    var s := DomainFolder(base, socketId, domainId);
    var i := |base|;
    var j := |base| + |RAPL_MARKER| + |a|;
    assert s[..i] == base;
    assert s[i..i + |RAPL_MARKER|] == RAPL_MARKER;
    assert s[i + |RAPL_MARKER|..j] == a;
    assert s[j + 1..] == b;
    MatcherComplete(s, i, j);
  }

  // ---------------------------------------------------------------------
  // Topology generation.

  /** A listing entry that contributes a socket (and maybe a domain): it
      matches the expression and its ids parse. */
  predicate IsDomainFolder(folder: string) {
    MatchesDomainFolder(folder) && FolderIds(folder).Some?
  }

  /** The socket ids the domain folders of a listing name. */
  function SocketIdsOf(listing: seq<string>): set<u16> {
    if listing == [] then {}
    else
      var folder := listing[|listing| - 1];
      SocketIdsOf(listing[..|listing| - 1])
      + (if IsDomainFolder(folder) then {FolderIds(folder).value.0} else {})
  }

  /** (socket id, domain id, trimmed name) of every domain folder of a
      listing whose `name` file is readable; `names` maps the readable
      files' paths to their contents. */
  function DomainEntriesOf(listing: seq<string>, names: map<string, string>): set<(u16, u16, string)> {
    if listing == [] then {}
    else
      var folder := listing[|listing| - 1];
      var ids := FolderIds(folder);
      DomainEntriesOf(listing[..|listing| - 1], names)
      + (if IsDomainFolder(folder) && folder + "/name" in names
         then {(ids.value.0, ids.value.1, Trim(names[folder + "/name"]))} else {})
  }

  /** Every socket has one of the `ids`, its counter under the base path
      and the per-socket budget. */
  ghost predicate SocketsFrom(topo: Topology, sensor: PowercapRAPLSensor, ids: set<u16>)
    reads topo
  {
    forall s :: s in topo.sockets ==>
      && s.id in ids
      && s.counterUjPath == SocketCounterPath(sensor.basePath, s.id)
      && s.bufferMaxKbytes == sensor.bufferPerSocketMaxKbytes
  }

  /** Every one of the `ids` has a socket. */
  ghost predicate SocketsPresent(topo: Topology, ids: set<u16>)
    reads topo
  {
    forall id :: id in ids ==> HasSocketId(topo.sockets, id)
  }

  /** Every domain is one of the `entries` for its socket, with its counter
      under the base path and the per-domain budget. */
  ghost predicate DomainsFrom(topo: Topology, sensor: PowercapRAPLSensor, entries: set<(u16, u16, string)>)
    reads topo, set s | s in topo.sockets
  {
    forall s, d :: s in topo.sockets && d in s.domains ==>
      && (s.id, d.id, d.name) in entries
      && d.counterUjPath == DomainCounterPath(sensor.basePath, s.id, d.id)
      && d.bufferMaxKbytes == sensor.bufferPerDomainMaxKbytes
  }

  /** Every one of the `entries` has a domain with its id in a socket with
      its socket id. */
  ghost predicate DomainsPresent(topo: Topology, entries: set<(u16, u16, string)>)
    reads topo, set s | s in topo.sockets
  {
    forall e :: e in entries ==> exists s :: s in topo.sockets && s.id == e.0 && HasDomainId(s.domains, e.1)
  }

  /** The topology has exactly the sockets `ids` and exactly the domains
      `entries` asks for. */
  ghost predicate Holds(topo: Topology, sensor: PowercapRAPLSensor, ids: set<u16>, entries: set<(u16, u16, string)>)
    reads topo, set s | s in topo.sockets
  {
    SocketsFrom(topo, sensor, ids) && SocketsPresent(topo, ids)
    && DomainsFrom(topo, sensor, entries) && DomainsPresent(topo, entries)
  }

  /** The topology holds a socket for every socket id of the listing and
      nothing else, and a domain for every readable domain folder and
      nothing else. */
  ghost predicate Built(topo: Topology, sensor: PowercapRAPLSensor, listing: seq<string>, names: map<string, string>)
    reads topo, set s | s in topo.sockets
  {
    Holds(topo, sensor, SocketIdsOf(listing), DomainEntriesOf(listing, names))
  }

  /** The `safe_add_socket` call of the loop. */
  method AddSocket(topo: Topology, sensor: PowercapRAPLSensor, ghost ids: set<u16>,
                   ghost entries: set<(u16, u16, string)>, socketId: u16)
    requires topo.Valid() && Holds(topo, sensor, ids, entries)
    modifies topo
    ensures topo.Valid() && Holds(topo, sensor, ids + {socketId}, entries)
    ensures forall s :: s in topo.sockets ==> s in old(topo.sockets) || fresh(s)
    ensures topo.recordBuffer == old(topo.recordBuffer) && topo.statBuffer == old(topo.statBuffer)
  {
    var added := topo.SafeAddSocket(socketId, [], [], SocketCounterPath(sensor.basePath, socketId),
                                    sensor.bufferPerSocketMaxKbytes, map[]);
    assert forall s :: s in topo.sockets ==> s in old(topo.sockets) || (s.id == socketId && s.domains == []);
    if added.None? {
      var s :| s in topo.sockets && s.id == socketId;
    } else {
      assert topo.sockets[|topo.sockets| - 1] in topo.sockets;
    }
  }

  /** The `safe_add_domain_to_socket` call of the loop, for a socket the
      topology has. */
  method AddDomain(topo: Topology, sensor: PowercapRAPLSensor, ghost ids: set<u16>,
                   ghost entries: set<(u16, u16, string)>, socketId: u16, domainId: u16, name: string)
    requires topo.Valid() && Holds(topo, sensor, ids, entries) && HasSocketId(topo.sockets, socketId)
    modifies topo, set s | s in topo.sockets
    ensures topo.Valid() && Holds(topo, sensor, ids, entries + {(socketId, domainId, name)})
    ensures topo.sockets == old(topo.sockets)
    ensures topo.recordBuffer == old(topo.recordBuffer) && topo.statBuffer == old(topo.statBuffer)
  {
    label before:
    topo.SafeAddDomainToSocket(socketId, domainId, name, DomainCounterPath(sensor.basePath, socketId, domainId),
                               sensor.bufferPerDomainMaxKbytes, map[]);
    ghost var all := entries + {(socketId, domainId, name)};
    assert SocketsFrom(topo, sensor, ids) && SocketsPresent(topo, ids);
    forall s, d | s in topo.sockets && d in s.domains
      ensures (s.id, d.id, d.name) in all
      ensures d.counterUjPath == DomainCounterPath(sensor.basePath, s.id, d.id)
      ensures d.bufferMaxKbytes == sensor.bufferPerDomainMaxKbytes
    {
      if d in old@before(s.domains) {
        assert old@before(DomainsFrom(topo, sensor, entries));
      } else {
        assert s.id == socketId && d == s.domains[|s.domains| - 1];
      }
    }
    assert DomainsFrom(topo, sensor, all);
    forall e | e in all
      ensures exists s :: s in topo.sockets && s.id == e.0 && HasDomainId(s.domains, e.1)
    {
      if e in entries {
        assert old@before(DomainsPresent(topo, entries));
        var s :| s in topo.sockets && s.id == e.0 && HasDomainId(old@before(s.domains), e.1);
        var d :| d in old@before(s.domains) && d.id == e.1;
        assert d in s.domains;
      } else {
        var s :| s in topo.sockets && s.id == socketId;
        if HasDomainId(old@before(s.domains), domainId) {
          var d :| d in old@before(s.domains) && d.id == domainId;
          assert d in s.domains;
        } else {
          assert s.domains[|s.domains| - 1] in s.domains;
        }
      }
    }
  }

  /** One iteration of the folder loop of `generate_topology`. */
  method AddFolder(topo: Topology, sensor: PowercapRAPLSensor, ghost seen: seq<string>, folder: string,
                   names: map<string, string>)
    requires MatchesDomainFolder(folder) ==> FolderIds(folder).Some?
    requires topo.Valid() && Built(topo, sensor, seen, names)
    modifies topo, set s | s in topo.sockets
    ensures topo.Valid() && Built(topo, sensor, seen + [folder], names)
    ensures forall s :: s in topo.sockets ==> s in old(topo.sockets) || fresh(s)
    ensures topo.recordBuffer == old(topo.recordBuffer) && topo.statBuffer == old(topo.statBuffer)
  {
    var all := seen + [folder];
    assert all[..|all| - 1] == seen;
    ghost var ids := SocketIdsOf(seen);
    ghost var entries := DomainEntriesOf(seen, names);
    if MatchesDomainFolder(folder) {
      var (socketId, domainId) := FolderIds(folder).value;
      assert SocketIdsOf(all) == ids + {socketId};
      AddSocket(topo, sensor, ids, entries, socketId);
      if folder + "/name" in names {
        var name := Trim(names[folder + "/name"]);
        assert DomainEntriesOf(all, names) == entries + {(socketId, domainId, name)};
        AddDomain(topo, sensor, ids + {socketId}, entries, socketId, domainId, name);
      } else {
        assert DomainEntriesOf(all, names) == entries;
      }
    } else {
      assert SocketIdsOf(all) == ids;
      assert DomainEntriesOf(all, names) == entries;
    }
  }

  /** `generate_topology` of the powercap sensor over the entries of the
      base directory (full paths, in listing order) and the readable
      `name` files; the source unwraps the parse of the ids of every
      matching entry. The module check only logs. */
  method GenerateTopology(sensor: PowercapRAPLSensor, listing: seq<string>, names: map<string, string>)
    returns (topo: Topology)
    requires forall folder :: folder in listing && MatchesDomainFolder(folder) ==> FolderIds(folder).Some?
    ensures fresh(topo) && topo.Valid() && Built(topo, sensor, listing, names)
    ensures topo.recordBuffer == [] && topo.statBuffer == []
  {
    topo := new Topology(map[]);
    for i := 0 to |listing|
      invariant fresh(topo) && topo.Valid() && Built(topo, sensor, listing[..i], names)
      invariant forall s :: s in topo.sockets ==> fresh(s)
      invariant topo.recordBuffer == [] && topo.statBuffer == []
    {
      assert listing[..i + 1] == listing[..i] + [listing[i]];
      AddFolder(topo, sensor, listing[..i], listing[i], names);
    }
    assert listing[..|listing|] == listing;
  }

  /** A socket-level folder `intel-rapl:S` (no domain number) is not a
      domain folder. */
  lemma SocketFolderIgnored(base: string, socketId: u16)
    ensures !MatchesDomainFolder(base + RAPL_MARKER + NatToString(socketId as nat))
  {
    var a := NatToString(socketId as nat);
    var s := base + RAPL_MARKER + a;
    var k := |base| + |RAPL_MARKER|;
    assert s[k..] == a && s[k - 1] == ':';
    TrailingDigitsOfSuffix(s, k);
    var p := s[..k - 1];
    assert p[|p| - 1] == 'l';
  }

  /** The domain folders of `pairs` (socket id, domain id) under `base`. */
  function FoldersOf(base: string, pairs: seq<(u16, u16)>): (r: seq<string>)
    ensures |r| == |pairs|
  {
    if pairs == [] then []
    else FoldersOf(base, pairs[..|pairs| - 1]) + [DomainFolder(base, pairs[|pairs| - 1].0, pairs[|pairs| - 1].1)]
  }

  /** Under a well-formed base path, the folder of a socket and domain is
      a domain folder with that socket id. */
  lemma DomainFolderIsDomainFolder(base: string, socketId: u16, domainId: u16)
    requires ':' !in base && '\n' !in base
    ensures IsDomainFolder(DomainFolder(base, socketId, domainId))
    ensures FolderIds(DomainFolder(base, socketId, domainId)).value.0 == socketId
  {
    DomainFolderIds(base, socketId, domainId);
    DomainFolderMatches(base, socketId, domainId);
  }

  /** Appending an entry adds its socket id when it is a domain folder. */
  lemma SocketIdsOfSnoc(listing: seq<string>, folder: string)
    requires IsDomainFolder(folder)
    ensures SocketIdsOf(listing + [folder]) == SocketIdsOf(listing) + {FolderIds(folder).value.0}
  {
    assert (listing + [folder])[..|listing|] == listing;
  }

  /** A listing made of domain folders under a well-formed base path gives
      exactly their socket ids. */
  lemma {:induction false} SocketIdsOfFolders(base: string, pairs: seq<(u16, u16)>)
    requires ':' !in base && '\n' !in base
    ensures forall id :: id in SocketIdsOf(FoldersOf(base, pairs)) <==> exists d :: (id, d) in pairs
  {
    if pairs != [] {
      var last := pairs[|pairs| - 1];
      var prev := pairs[..|pairs| - 1];
      assert pairs == prev + [last];
      var folder := DomainFolder(base, last.0, last.1);
      assert FoldersOf(base, pairs) == FoldersOf(base, prev) + [folder];
      SocketIdsOfFolders(base, prev);
      DomainFolderIsDomainFolder(base, last.0, last.1);
      SocketIdsOfSnoc(FoldersOf(base, prev), folder);
      IdsOfPairsSnoc(SocketIdsOf(FoldersOf(base, prev)), prev, last);
    }
  }

  /** The first components of `prev + [last]` are those of `prev` and `last.0`. */
  lemma IdsOfPairsSnoc(ids: set<u16>, prev: seq<(u16, u16)>, last: (u16, u16))
    requires forall id :: id in ids <==> exists d :: (id, d) in prev
    ensures forall id :: id in ids + {last.0} <==> exists d :: (id, d) in prev + [last]
  {
    var pairs := prev + [last];
    forall id | id in ids + {last.0}
      ensures exists d :: (id, d) in pairs
    {
      if id == last.0 {
        assert (id, last.1) in pairs;
      } else {
        var d :| (id, d) in prev;
        assert (id, d) in pairs;
      }
    }
    forall id, d | (id, d) in pairs
      ensures id in ids + {last.0}
    {
      if (id, d) != last {
        assert (id, d) in prev;
      }
    }
  }

}
