// The Qemu exporter of src/exporters/qemu.rs: it finds the processes of
// Qemu/KVM guests among the tracked process histories, names each guest from
// its command line, and adds the guest's share of the host energy to an
// `energy_uj` file laid out like the powercap tree. The file system is a map
// from a guest's `intel-rapl:0` folder to the text of its `energy_uj` file;
// the share each guest gets (a floating-point product) is an input.

module Qemu {
  import opened Wrappers
  import opened Strings
  import opened MachineInt
  import opened SensorUtils

  const GUEST_PREFIX: string := "guest="

  /** What `get_vm_name_from_cmdline` makes of an element starting with
      "guest=": the second '='-separated piece, cut at its first ','. */
  function VmNameOf(elmt: string): (name: string)
    requires StartsWith(elmt, GUEST_PREFIX)
    ensures ',' !in name
  {
    assert elmt[5] == '=';
    var pieces := Split(elmt, '=');
    Split(pieces[1], ',')[0]
  }

  /** The name holds neither separator. */
  lemma VmNameOfSeparators(elmt: string)
    requires StartsWith(elmt, GUEST_PREFIX)
    ensures '=' !in VmNameOf(elmt) && ',' !in VmNameOf(elmt)
  {
    assert elmt[5] == '=';
    var pieces := Split(elmt, '=');
    SplitPieceFree(elmt, '=', 1);
    if '=' in VmNameOf(elmt) {
      SplitPieceChars(pieces[1], ',', 0, '=');
    }
  }

  /** The text before the first occurrence of `c`, or all of `s`. */
  lemma FirstPieceStartsWith(s: string, c: char, name: string, d: char)
    requires StartsWith(s, name + [d]) && c !in name && c != d
    ensures StartsWith(Split(s, c)[0], name + [d])
  {
    match IndexOf(s, c)
    case None =>
    case Some(i) =>
      forall k | 0 <= k <= |name|
        ensures s[k] != c
      {
        assert s[k] == s[..|name| + 1][k];
      }
      assert s[..i][..|name| + 1] == s[..|name| + 1];
  }

  /** The second '='-separated piece of "guest=" + tail is the first piece
      of tail. */
  lemma GuestSecondPiece(tail: string)
    ensures |Split(GUEST_PREFIX + tail, '=')| >= 2
    ensures Split(GUEST_PREFIX + tail, '=')[1] == Split(tail, '=')[0]
  {
    assert GUEST_PREFIX + tail == "guest" + ['='] + tail;
    assert '=' !in "guest";
    SplitAround("guest", '=', tail);
  }

  /** Cutting `name + "," + ...` at its first ',' leaves `name`. */
  lemma CutAtComma(piece: string, name: string)
    requires StartsWith(piece, name + [',']) && ',' !in name
    ensures Split(piece, ',')[0] == name
  {
    assert piece[|name|] == (name + [','])[|name|];
    forall k | 0 <= k < |name|
      ensures piece[k] != ','
    {
      assert piece[k] == piece[..|name| + 1][k];
    }
    IndexOfFirst(piece, ',', |name|);
    assert piece[..|name|] == piece[..|name| + 1][..|name|];
  }

  /** A libvirt "guest=NAME,..." element gives NAME back, whatever follows
      the ','. */
  lemma VmNameOfGuest(name: string, rest: string)
    requires '=' !in name && ',' !in name
    ensures VmNameOf(GUEST_PREFIX + name + "," + rest) == name
  {
    var tail := name + "," + rest;
    assert GUEST_PREFIX + name + "," + rest == GUEST_PREFIX + tail;
    GuestSecondPiece(tail);
    assert tail[..|name| + 1] == name + [','];
    FirstPieceStartsWith(tail, '=', name, ',');
    CutAtComma(Split(tail, '=')[0], name);
  }

  /** Index of the first command-line element starting with "guest=". */
  function FirstGuestArg(cmdline: seq<string>): (r: Option<nat>)
    ensures r.Some? ==> r.value < |cmdline| && StartsWith(cmdline[r.value], GUEST_PREFIX)
    ensures r.Some? ==> forall k :: 0 <= k < r.value ==> !StartsWith(cmdline[k], GUEST_PREFIX)
    ensures r.None? ==> forall k :: 0 <= k < |cmdline| ==> !StartsWith(cmdline[k], GUEST_PREFIX)
  {
    if |cmdline| == 0 then None
    else if StartsWith(cmdline[0], GUEST_PREFIX) then Some(0)
    else match FirstGuestArg(cmdline[1..])
      case Some(i) => Some(i + 1)
      case None => None
  }

  /** The guest name a command line carries: that of its first "guest="
      element, or "" when there is none. */
  function VmName(cmdline: seq<string>): string {
    match FirstGuestArg(cmdline)
    case Some(i) => VmNameOf(cmdline[i])
    case None => ""
  }

  /** `get_vm_name_from_cmdline`: scan the elements in order and return the
      name from the first that starts with "guest=", or "" after the last. */
  method GetVmNameFromCmdline(cmdline: seq<string>) returns (name: string)
    ensures (forall k :: 0 <= k < |cmdline| ==> !StartsWith(cmdline[k], GUEST_PREFIX)) ==> name == ""
    ensures forall i :: 0 <= i < |cmdline| && StartsWith(cmdline[i], GUEST_PREFIX)
                        && (forall k :: 0 <= k < i ==> !StartsWith(cmdline[k], GUEST_PREFIX))
                        ==> name == VmNameOf(cmdline[i])
    ensures name == VmName(cmdline)
  {
    for i := 0 to |cmdline|
      invariant forall k :: 0 <= k < i ==> !StartsWith(cmdline[k], GUEST_PREFIX)
    {
      if StartsWith(cmdline[i], GUEST_PREFIX) {
        name := VmNameOf(cmdline[i]);
        return;
      }
    }
    name := "";
  }

  /** A history is a Qemu guest's when it is non-empty and its first record's
      command line has an element containing "qemu-system". */
  predicate IsQemuHistory(h: seq<ProcessRecord>) {
    |h| > 0 && exists x :: x in h[0].process.cmdline && Contains(x, "qemu-system")
  }

  /** The histories of `processes` that are Qemu guests', in order. */
  function QemuHistories(processes: seq<seq<ProcessRecord>>): (r: seq<seq<ProcessRecord>>)
    ensures |r| <= |processes|
    ensures forall h :: h in r ==> IsQemuHistory(h)
  {
    if |processes| == 0 then []
    else
      var last := processes[|processes| - 1];
      QemuHistories(processes[..|processes| - 1]) + (if IsQemuHistory(last) then [last] else [])
  }

  /** Filtering keeps exactly the Qemu histories: nothing else, none lost. */
  lemma {:induction false} QemuHistoriesMembers(processes: seq<seq<ProcessRecord>>, h: seq<ProcessRecord>)
    ensures h in QemuHistories(processes) <==> h in processes && IsQemuHistory(h)
  {
    if |processes| > 0 {
      var init := processes[..|processes| - 1];
      assert processes == init + [processes[|processes| - 1]];
      QemuHistoriesMembers(init, h);
    }
  }

  /** Filtering keeps the histories in their order: a Qemu history that
      comes before another in the input comes before it in the output. */
  lemma {:induction false} QemuHistoriesOfAppend(a: seq<seq<ProcessRecord>>, b: seq<seq<ProcessRecord>>)
    ensures QemuHistories(a + b) == QemuHistories(a) + QemuHistories(b)
    decreases |b|
  {
    if |b| == 0 {
      assert a + b == a;
    } else {
      var init := b[..|b| - 1];
      assert a + b == (a + init) + [b[|b| - 1]];
      assert (a + b)[..|a + b| - 1] == a + init;
      QemuHistoriesOfAppend(a, init);
    }
  }

  /** The `find` over a command line: the first element containing `pat`. */
  method FindArg(cmdline: seq<string>, pat: string) returns (r: Option<string>)
    ensures r.Some? ==> r.value in cmdline && Contains(r.value, pat)
    ensures r.None? ==> forall x :: x in cmdline ==> !Contains(x, pat)
  {
    for i := 0 to |cmdline|
      invariant forall k :: 0 <= k < i ==> !Contains(cmdline[k], pat)
    {
      if Contains(cmdline[i], pat) {
        return Some(cmdline[i]);
      }
    }
    r := None;
  }

  /** `filter_qemu_vm_processes`: copy, record by record, every Qemu
      guest's history. */
  method FilterQemuVmProcesses(processes: seq<seq<ProcessRecord>>) returns (qemu: seq<seq<ProcessRecord>>)
    ensures qemu == QemuHistories(processes)
  {
    qemu := [];
    for i := 0 to |processes|
      invariant qemu == QemuHistories(processes[..i])
    {
      var vecp := processes[i];
      assert processes[..i + 1][..i] == processes[..i];
      if |vecp| > 0 {
        var pr := vecp[0];
        var res := FindArg(pr.process.cmdline, "qemu-system");
        if res.Some? {
          var tmp: seq<ProcessRecord> := [];
          for j := 0 to |vecp|
            invariant tmp == vecp[..j]
          {
            tmp := tmp + [vecp[j]];
          }
          assert tmp == vecp;
          qemu := qemu + [tmp];
        }
      }
    }
    assert processes[..|processes|] == processes;
  }

  /** The new text of `energy_uj` after `add_or_create(path, ujValue)`, from
      its old text (`None` when it cannot be read). A missing file is written
      as 0 — the value to add is dropped; an existing one holds the old value
      plus `ujValue`, wrapping at 2^64. The source unwraps the parse of the
      old text. */
  function AddOrCreate(existing: Option<string>, ujValue: u64): (content: string)
    requires existing.Some? ==> ParseUnsigned(existing.value, U64_LIMIT).Some?
    ensures existing.None? ==> ParseUnsigned(content, U64_LIMIT) == Some(0)
    ensures existing.Some? ==>
      ParseUnsigned(content, U64_LIMIT) == Some(AddU64(ParseUnsigned(existing.value, U64_LIMIT).value, ujValue))
  {
    var value: u64 := match existing
      case Some(text) => AddU64(ParseUnsigned(text, U64_LIMIT).value, ujValue)
      case None => 0;
    ParseOfNatToString(value, U64_LIMIT);
    NatToString(value)
  }

  /** `ujs` added one after the other, wrapping at 2^64. */
  function SumU64(ujs: seq<u64>): u64 {
    if |ujs| == 0 then 0 else AddU64(SumU64(ujs[..|ujs| - 1]), ujs[|ujs| - 1])
  }

  /** The `energy_uj` text after `add_or_create` was called with each of
      `ujs` in turn on a folder with no file; `None` before the first call. */
  function FileAfter(ujs: seq<u64>): (r: Option<string>)
    ensures r.Some? ==> ParseUnsigned(r.value, U64_LIMIT).Some?
    ensures r.Some? <==> |ujs| > 0
  {
    if |ujs| == 0 then None
    else Some(AddOrCreate(FileAfter(ujs[..|ujs| - 1]), ujs[|ujs| - 1]))
  }

  /** The file accumulates every value but the first, which the creating call
      drops. */
  lemma {:induction false} FileAfterSum(ujs: seq<u64>)
    requires |ujs| > 0
    ensures ParseUnsigned(FileAfter(ujs).value, U64_LIMIT) == Some(SumU64(ujs[1..]))
  {
    var n := |ujs|;
    if n == 1 {
      assert ujs[1..] == [];
    } else {
      var init := ujs[..n - 1];
      FileAfterSum(init);
      assert init[1..] == ujs[1..][..n - 2];
      assert ujs[1..][n - 2] == ujs[n - 1];
    }
  }

  /** The guest's folder `{path}/{vm_name}/intel-rapl:0`. */
  function EnergyFolder(path: string, vmName: string): string {
    path + "/" + vmName + "/intel-rapl:0"
  }

  /** Every file of the map holds a number `add_or_create` can parse. */
  predicate FilesParse(files: map<string, string>) {
    forall p :: p in files ==> ParseUnsigned(files[p], U64_LIMIT).Some?
  }

  /** The share of one history, when `iterate` accounts for it: a history of
      more than two records whose newest process has a CPU share. */
  predicate Accounts(h: seq<ProcessRecord>, ujToAdd: map<int, u64>) {
    |h| > 2 && h[0].process.pid in ujToAdd
  }

  /** One history's effect on the files. */
  function AccountOne(files: map<string, string>, path: string, h: seq<ProcessRecord>, ujToAdd: map<int, u64>): (r: map<string, string>)
    requires FilesParse(files)
    ensures FilesParse(r)
  {
    if Accounts(h, ujToAdd) then
      var folder := EnergyFolder(path, VmName(h[0].process.cmdline));
      files[folder := AddOrCreate(if folder in files then Some(files[folder]) else None, ujToAdd[h[0].process.pid])]
    else files
  }

  /** The files after `iterate` went through the Qemu histories `hs`. */
  function Accounted(files: map<string, string>, path: string, hs: seq<seq<ProcessRecord>>, ujToAdd: map<int, u64>): (r: map<string, string>)
    requires FilesParse(files)
    ensures FilesParse(r)
  {
    if |hs| == 0 then files
    else AccountOne(Accounted(files, path, hs[..|hs| - 1], ujToAdd), path, hs[|hs| - 1], ujToAdd)
  }

  /** Going one history further accounts for that history. */
  lemma AccountedStep(files: map<string, string>, path: string, hs: seq<seq<ProcessRecord>>, i: nat, ujToAdd: map<int, u64>)
    requires FilesParse(files) && i < |hs|
    ensures Accounted(files, path, hs[..i + 1], ujToAdd)
      == AccountOne(Accounted(files, path, hs[..i], ujToAdd), path, hs[i], ujToAdd)
  {
    assert hs[..i + 1][..i] == hs[..i];
  }

  /** Histories of two records or fewer change no file. */
  lemma {:induction false} AccountedShortHistories(files: map<string, string>, path: string, hs: seq<seq<ProcessRecord>>, ujToAdd: map<int, u64>)
    requires FilesParse(files)
    requires forall h :: h in hs ==> |h| <= 2
    ensures Accounted(files, path, hs, ujToAdd) == files
  {
    if |hs| > 0 {
      assert hs[|hs| - 1] in hs;
      AccountedShortHistories(files, path, hs[..|hs| - 1], ujToAdd);
    }
  }

  /** Only guest folders are written, and every accounted guest's folder
      exists afterwards. */
  lemma {:induction false} AccountedFolders(files: map<string, string>, path: string, hs: seq<seq<ProcessRecord>>, ujToAdd: map<int, u64>)
    requires FilesParse(files)
    ensures forall p :: p in Accounted(files, path, hs, ujToAdd) <==>
      p in files || exists h: seq<ProcessRecord> :: h in hs && Accounts(h, ujToAdd) && p == EnergyFolder(path, VmName(h[0].process.cmdline))
  {
    if |hs| > 0 {
      var init := hs[..|hs| - 1];
      assert hs == init + [hs[|hs| - 1]];
      AccountedFolders(files, path, init, ujToAdd);
    }
  }

  /** `iterate` over the tracked histories `processes`: nothing happens
      unless the host power is known (`topoEnergyKnown`); then every Qemu
      history longer than two records whose newest process has a share in
      `ujToAdd` adds that share to its guest's `energy_uj`. */
  method Iterate(path: string, topoEnergyKnown: bool, processes: seq<seq<ProcessRecord>>,
                 ujToAdd: map<int, u64>, files: map<string, string>) returns (out: map<string, string>)
    requires FilesParse(files)
    ensures FilesParse(out)
    ensures out == if topoEnergyKnown then Accounted(files, path, QemuHistories(processes), ujToAdd) else files
  {
    out := files;
    if topoEnergyKnown {
      var qemuProcesses := FilterQemuVmProcesses(processes);
      for i := 0 to |qemuProcesses|
        invariant FilesParse(out)
        invariant out == Accounted(files, path, qemuProcesses[..i], ujToAdd)
      {
        var qp := qemuProcesses[i];
        AccountedStep(files, path, qemuProcesses, i, ujToAdd);
        ghost var before := out;
        if |qp| > 2 {
          var last := qp[0];
          var vmName := GetVmNameFromCmdline(last.process.cmdline);
          if last.process.pid in ujToAdd {
            var completePath := EnergyFolder(path, vmName);
            var existing := if completePath in out then Some(out[completePath]) else None;
            out := out[completePath := AddOrCreate(existing, ujToAdd[last.process.pid])];
          }
        }
        assert out == AccountOne(before, path, qp, ujToAdd);
      }
      assert qemuProcesses[..|qemuProcesses|] == qemuProcesses;
    }
  }
}
