/** The standalone powercap reader of src/lib.rs: RAPL unit names, the
    displayed record line, and the report assembled over the powercap folders. */
module Lib {
  import opened Wrappers
  import opened Strings
  import opened MachineInt

  datatype UnitKind = Core | Uncore | Dram | Undefined

  datatype Unit = Unit(kind: UnitKind)

  /** `Display for UnitKind` */
  function UnitKindDisplay(k: UnitKind): string {
    match k
    case Core => "core"
    case Uncore => "uncore"
    case Dram => "dram"
    case Undefined => "undefined"
  }

  /** `Unit::new_from_name`: the three RAPL domain names map to their kind,
      every other name to `Undefined`. */
  function NewFromName(name: string): (u: Unit)
    ensures u.kind == Core <==> name == "core"
    ensures u.kind == Uncore <==> name == "uncore"
    ensures u.kind == Dram <==> name == "dram"
    ensures u.kind == Undefined <==> name !in {"core", "uncore", "dram"}
  {
    if name == "core" then Unit(Core)
    else if name == "uncore" then Unit(Uncore)
    else if name == "dram" then Unit(Dram)
    else Unit(Undefined)
  }

  /** Displaying a kind and reading the name back gives the same kind. */
  lemma NewFromNameOfDisplay(k: UnitKind)
    ensures NewFromName(UnitKindDisplay(k)).kind == k
  {
    if k == Undefined {
      assert UnitKindDisplay(k)[0] == 'u' && UnitKindDisplay(k)[2] == 'd';
    }
  }

  /** `Display for Unit` delegates to the kind. */
  function UnitDisplay(u: Unit): string {
    UnitKindDisplay(u.kind)
  }

  /** A reading of one powercap domain; `value` is a `u128`. */
  datatype Record = Record(unit: Unit, value: nat)

  const RECORD_PREFIX: string := "recorded "
  const RECORD_MIDDLE: string := " µJoules on device unit "

  /** `Display for Record` */
  function RecordDisplay(r: Record): (s: string)
    ensures '\n' !in s
  {
    assert '\n' !in NatToString(r.value);
    RECORD_PREFIX + NatToString(r.value) + RECORD_MIDDLE + UnitDisplay(r.unit)
  }

  /** The displayed record starts with the fixed prefix, then the value in
      decimal, from which the value can be read back. */
  lemma RecordDisplayValue(r: Record)
    requires r.value < U128_LIMIT
    ensures StartsWith(RecordDisplay(r), RECORD_PREFIX)
    ensures var digits := RecordDisplay(r)[|RECORD_PREFIX|..|RECORD_PREFIX| + |NatToString(r.value)|];
            ParseUnsigned(digits, U128_LIMIT) == Some(r.value)
  {
    var s := RecordDisplay(r);
    assert s[|RECORD_PREFIX|..|RECORD_PREFIX| + |NatToString(r.value)|] == NatToString(r.value);
    ParseOfNatToString(r.value, U128_LIMIT);
  }

  /** One entry of the listing of /sys/class/powercap, with the contents of
      its `energy_uj` and `name` files. */
  datatype PowercapFolder = PowercapFolder(path: string, energyUj: string, name: string)

  const RAPL_TAG: string := "intel-rapl:"

  /** The unanchored pattern `intel-rapl:\d{1}:\d{1}` occurs at index i. */
  predicate RaplMatchAt(path: string, i: nat) {
    OccursAt(path, RAPL_TAG, i) && i + 14 <= |path|
    && IsDigit(path[i + 11]) && path[i + 12] == ':' && IsDigit(path[i + 13])
  }

  /** `re.is_match(path)` for `intel-rapl:\d{1}:\d{1}`. */
  predicate MatchesRaplFolder(path: string) {
    exists i :: 0 <= i <= |path| && RaplMatchAt(path, i)
  }

  /** What `raw_read_from_powercap_sysfs` unwraps: a matching folder's energy
      file holds a `u128` once trimmed. */
  predicate Readable(f: PowercapFolder) {
    MatchesRaplFolder(f.path) ==> ParseUnsigned(Trim(f.energyUj), U128_LIMIT).Some?
  }

  function FolderRecord(f: PowercapFolder): Record
    requires Readable(f) && MatchesRaplFolder(f.path)
  {
    Record(NewFromName(Trim(f.name)), ParseUnsigned(Trim(f.energyUj), U128_LIMIT).value)
  }

  /** The report lines of the matching folders, in listing order. */
  function ReportLines(folders: seq<PowercapFolder>): seq<string>
    requires forall f :: f in folders ==> Readable(f)
  {
    if |folders| == 0 then []
    else
      var last := folders[|folders| - 1];
      ReportLines(folders[..|folders| - 1])
      + (if MatchesRaplFolder(last.path) then [RecordDisplay(FolderRecord(last))] else [])
  }

  /** The report text: each matching folder's displayed record followed by "\n". */
  function Report(folders: seq<PowercapFolder>): string
    requires forall f :: f in folders ==> Readable(f)
  {
    if |folders| == 0 then ""
    else
      var last := folders[|folders| - 1];
      Report(folders[..|folders| - 1])
      + (if MatchesRaplFolder(last.path) then RecordDisplay(FolderRecord(last)) + "\n" else "")
  }

  /** `raw_read_from_powercap_sysfs` over a given directory listing. */
  method RawReadFromPowercapSysfs(folders: seq<PowercapFolder>) returns (r: Result<string, string>)
    requires forall f :: f in folders ==> Readable(f)
    ensures r == Ok(Report(folders))
  {
    var result := "";
    for i := 0 to |folders|
      invariant result == Report(folders[..i])
    {
      assert folders[..i + 1][..i] == folders[..i];
      var f := folders[i];
      if MatchesRaplFolder(f.path) {
        var record := FolderRecord(f);
        result := result + RecordDisplay(record);
        result := result + "\n";
      }
    }
    assert folders[..|folders|] == folders;
    return Ok(result);
  }

  lemma {:induction false} ReportSplitWith(folders: seq<PowercapFolder>, tail: string)
    requires forall f :: f in folders ==> Readable(f)
    requires '\n' !in tail
    ensures Split(Report(folders) + tail, '\n') == ReportLines(folders) + [tail]
  {
    if |folders| > 0 {
      var init := folders[..|folders| - 1];
      var last := folders[|folders| - 1];
      assert forall f :: f in init ==> f in folders;
      if MatchesRaplFolder(last.path) {
        var line := RecordDisplay(FolderRecord(last));
        ReportSplitWith(init, line);
        ReportSplitStep(folders, tail);
      } else {
        assert Report(folders) == Report(init);
        assert ReportLines(folders) == ReportLines(init);
        ReportSplitWith(init, tail);
      }
    } else {
      assert Report(folders) + tail == tail;
    }
  }

  /** One induction step of ReportSplitWith, for a matching last folder. */
  lemma ReportSplitStep(folders: seq<PowercapFolder>, tail: string)
    requires |folders| > 0 && forall f :: f in folders ==> Readable(f)
    requires MatchesRaplFolder(folders[|folders| - 1].path)
    requires '\n' !in tail
    requires var init := folders[..|folders| - 1];
      Split(Report(init) + RecordDisplay(FolderRecord(folders[|folders| - 1])), '\n')
      == ReportLines(init) + [RecordDisplay(FolderRecord(folders[|folders| - 1]))]
    ensures Split(Report(folders) + tail, '\n') == ReportLines(folders) + [tail]
  {
    var init := folders[..|folders| - 1];
    var line := RecordDisplay(FolderRecord(folders[|folders| - 1]));
    assert Report(folders) + tail == (Report(init) + line) + ['\n'] + tail;
    SplitAround(Report(init) + line, '\n', tail);
  }

  /** The report is exactly one line per matching folder, each line its
      displayed record, in listing order, and the text ends with "\n" when
      it is not empty. */
  lemma ReportIsOneLinePerFolder(folders: seq<PowercapFolder>)
    requires forall f :: f in folders ==> Readable(f)
    ensures Split(Report(folders), '\n') == ReportLines(folders) + [""]
  {
    ReportSplitWith(folders, "");
    assert Report(folders) + "" == Report(folders);
  }
}
