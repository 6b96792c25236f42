/** The process bookkeeping of src/sensors/utils.rs: `ProcessTracker` keeps,
    for every PID, a history of `ProcessRecord`s, newest first, and derives
    CPU-time consumption and the top consumers from it. The procfs snapshot
    of a process (`IProcess`) and the clock are inputs. */
module SensorUtils {
  import opened Wrappers
  import opened Strings
  import opened MachineInt

  /** The fields of procfs' `stat` the model needs (`IStat`). */
  datatype IStat = IStat(utime: u64, stime: u64)

  /** A snapshot of one process (`IProcess`). */
  datatype IProcess = IProcess(pid: int, owner: nat, comm: string, cmdline: seq<string>, stat: Option<IStat>)

  /** `ProcessRecord`: a process snapshot and the time it was taken, in
      nanoseconds since the epoch. */
  datatype ProcessRecord = ProcessRecord(process: IProcess, timestamp: nat)

  /** `ProcessRecord::total_time_jiffies`: stime + utime, or 0 without a stat. */
  function TotalTimeJiffies(r: ProcessRecord): (t: u64)
    ensures r.process.stat.None? ==> t == 0
    ensures r.process.stat.Some? && r.process.stat.value.stime + r.process.stat.value.utime < U64_LIMIT
            ==> t == r.process.stat.value.stime + r.process.stat.value.utime
  {
    match r.process.stat
    case Some(stat) => AddU64(stat.stime, stat.utime)
    case None => 0
  }

  // ---------------------------------------------------------------------
  // Stable sort in decreasing key order (`sort_by(|a, b| b.k.cmp(&a.k))`).

  predicate SortedDesc<T>(s: seq<T>, key: T -> nat) {
    forall i, j :: 0 <= i < j < |s| ==> key(s[i]) >= key(s[j])
  }

  /** Inserts `x`, which came before every element of `s`, ahead of the
      first element whose key is not greater, as a stable sort does. */
  function InsertDesc<T>(x: T, s: seq<T>, key: T -> nat): (r: seq<T>)
    ensures multiset(r) == multiset(s) + multiset{x}
    ensures |r| == |s| + 1
  {
    if |s| == 0 || key(s[0]) <= key(x) then [x] + s
    else
      assert s == [s[0]] + s[1..];
      [s[0]] + InsertDesc(x, s[1..], key)
  }

  lemma {:induction false} InsertDescSorted<T>(x: T, s: seq<T>, key: T -> nat)
    requires SortedDesc(s, key)
    ensures SortedDesc(InsertDesc(x, s, key), key)
  {
    if |s| > 0 && key(s[0]) > key(x) {
      var rest := InsertDesc(x, s[1..], key);
      InsertDescSorted(x, s[1..], key);
      forall k | 0 <= k < |rest|
        ensures key(rest[k]) <= key(s[0])
      {
        assert rest[k] in multiset(rest);
        assert rest[k] == x || rest[k] in multiset(s[1..]);
        if rest[k] != x {
          var m :| 0 <= m < |s[1..]| && s[1..][m] == rest[k];
          assert s[m + 1] == rest[k];
        }
      }
    }
  }

  /** Rust's stable `sort_by` in decreasing key order, as an insertion sort. */
  function SortDesc<T>(s: seq<T>, key: T -> nat): (r: seq<T>)
    ensures multiset(r) == multiset(s) && |r| == |s|
    ensures SortedDesc(r, key)
  {
    if |s| == 0 then []
    else
      assert s == [s[0]] + s[1..];
      InsertDescSorted(s[0], SortDesc(s[1..], key), key);
      InsertDesc(s[0], SortDesc(s[1..], key), key)
  }

  /** Sorting an already sorted sequence leaves it as it is (stability). */
  lemma {:induction false} SortDescOfSorted<T>(s: seq<T>, key: T -> nat)
    requires SortedDesc(s, key)
    ensures SortDesc(s, key) == s
  {
    if |s| > 0 {
      assert SortedDesc(s[1..], key);
      SortDescOfSorted(s[1..], key);
      assert s == [s[0]] + s[1..];
    }
  }

  // ---------------------------------------------------------------------
  // Per-PID histories.

  function ByTimestamp(r: ProcessRecord): nat { r.timestamp }

  /** The history `clean_old_process_records` leaves: sorted newest first and
      cut to `max` records when it was longer than `max`, untouched otherwise. */
  function CleanedRecords(records: seq<ProcessRecord>, max: nat): seq<ProcessRecord> {
    if |records| > max then SortDesc(records, ByTimestamp)[..max] else records
  }

  /** Cleaning keeps exactly the `max` newest records (ties broken by the
      stable sort): the kept ones are a sub-multiset of the history, ordered
      newest first, and no dropped record is newer than a kept one. */
  lemma CleanedKeepsNewest(records: seq<ProcessRecord>, max: nat)
    requires |records| > max
    ensures |CleanedRecords(records, max)| == max
    ensures SortedDesc(CleanedRecords(records, max), ByTimestamp)
    ensures multiset(CleanedRecords(records, max)) <= multiset(records)
    ensures forall d: ProcessRecord, k: ProcessRecord ::
      d in multiset(records) - multiset(CleanedRecords(records, max)) && k in CleanedRecords(records, max)
      ==> d.timestamp <= k.timestamp
  {
    var sorted := SortDesc(records, ByTimestamp);
    SortedPrefixKeepsNewest(records, sorted, max);
  }

  /** The same for any newest-first arrangement of the history. */
  lemma SortedPrefixKeepsNewest(records: seq<ProcessRecord>, sorted: seq<ProcessRecord>, max: nat)
    requires multiset(sorted) == multiset(records) && SortedDesc(sorted, ByTimestamp) && max <= |sorted|
    ensures SortedDesc(sorted[..max], ByTimestamp)
    ensures multiset(sorted[..max]) <= multiset(records)
    ensures forall d: ProcessRecord, k: ProcessRecord ::
      d in multiset(records) - multiset(sorted[..max]) && k in sorted[..max]
      ==> d.timestamp <= k.timestamp
  {
    var kept := sorted[..max];
    var dropped := sorted[max..];
    assert sorted == kept + dropped;
    assert multiset(sorted) == multiset(kept) + multiset(dropped);
    assert multiset(records) - multiset(kept) == multiset(dropped);
    assert forall i, j :: 0 <= i < j < |kept| ==> kept[i] == sorted[i] && kept[j] == sorted[j];
    PrefixNotOlder(sorted, max);
  }

  /** In a newest-first sequence, nothing after position `max` is newer than
      anything before it. */
  lemma PrefixNotOlder(sorted: seq<ProcessRecord>, max: nat)
    requires SortedDesc(sorted, ByTimestamp) && max <= |sorted|
    ensures forall d: ProcessRecord, k: ProcessRecord ::
      (d in multiset(sorted[max..]) && k in sorted[..max]) ==> d.timestamp <= k.timestamp
  {
    forall d: ProcessRecord, k: ProcessRecord | d in multiset(sorted[max..]) && k in sorted[..max]
      ensures d.timestamp <= k.timestamp
    {
      var i :| 0 <= i < max && sorted[..max][i] == k;
      var j :| 0 <= j < |sorted| - max && sorted[max..][j] == d;
      assert sorted[i] == k && sorted[max + j] == d;
    }
  }

  /** A history whose head has the given PID (the `filter` of `add_process_record`
      and `find_records`). */
  predicate PidMatches(v: seq<ProcessRecord>, pid: int) {
    |v| > 0 && v[0].process.pid == pid
  }

  /** Index of the first history of `pid`. */
  function FirstMatch(procs: seq<seq<ProcessRecord>>, pid: int): (r: Option<nat>)
    ensures r.Some? ==> r.value < |procs| && PidMatches(procs[r.value], pid)
    ensures r.Some? ==> forall j :: 0 <= j < r.value ==> !PidMatches(procs[j], pid)
    ensures r.None? ==> forall j :: 0 <= j < |procs| ==> !PidMatches(procs[j], pid)
  {
    if |procs| == 0 then None
    else if PidMatches(procs[0], pid) then Some(0)
    else match FirstMatch(procs[1..], pid)
      case Some(i) => Some(i + 1)
      case None => None
  }

  /** The first matching history is the one FirstMatch finds. */
  lemma {:induction false} FirstMatchAt(procs: seq<seq<ProcessRecord>>, pid: int, i: nat)
    requires i < |procs| && PidMatches(procs[i], pid)
    requires forall j :: 0 <= j < i ==> !PidMatches(procs[j], pid)
    ensures FirstMatch(procs, pid) == Some(i)
  {
    if i > 0 {
      FirstMatchAt(procs[1..], pid, i - 1);
    }
  }

  /** The histories after `add_process_record` stores `record`. */
  function AddRecord(procs: seq<seq<ProcessRecord>>, record: ProcessRecord, max: nat): seq<seq<ProcessRecord>> {
    match FirstMatch(procs, record.process.pid)
    case None => procs + [[record]]
    case Some(i) =>
      var history := if record.process.comm != procs[i][0].process.comm then [] else procs[i];
      procs[i := CleanedRecords([record] + history, max)]
  }

  /** A PID without a history gets a new one-record history at the end. */
  lemma AddRecordNewPid(procs: seq<seq<ProcessRecord>>, record: ProcessRecord, max: nat)
    requires forall j :: 0 <= j < |procs| ==> !PidMatches(procs[j], record.process.pid)
    ensures AddRecord(procs, record, max) == procs + [[record]]
  {
  }

  /** A tracked PID: only its first history changes. The record goes in
      front of that history, or of nothing when the command name changed;
      the result keeps at most `max` records, and is exactly that when it fits. */
  lemma AddRecordKnownPid(procs: seq<seq<ProcessRecord>>, record: ProcessRecord, max: nat, i: nat)
    requires i < |procs| && PidMatches(procs[i], record.process.pid)
    requires forall j :: 0 <= j < i ==> !PidMatches(procs[j], record.process.pid)
    ensures var after := AddRecord(procs, record, max);
      var history := if record.process.comm != procs[i][0].process.comm then [] else procs[i];
      |after| == |procs|
      && (forall j :: 0 <= j < |procs| && j != i ==> after[j] == procs[j])
      && |after[i]| == (if |history| + 1 <= max then |history| + 1 else max)
      && (|history| + 1 <= max ==> after[i] == [record] + history)
  {
    FirstMatchAt(procs, record.process.pid, i);
  }

  /** When the clock did not go backwards, the new record is the head of its
      history after cleaning, as long as at least one record is kept. */
  lemma AddRecordNewestFirst(procs: seq<seq<ProcessRecord>>, record: ProcessRecord, max: nat, i: nat)
    requires i < |procs| && FirstMatch(procs, record.process.pid) == Some(i)
    requires max >= 1
    requires forall k :: 0 <= k < |procs[i]| ==> procs[i][k].timestamp <= record.timestamp
    ensures AddRecord(procs, record, max)[i][0] == record
  {
    var history := if record.process.comm != procs[i][0].process.comm then [] else procs[i];
    var s := [record] + history;
    if |s| > max {
      var sorted := SortDesc(history, ByTimestamp);
      assert s[1..] == history;
      assert sorted[0] in multiset(history);
      assert SortDesc(s, ByTimestamp) == [record] + sorted;
    }
  }


  /** A prefix of a sorted sequence is sorted. */
  lemma SortedDescPrefix<T>(s: seq<T>, key: T -> nat, m: nat)
    requires SortedDesc(s, key) && m <= |s|
    ensures SortedDesc(s[..m], key)
  {
    var prefix := s[..m];
    assert forall a :: 0 <= a < m ==> prefix[a] == s[a];
  }

  /** One later round of the cleaning loop: sorting a prefix of a sorted
      sequence changes nothing, so dropping its last element leaves the
      prefix one shorter. */
  lemma ResortPrefix<T>(s: seq<T>, key: T -> nat, m: nat)
    requires SortedDesc(s, key) && 0 < m <= |s|
    ensures SortDesc(s[..m], key)[..m - 1] == s[..m - 1]
  {
    SortedDescPrefix(s, key, m);
    SortDescOfSorted(s[..m], key);
    assert s[..m][..m - 1] == s[..m - 1];
  }




  // ---------------------------------------------------------------------
  // Top consumers.

  /** An entry of `get_top_consumers`' result: a process and the CPU time
      (in jiffies) it consumed between the two newest records of its history. */
  datatype Consumer = Consumer(process: IProcess, cpuTime: nat)

  function ByCpuTime(c: Consumer): nat { c.cpuTime }

  /** The entry a history of more than one record contributes: the process of
      its last (oldest) record, and the CPU time consumed. */
  function CandidateOf(p: seq<ProcessRecord>): (c: Consumer)
    requires |p| > 1
    ensures c.process == p[|p| - 1].process
    ensures c.cpuTime <= TotalTimeJiffies(p[0])
  {
    Consumer(p[|p| - 1].process, ProcessTracker.GetCpuTimeConsumed(p))
  }

  /** The entries of all histories holding more than one record, in order. */
  function Candidates(procs: seq<seq<ProcessRecord>>): seq<Consumer> {
    if |procs| == 0 then []
    else
      var p := procs[|procs| - 1];
      Candidates(procs[..|procs| - 1]) + (if |p| > 1 then [CandidateOf(p)] else [])
  }

  /** Number of entries that consumed more than `diff`. */
  function CountTimeAbove(consumers: seq<Consumer>, diff: nat): (n: nat)
    ensures n <= |consumers|
    ensures n == |consumers| <==> forall i :: 0 <= i < |consumers| ==> consumers[i].cpuTime > diff
  {
    if consumers == [] then 0
    else (if consumers[0].cpuTime > diff then 1 else 0) + CountTimeAbove(consumers[1..], diff)
  }

  /** Number of entries whose process has more than `diff` total jiffies, the
      count `get_top_consumers` takes (the record built around each stored
      process only serves to call `total_time_jiffies`; its time plays no part). */
  function CountJiffiesAbove(consumers: seq<Consumer>, diff: nat): (n: nat)
    ensures n <= |consumers|
  {
    if consumers == [] then 0
    else (if TotalTimeJiffies(ProcessRecord(consumers[0].process, 0)) > diff then 1 else 0)
         + CountJiffiesAbove(consumers[1..], diff)
  }

  /** Push `c`, sort by consumed time (stable, decreasing) and pop the last
      entry when there are more than `top`. */
  function Admit(consumers: seq<Consumer>, c: Consumer, top: nat): seq<Consumer> {
    var sorted := SortDesc(consumers + [c], ByCpuTime);
    if |sorted| > top then sorted[..|sorted| - 1] else sorted
  }

  /** A prefix of a sorted sequence is sorted. */
  lemma SortedPrefix<T>(s: seq<T>, key: T -> nat, n: nat)
    requires SortedDesc(s, key) && n <= |s|
    ensures SortedDesc(s[..n], key)
  {
    assert forall i :: 0 <= i < n ==> s[..n][i] == s[i];
  }

  /** Admitting keeps a sorted list of at most `top` entries, drawn from the
      old entries and `c`, all of them while fewer than `top` were held. */
  lemma AdmitFacts(consumers: seq<Consumer>, c: Consumer, top: nat)
    requires |consumers| <= top
    ensures SortedDesc(Admit(consumers, c, top), ByCpuTime)
    ensures |Admit(consumers, c, top)| <= top
    ensures multiset(Admit(consumers, c, top)) <= multiset(consumers) + multiset{c}
    ensures |consumers| < top ==> multiset(Admit(consumers, c, top)) == multiset(consumers) + multiset{c}
  {
    var sorted := SortDesc(consumers + [c], ByCpuTime);
    assert multiset(consumers + [c]) == multiset(consumers) + multiset{c};
    if |sorted| > top {
      var r := sorted[..|sorted| - 1];
      assert sorted == r + [sorted[|sorted| - 1]];
      assert multiset(sorted) == multiset(r) + multiset{sorted[|sorted| - 1]};
      SortedPrefix(sorted, ByCpuTime, |sorted| - 1);
    }
  }

  /** Admitting into a full list drops exactly one entry `m`, not above any
      entry kept. */
  lemma AdmitFull(consumers: seq<Consumer>, c: Consumer, top: nat) returns (m: Consumer)
    requires |consumers| == top
    ensures multiset(Admit(consumers, c, top)) + multiset{m} == multiset(consumers) + multiset{c}
    ensures forall y :: y in Admit(consumers, c, top) ==> m.cpuTime <= y.cpuTime
  {
    var sorted := SortDesc(consumers + [c], ByCpuTime);
    assert multiset(consumers + [c]) == multiset(consumers) + multiset{c};
    var r := sorted[..|sorted| - 1];
    m := sorted[|sorted| - 1];
    assert sorted == r + [m];
    forall y | y in r
      ensures m.cpuTime <= y.cpuTime
    {
      var i :| 0 <= i < |r| && r[i] == y;
      assert sorted[i] == y;
    }
  }

  /** One step of the loop as written in `get_top_consumers`. */
  function TopStepAsWritten(consumers: seq<Consumer>, p: seq<ProcessRecord>, top: nat): seq<Consumer> {
    if |p| > 1 && CountJiffiesAbove(consumers, CandidateOf(p).cpuTime) < top
    then Admit(consumers, CandidateOf(p), top)
    else consumers
  }

  /** `get_top_consumers` as written, over the histories in order. */
  function TopConsumersAsWritten(procs: seq<seq<ProcessRecord>>, top: nat): seq<Consumer> {
    if |procs| == 0 then []
    else TopStepAsWritten(TopConsumersAsWritten(procs[..|procs| - 1], top), procs[|procs| - 1], top)
  }

  /** What the code as written does guarantee: at most `top` candidates,
      in non-increasing order of consumed time. */
  lemma {:induction false} TopConsumersAsWrittenBounded(procs: seq<seq<ProcessRecord>>, top: nat)
    ensures var r := TopConsumersAsWritten(procs, top);
      |r| <= top && SortedDesc(r, ByCpuTime) && multiset(r) <= multiset(Candidates(procs))
  {
    if |procs| > 0 {
      var init := procs[..|procs| - 1];
      var p := procs[|procs| - 1];
      var before := TopConsumersAsWritten(init, top);
      TopConsumersAsWrittenBounded(init, top);
      if |p| > 1 && CountJiffiesAbove(before, CandidateOf(p).cpuTime) < top {
        AdmitFacts(before, CandidateOf(p), top);
        assert multiset(Candidates(procs)) == multiset(Candidates(init)) + multiset{CandidateOf(p)};
      }
    }
  }

  /** `r` holds the `top` largest entries of `cands` (all of them when there
      are fewer), sorted; nothing left out consumed more than an entry kept. */
  ghost predicate IsTopN(r: seq<Consumer>, cands: seq<Consumer>, top: nat) {
    && SortedDesc(r, ByCpuTime)
    && multiset(r) <= multiset(cands)
    && |r| == (if |cands| < top then |cands| else top)
    && forall x: Consumer, y: Consumer :: x in multiset(cands) - multiset(r) && y in r ==> x.cpuTime <= y.cpuTime
  }

  /** One step of the loop, comparing consumed times with consumed times. */
  function TopStep(consumers: seq<Consumer>, p: seq<ProcessRecord>, top: nat): seq<Consumer> {
    if |p| > 1 && CountTimeAbove(consumers, CandidateOf(p).cpuTime) < top
    then Admit(consumers, CandidateOf(p), top)
    else consumers
  }

  /** `get_top_consumers` with the comparison it evidently intends. */
  function TopConsumers(procs: seq<seq<ProcessRecord>>, top: nat): seq<Consumer> {
    if |procs| == 0 then []
    else TopStep(TopConsumers(procs[..|procs| - 1], top), procs[|procs| - 1], top)
  }

  /** Bookkeeping of what is left out: from kept `k` out of `all`, keeping
      `r` out of `all` + {c}, where `r` + {m} == `k` + {c}, leaves out `m` more. */
  lemma LeftOutStep<T>(all: multiset<T>, k: multiset<T>, c: T, r: multiset<T>, m: T)
    requires k <= all && r + multiset{m} == k + multiset{c}
    ensures r <= all + multiset{c}
    ensures (all + multiset{c}) - r == (all - k) + multiset{m}
  {
    forall x
      ensures r[x] <= (all + multiset{c})[x]
    {
      assert (r + multiset{m})[x] == (k + multiset{c})[x];
      assert k[x] <= all[x];
    }
    forall x
      ensures ((all + multiset{c}) - r)[x] == ((all - k) + multiset{m})[x]
    {
      assert (r + multiset{m})[x] == (k + multiset{c})[x];
      assert k[x] <= all[x];
    }
  }

  /** A candidate offered while fewer than `top` entries are held is kept. */
  lemma TopStepUnderfull(consumers: seq<Consumer>, cands: seq<Consumer>, c: Consumer, top: nat)
    requires IsTopN(consumers, cands, top) && |consumers| < top
    requires multiset(consumers) == multiset(cands)
    ensures IsTopN(Admit(consumers, c, top), cands + [c], top)
    ensures multiset(Admit(consumers, c, top)) == multiset(cands + [c])
  {
    AdmitFacts(consumers, c, top);
    var r := Admit(consumers, c, top);
    assert multiset(cands + [c]) == multiset(cands) + multiset{c};
    assert |r| == |multiset(r)| == |multiset(cands + [c])| == |cands| + 1;
    assert multiset(cands + [c]) - multiset(r) == multiset{};
  }

  /** A candidate admitted into a full list: the one dropped consumed no
      more than any kept, and the admitted one no less than any left out
      before, since some held entry did not consume more than it. */
  lemma TopStepFull(consumers: seq<Consumer>, cands: seq<Consumer>, c: Consumer, top: nat)
    requires IsTopN(consumers, cands, top) && |consumers| == top
    requires CountTimeAbove(consumers, c.cpuTime) < top
    ensures IsTopN(Admit(consumers, c, top), cands + [c], top)
  {
    var cands' := cands + [c];
    assert multiset(cands') == multiset(cands) + multiset{c};
    var r := Admit(consumers, c, top);
    AdmitFacts(consumers, c, top);
    var m := AdmitFull(consumers, c, top);
    var i :| 0 <= i < |consumers| && consumers[i].cpuTime <= c.cpuTime;
    var z := consumers[i];
    LeftOutStep(multiset(cands), multiset(consumers), c, multiset(r), m);
    assert |r| == |multiset(r)| == top;
    forall x: Consumer, y: Consumer | x in multiset(cands') - multiset(r) && y in r
      ensures x.cpuTime <= y.cpuTime
    {
      if x != m {
        assert x in multiset(cands) - multiset(consumers);
        assert y in multiset(r) + multiset{m};
        assert z in consumers;
      }
    }
  }

  /** A candidate turned away by a full list of larger consumers is left out
      without harm. */
  lemma TopStepSkipped(consumers: seq<Consumer>, cands: seq<Consumer>, c: Consumer, top: nat)
    requires IsTopN(consumers, cands, top) && |consumers| <= top
    requires CountTimeAbove(consumers, c.cpuTime) >= top
    ensures IsTopN(consumers, cands + [c], top) && |consumers| == top
  {
    var cands' := cands + [c];
    assert multiset(cands') == multiset(cands) + multiset{c};
    assert |consumers| == top;
    LeftOutStep(multiset(cands), multiset(consumers), c, multiset(consumers) + multiset{}, c);
    forall x: Consumer, y: Consumer | x in multiset(cands') - multiset(consumers) && y in consumers
      ensures x.cpuTime <= y.cpuTime
    {
      if x != c {
        assert x in multiset(cands) - multiset(consumers);
      }
    }
  }

  /** The corrected selection returns exactly a top-`top` of the candidates. */
  lemma {:induction false} TopConsumersIsTopN(procs: seq<seq<ProcessRecord>>, top: nat)
    ensures IsTopN(TopConsumers(procs, top), Candidates(procs), top)
    ensures |TopConsumers(procs, top)| < top ==> multiset(TopConsumers(procs, top)) == multiset(Candidates(procs))
  {
    if |procs| > 0 {
      var init := procs[..|procs| - 1];
      var p := procs[|procs| - 1];
      TopConsumersIsTopN(init, top);
      TopStepKeepsTopN(TopConsumers(init, top), Candidates(init), p, top);
    }
  }

  /** One step of the corrected loop keeps a top-`top` of the candidates
      seen so far. */
  lemma TopStepKeepsTopN(before: seq<Consumer>, cands: seq<Consumer>, p: seq<ProcessRecord>, top: nat)
    requires IsTopN(before, cands, top)
    requires |before| < top ==> multiset(before) == multiset(cands)
    ensures var cands' := cands + (if |p| > 1 then [CandidateOf(p)] else []);
      IsTopN(TopStep(before, p, top), cands', top)
      && (|TopStep(before, p, top)| < top ==> multiset(TopStep(before, p, top)) == multiset(cands'))
  {
    if |p| > 1 {
      var c := CandidateOf(p);
      if CountTimeAbove(before, c.cpuTime) >= top {
        TopStepSkipped(before, cands, c, top);
      } else if |before| < top {
        TopStepUnderfull(before, cands, c, top);
      } else {
        TopStepFull(before, cands, c, top);
      }
    } else {
      assert cands + [] == cands;
    }
  }

  // Two histories: process 1 consumed 5 jiffies but has 95 in total in its
  // oldest record; process 2, listed after it, consumed 10.
  const EXAMPLE_A0 := IProcess(1, 0, "a", [], Some(IStat(45, 50)))
  const EXAMPLE_A1 := IProcess(1, 0, "a", [], Some(IStat(50, 50)))
  const EXAMPLE_B0 := IProcess(2, 0, "b", [], Some(IStat(0, 0)))
  const EXAMPLE_B1 := IProcess(2, 0, "b", [], Some(IStat(10, 0)))
  const EXAMPLE_HA := [ProcessRecord(EXAMPLE_A1, 2), ProcessRecord(EXAMPLE_A0, 1)]
  const EXAMPLE_HB := [ProcessRecord(EXAMPLE_B1, 2), ProcessRecord(EXAMPLE_B0, 1)]

  lemma ExampleCandidates()
    ensures Candidates([EXAMPLE_HA]) == [Consumer(EXAMPLE_A0, 5)]
    ensures Candidates([EXAMPLE_HA, EXAMPLE_HB]) == [Consumer(EXAMPLE_A0, 5), Consumer(EXAMPLE_B0, 10)]
  {
    assert CandidateOf(EXAMPLE_HA) == Consumer(EXAMPLE_A0, 5);
    assert CandidateOf(EXAMPLE_HB) == Consumer(EXAMPLE_B0, 10);
    assert [EXAMPLE_HA, EXAMPLE_HB][..1] == [EXAMPLE_HA];
    assert [EXAMPLE_HA][..0] == [];
  }

  lemma ExampleFirstStep()
    ensures TopConsumersAsWritten([EXAMPLE_HA], 1) == [Consumer(EXAMPLE_A0, 5)]
    ensures TopConsumers([EXAMPLE_HA], 1) == [Consumer(EXAMPLE_A0, 5)]
  {
    assert CandidateOf(EXAMPLE_HA) == Consumer(EXAMPLE_A0, 5);
    assert [EXAMPLE_HA][..0] == [];
    assert SortDesc([Consumer(EXAMPLE_A0, 5)], ByCpuTime) == [Consumer(EXAMPLE_A0, 5)];
  }

  /** The comparison as written lets an earlier entry with a large total
      shut out a later, bigger consumer: with `top` = 1, the process that
      consumed 5 jiffies is reported, not the one that consumed 10. */
  lemma TopConsumersAsWrittenMissesBiggest()
    ensures TopConsumersAsWritten([EXAMPLE_HA, EXAMPLE_HB], 1) == [Consumer(EXAMPLE_A0, 5)]
    ensures Consumer(EXAMPLE_B0, 10) in Candidates([EXAMPLE_HA, EXAMPLE_HB])
    ensures !IsTopN(TopConsumersAsWritten([EXAMPLE_HA, EXAMPLE_HB], 1), Candidates([EXAMPLE_HA, EXAMPLE_HB]), 1)
  {
    var procs := [EXAMPLE_HA, EXAMPLE_HB];
    ExampleCandidates();
    ExampleFirstStep();
    assert procs[..1] == [EXAMPLE_HA];
    assert CandidateOf(EXAMPLE_HB) == Consumer(EXAMPLE_B0, 10);
    assert CountJiffiesAbove([Consumer(EXAMPLE_A0, 5)], 10) == 1;
    var r := [Consumer(EXAMPLE_A0, 5)];
    assert Consumer(EXAMPLE_B0, 10) in multiset(Candidates(procs)) - multiset(r);
    assert r[0] in r;
  }

  /** On the same histories the corrected selection reports the process
      that consumed 10. */
  lemma TopConsumersFindsBiggest()
    ensures TopConsumers([EXAMPLE_HA, EXAMPLE_HB], 1) == [Consumer(EXAMPLE_B0, 10)]
  {
    var procs := [EXAMPLE_HA, EXAMPLE_HB];
    ExampleFirstStep();
    assert procs[..1] == [EXAMPLE_HA];
    assert CandidateOf(EXAMPLE_HB) == Consumer(EXAMPLE_B0, 10);
    assert CountTimeAbove([Consumer(EXAMPLE_A0, 5)], 10) == 0;
    var both := [Consumer(EXAMPLE_A0, 5), Consumer(EXAMPLE_B0, 10)];
    assert both[1..] == [Consumer(EXAMPLE_B0, 10)];
    assert SortDesc([Consumer(EXAMPLE_B0, 10)], ByCpuTime) == [Consumer(EXAMPLE_B0, 10)];
    assert SortDesc(both, ByCpuTime) == [Consumer(EXAMPLE_B0, 10), Consumer(EXAMPLE_A0, 5)];
  }

  /** Adding records of one process to an empty tracker, with `max` >= 1:
      one history results, holding the newest min(n, max) of the n records. */
  function AddAll(procs: seq<seq<ProcessRecord>>, process: IProcess, times: seq<nat>, max: nat): seq<seq<ProcessRecord>> {
    if |times| == 0 then procs
    else AddRecord(AddAll(procs, process, times[..|times| - 1], max), ProcessRecord(process, times[|times| - 1]), max)
  }

  /** Repeated additions for one process leave a single history, capped at
      `max` records, all of that process. */
  lemma {:induction false} AddAllOneProcess(process: IProcess, times: seq<nat>, max: nat)
    requires |times| > 0 && max >= 1
    ensures var procs := AddAll([], process, times, max);
      |procs| == 1
      && |procs[0]| == (if |times| < max then |times| else max)
      && forall k :: 0 <= k < |procs[0]| ==> procs[0][k].process == process
  {
    var n := |times|;
    var record := ProcessRecord(process, times[n - 1]);
    if n > 1 {
      AddAllOneProcess(process, times[..n - 1], max);
      var before := AddAll([], process, times[..n - 1], max);
      var h := before[0];
      assert before == [h];
      AddToOnlyHistory(h, record, max);
      CleanedAllOf([record] + h, max, process);
      assert AddAll([], process, times, max) == AddRecord([h], record, max);
    }
  }

  /** Adding a record of the process of the only history replaces it with
      the cleaned extended history. */
  lemma AddToOnlyHistory(h: seq<ProcessRecord>, record: ProcessRecord, max: nat)
    requires |h| > 0 && forall k :: 0 <= k < |h| ==> h[k].process == record.process
    ensures AddRecord([h], record, max) == [CleanedRecords([record] + h, max)]
  {
    FirstMatchAt([h], record.process.pid, 0);
  }

  /** Cleaning a history of one process keeps min(n, max) of its records,
      all of that process. */
  lemma CleanedAllOf(s: seq<ProcessRecord>, max: nat, process: IProcess)
    requires forall k :: 0 <= k < |s| ==> s[k].process == process
    ensures |CleanedRecords(s, max)| == (if |s| < max then |s| else max)
    ensures forall k :: 0 <= k < |CleanedRecords(s, max)| ==> CleanedRecords(s, max)[k].process == process
  {
    var cleaned := CleanedRecords(s, max);
    if |s| > max {
      var sorted := SortDesc(s, ByTimestamp);
      forall k | 0 <= k < |cleaned|
        ensures cleaned[k].process == process
      {
        assert cleaned[k] == sorted[k];
        assert sorted[k] in multiset(s);
      }
    }
  }


  class ProcessTracker {
    /** One history per PID, newest record first. */
    var procs: seq<seq<ProcessRecord>>
    const maxRecordsPerProcess: u16
    const nbCores: nat

    /** `ProcessTracker::new`, as built on Linux: no history yet, `nb_cores` 0. */
    constructor (maxRecordsPerProcess: u16)
      ensures procs == [] && this.maxRecordsPerProcess == maxRecordsPerProcess && nbCores == 0
    {
      procs := [];
      this.maxRecordsPerProcess := maxRecordsPerProcess;
      nbCores := 0;
    }

    /** `clean_old_process_records`: `len - max` rounds of "sort newest first,
        pop the last". */
    static method CleanOldProcessRecords(records: seq<ProcessRecord>, max: u16) returns (cleaned: seq<ProcessRecord>)
      ensures cleaned == CleanedRecords(records, max)
    {
      cleaned := records;
      if |cleaned| > max {
        var diff := |cleaned| - max;
        for k := 0 to diff
          invariant k == 0 ==> cleaned == records
          invariant k > 0 ==> cleaned == SortDesc(records, ByTimestamp)[..|records| - k]
        {
          if k > 0 {
            ResortPrefix(SortDesc(records, ByTimestamp), ByTimestamp, |records| - k);
          }
          cleaned := SortDesc(cleaned, ByTimestamp);
          cleaned := cleaned[..|cleaned| - 1];
        }
      }
    }

    /** `add_process_record` with the record stamped at `now`. */
    method AddProcessRecord(process: IProcess, now: nat) returns (r: Result<string, string>)
      modifies this
      ensures procs == AddRecord(old(procs), ProcessRecord(process, now), maxRecordsPerProcess)
      ensures r == Ok("Successfully added record to process.")
    {
      var record := ProcessRecord(process, now);
      var i := 0;
      while i < |procs| && !PidMatches(procs[i], process.pid)
        invariant 0 <= i <= |procs|
        invariant forall j :: 0 <= j < i ==> !PidMatches(procs[j], process.pid)
      {
        i := i + 1;
      }
      if i < |procs| {
        FirstMatchAt(procs, process.pid, i);
        var vector := procs[i];
        if |vector| > 0 && record.process.comm != vector[0].process.comm {
          vector := [];
        }
        vector := [record] + vector;
        vector := CleanOldProcessRecords(vector, maxRecordsPerProcess);
        procs := procs[i := vector];
      } else {
        procs := procs + [[record]];
      }
      r := Ok("Successfully added record to process.");
    }

    /** `find_records`: the LAST history whose head has `pid`. */
    method FindRecords(pid: int) returns (r: Option<seq<ProcessRecord>>)
      ensures r.None? <==> forall i :: 0 <= i < |procs| ==> !PidMatches(procs[i], pid)
      ensures r.Some? ==> exists i :: 0 <= i < |procs| && PidMatches(procs[i], pid) && r.value == procs[i]
                            && forall j :: i < j < |procs| ==> !PidMatches(procs[j], pid)
    {
      r := None;
      ghost var at: nat := 0;
      for i := 0 to |procs|
        invariant r.None? <==> forall j :: 0 <= j < i ==> !PidMatches(procs[j], pid)
        invariant r.Some? ==> at < i && PidMatches(procs[at], pid) && r.value == procs[at]
                              && forall j :: at < j < i ==> !PidMatches(procs[j], pid)
      {
        if PidMatches(procs[i], pid) {
          r := Some(procs[i]);
          at := i;
        }
      }
    }

    /** `get_top_consumers` on Linux: for each history of more than one
        record, push its entry when fewer than `top` held entries consumed
        more, re-sort newest-largest first and pop beyond `top`. The
        comparison is the corrected one (see TopConsumersAsWritten). */
    method GetTopConsumers(top: u16) returns (consumers: seq<Consumer>)
      ensures consumers == TopConsumers(procs, top)
    {
      consumers := [];
      for k := 0 to |procs|
        invariant consumers == TopConsumers(procs[..k], top)
      {
        var p := procs[k];
        assert procs[..k + 1][..k] == procs[..k];
        if |p| > 1 {
          var diff := GetCpuTimeConsumed(p);
          if CountTimeAbove(consumers, diff) < top {
            consumers := consumers + [Consumer(p[|p| - 1].process, diff)];
            consumers := SortDesc(consumers, ByCpuTime);
            if |consumers| > top {
              consumers := consumers[..|consumers| - 1];
            }
          }
        }
      }
      assert procs[..|procs|] == procs;
    }

    /** `get_cpu_time_consumed`: total jiffies of the newest record minus those
        of the one before, saturating at 0 when the total went down. */
    static function GetCpuTimeConsumed(p: seq<ProcessRecord>): (diff: u64)
      requires |p| >= 2
      ensures diff <= TotalTimeJiffies(p[0])
      ensures TotalTimeJiffies(p[1]) <= TotalTimeJiffies(p[0]) ==> diff + TotalTimeJiffies(p[1]) == TotalTimeJiffies(p[0])
      ensures TotalTimeJiffies(p[1]) > TotalTimeJiffies(p[0]) ==> diff == 0
    {
      var last := TotalTimeJiffies(p[0]);
      var previous := TotalTimeJiffies(p[1]);
      if previous <= last then last - previous else 0
    }

    /** `extract_pod_id_from_cgroup_path`: last '/' segment, without a
        "docker-" prefix and a ".scope" suffix, reduced to its last ':'
        piece when it mentions "cri-containerd". Always `Ok`. */
    static function ExtractPodIdFromCgroupPath(pathname: string): (r: Result<string, string>)
      ensures r.Ok?
      ensures '/' !in r.value
      ensures Contains(PodIdStripped(pathname), "cri-containerd") ==>
                r.value == LastSegment(PodIdStripped(pathname), ':')
      ensures !Contains(PodIdStripped(pathname), "cri-containerd") ==> r.value == PodIdStripped(pathname)
    {
      var id := PodIdStripped(pathname);
      if Contains(id, "cri-containerd") then
        var pieces := Split(id, ':');
        assert '/' !in pieces[|pieces| - 1] by {
          forall ch | ch in pieces[|pieces| - 1]
            ensures ch in id
          {
            SplitPieceChars(id, ':', |pieces| - 1, ch);
          }
        }
        SplitLastIsLastSegment(id, ':');
        Ok(pieces[|pieces| - 1])
      else Ok(id)
    }
  }

  /** `seg` is `id` with at most one leading "docker-" and at most one
      trailing ".scope", each present exactly when `seg` carries it. */
  predicate ContainerAffixes(seg: string, id: string) {
    var prefix := if StartsWith(seg, "docker-") then "docker-" else "";
    var suffix := if EndsWith(seg[|prefix|..], ".scope") then ".scope" else "";
    seg == prefix + id + suffix
  }

  /** `seg` without one leading "docker-" and one trailing ".scope": a
      piece of `seg` that keeps every character it does not drop. */
  function StripContainerAffixes(seg: string): (id: string)
    ensures ContainerAffixes(seg, id)
    ensures forall c :: c !in seg ==> c !in id
  {
    var prefix := if StartsWith(seg, "docker-") then "docker-" else "";
    var noPrefix := seg[|prefix|..];
    var suffix := if EndsWith(noPrefix, ".scope") then ".scope" else "";
    var noSuffix := noPrefix[..|noPrefix| - |suffix|];
    assert noPrefix == noSuffix + suffix;
    assert seg == prefix + noSuffix + suffix;
    noSuffix
  }

  /** The last '/' piece of `pathname` with one leading "docker-" and one
      trailing ".scope" removed. */
  function PodIdStripped(pathname: string): (id: string)
    ensures '/' !in id
    ensures ContainerAffixes(LastSegment(pathname, '/'), id)
  {
    var segments := Split(pathname, '/');
    SplitLastIsLastSegment(pathname, '/');
    StripContainerAffixes(segments[|segments| - 1])
  }
}
