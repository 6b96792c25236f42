// src/exporters/prometheus.rs: the HTTP endpoint Prometheus scrapes. A
// request on "/{suffix}" renders the generator's metrics in the text
// exposition format, writing the "# HELP"/"# TYPE" header only before the
// first sample of each metric name, and refreshes the topology when more
// than two seconds have passed since the previous scrape. Any other path
// gets a short HTML page pointing to the metrics path.

module Prometheus {
  import opened Wrappers
  import opened Strings
  import opened Metrics

  /** `utils::format_prometheus_metric(name, value, attributes)`: the text of
      one sample line. Its definition is not part of this model, so the
      exporters take it as a parameter. */
  type LineFormat = (string, string, Option<map<string, string>>) -> string

  /** The header `push_metric` writes before the first sample of a metric. */
  function HelpHeader(name: string, help: string, metricType: string): string {
    "# HELP " + name + " " + help + "\n# TYPE " + name + " " + metricType + "\n"
  }

  /** `push_metric`: the body extended with the header, when `addHelp`, and
      then with the sample line. */
  function PushMetric(body: string, help: string, metricType: string, name: string,
                      line: string, addHelp: bool): (r: string)
    ensures |r| == |body| + |line| + (if addHelp then |HelpHeader(name, help, metricType)| else 0)
    ensures r[..|body|] == body && r[|r| - |line|..] == line
    ensures addHelp ==> r[|body|..|r| - |line|] == HelpHeader(name, help, metricType)
    ensures !addHelp ==> r == body + line
  {
    var header := if addHelp then HelpHeader(name, help, metricType) else "";
    var r := body + header + line;
    assert r[..|body|] == body;
    assert r[|r| - |line|..] == line;
    assert r[|body|..|r| - |line|] == header;
    r
  }

  /** A header is exactly two lines, HELP then TYPE, when none of its parts
      contains a line break. */
  lemma HelpHeaderLines(name: string, help: string, metricType: string)
    requires '\n' !in name && '\n' !in help && '\n' !in metricType
    ensures Split(HelpHeader(name, help, metricType), '\n')
            == ["# HELP " + name + " " + help, "# TYPE " + name + " " + metricType, ""]
  {
    var helpLine := "# HELP " + name + " " + help;
    var typeLine := "# TYPE " + name + " " + metricType;
    assert HelpHeader(name, help, metricType) == helpLine + ['\n'] + (typeLine + ['\n'] + "");
    assert '\n' !in helpLine;
    assert '\n' !in typeLine;
    SplitAround(typeLine, '\n', "");
    SplitAround(helpLine, '\n', typeLine + ['\n'] + "");
  }

  /** The value text of the sample: `to_string` of the value. */
  function RenderValue(v: MetricValue): (r: string)
    ensures v.IntUnsigned? ==> |r| > 0 && AllDigits(r) && DigitsValue(r) == v.n
    ensures v.IntUnsigned? && v.n > 0 ==> r[0] != '0'
    ensures v.Text? ==> r == v.text
  {
    match v
    case IntUnsigned(n) => DigitsValueOfNatToString(n); NatToString(n)
    case Text(text) => text
  }

  /** The attributes handed to the line formatter: none for an empty map. */
  function AttributesOf(attributes: map<string, string>): (r: Option<map<string, string>>)
    ensures r.None? <==> |attributes| == 0
    ensures r.Some? ==> r.value == attributes
  {
    if |attributes| == 0 then None else Some(attributes)
  }

  /** The sample line of `m` on the scrape endpoint. */
  function ScrapeLine(format: LineFormat, m: Metric): string {
    format(m.name, RenderValue(m.value), AttributesOf(m.attributes))
  }

  /** `ScrapeLine` for every metric. */
  function ScrapeLines(format: LineFormat): Metric -> string {
    m => ScrapeLine(format, m)
  }

  lemma ScrapeLineOf(format: LineFormat, m: Metric)
    ensures ScrapeLines(format)(m) == format(m.name, RenderValue(m.value), AttributesOf(m.attributes))
  {
  }

  /** `metrics_pushed` after the metrics of `batch`: each name not seen
      yet is inserted at the front. */
  function PushedNames(batch: seq<Metric>): seq<string>
    decreases |batch|
  {
    if |batch| == 0 then []
    else
      var pushed := PushedNames(batch[..|batch| - 1]);
      var name := batch[|batch| - 1].name;
      if name in pushed then pushed else [name] + pushed
  }

  /** `metrics_pushed` holds exactly the names seen so far... */
  lemma {:induction false} PushedNamesSeen(batch: seq<Metric>, name: string)
    ensures name in PushedNames(batch) <==> exists j :: 0 <= j < |batch| && batch[j].name == name
    decreases |batch|
  {
    if |batch| > 0 {
      var k := |batch| - 1;
      PushedNamesSeen(batch[..k], name);
      assert forall j :: 0 <= j < k ==> batch[..k][j] == batch[j];
    }
  }

  /** ... each of them once. */
  lemma {:induction false} PushedNamesDistinct(batch: seq<Metric>)
    ensures Distinct(PushedNames(batch))
    decreases |batch|
  {
    if |batch| > 0 {
      PushedNamesDistinct(batch[..|batch| - 1]);
    }
  }

  /** Metric `i` is the first of the batch with its name. */
  predicate FirstOfName(batch: seq<Metric>, i: nat)
    requires i < |batch|
  {
    forall j :: 0 <= j < i ==> batch[j].name != batch[i].name
  }

  /** The response body for `batch`: each metric's sample line, preceded by
      the metric's header when it is the first of its name. */
  function Exposition(batch: seq<Metric>, line: Metric -> string): string
    decreases |batch|
  {
    if |batch| == 0 then ""
    else
      var i := |batch| - 1;
      var m := batch[i];
      PushMetric(Exposition(batch[..i], line), m.description, m.metricType, m.name,
                 line(m), FirstOfName(batch, i))
  }

  /** What metric `i` contributes to the body. */
  function Chunk(batch: seq<Metric>, i: nat, line: Metric -> string): string
    requires i < |batch|
  {
    var m := batch[i];
    (if FirstOfName(batch, i) then HelpHeader(m.name, m.description, m.metricType) else "") + line(m)
  }

  function Chunks(batch: seq<Metric>, line: Metric -> string): (r: seq<string>)
    ensures |r| == |batch|
    ensures forall i :: 0 <= i < |batch| ==> r[i] == Chunk(batch, i, line)
  {
    seq(|batch|, i requires 0 <= i < |batch| => Chunk(batch, i, line))
  }

  /** Whether a metric is first of its name does not depend on what follows it. */
  lemma FirstOfNamePrefix(batch: seq<Metric>, k: nat, i: nat)
    requires i < k <= |batch|
    ensures FirstOfName(batch[..k], i) == FirstOfName(batch, i)
  {
    assert forall j :: 0 <= j <= i ==> batch[..k][j] == batch[j];
  }

  /** The body is the concatenation, in batch order, of every metric's
      optional header and sample line. */
  lemma {:induction false} ExpositionChunks(batch: seq<Metric>, line: Metric -> string)
    ensures Exposition(batch, line) == Concat(Chunks(batch, line))
    decreases |batch|
  {
    if |batch| > 0 {
      var i := |batch| - 1;
      ExpositionChunks(batch[..i], line);
      ChunksPrefix(batch, i, line);
      ExpositionStep(batch, i, line);
      ConcatStep(Chunks(batch, line), Exposition(batch[..i], line));
    }
  }

  /** The chunks of a prefix are a prefix of the chunks. */
  lemma ChunksPrefix(batch: seq<Metric>, k: nat, line: Metric -> string)
    requires k <= |batch|
    ensures Chunks(batch[..k], line) == Chunks(batch, line)[..k]
  {
    forall j | 0 <= j < k
      ensures Chunks(batch[..k], line)[j] == Chunks(batch, line)[j]
    {
      FirstOfNamePrefix(batch, k, j);
      assert batch[..k][j] == batch[j];
    }
  }

  /** One more metric appends its chunk to the body. */
  lemma ExpositionStep(batch: seq<Metric>, i: nat, line: Metric -> string)
    requires i == |batch| - 1
    ensures Exposition(batch, line) == Exposition(batch[..i], line) + Chunk(batch, i, line)
  {
  }

  lemma ConcatStep(parts: seq<string>, front: string)
    requires |parts| > 0 && front == Concat(parts[..|parts| - 1])
    ensures Concat(parts) == front + parts[|parts| - 1]
  {
  }

  /** Every name of the batch gets exactly one header: the metric that is
      first of its name exists and is unique. */
  lemma {:induction false} HelpOncePerName(batch: seq<Metric>, name: string)
    requires exists i :: 0 <= i < |batch| && batch[i].name == name
    ensures exists i :: 0 <= i < |batch| && batch[i].name == name && FirstOfName(batch, i)
    ensures forall i, j :: (0 <= i < |batch| && 0 <= j < |batch| && batch[i].name == name
              && batch[j].name == name && FirstOfName(batch, i) && FirstOfName(batch, j)) ==> i == j
    decreases |batch|
  {
    var k := |batch| - 1;
    if exists i :: 0 <= i < k && batch[i].name == name {
      HelpOncePerName(batch[..k], name);
      var i :| 0 <= i < k && batch[..k][i].name == name && FirstOfName(batch[..k], i);
      FirstOfNamePrefix(batch, k, i);
    } else {
      assert batch[k].name == name;
      assert FirstOfName(batch, k);
    }
  }

  /** The scrape is a no-op below this age of the previous one: two seconds. */
  const REFRESH_INTERVAL_NS: nat := 2_000_000_000

  /** `now - last_request > Duration::from_secs(2)` */
  predicate RefreshDue(lastRequest: nat, now: nat) {
    now - lastRequest > REFRESH_INTERVAL_NS
  }

  /** Which of a run of scrapes at `times` refresh the topology, starting
      with `lastRequest`; every scrape moves `lastRequest` to its own time. */
  function RefreshPlan(lastRequest: nat, times: seq<nat>): (r: seq<bool>)
    ensures |r| == |times|
    decreases |times|
  {
    if |times| == 0 then []
    else [RefreshDue(lastRequest, times[0])] + RefreshPlan(times[0], times[1..])
  }

  /** A scrape refreshes exactly when more than two seconds passed since the
      previous scrape (not since the previous refresh). */
  lemma {:induction false} RefreshPlanGaps(lastRequest: nat, times: seq<nat>, k: nat)
    requires k < |times|
    ensures RefreshPlan(lastRequest, times)[k]
            <==> RefreshDue(if k == 0 then lastRequest else times[k - 1], times[k])
    decreases |times|
  {
    if k > 0 {
      RefreshPlanGaps(times[0], times[1..], k - 1);
      assert times[1..][k - 1] == times[k];
      if k > 1 {
        assert times[1..][k - 2] == times[k - 1];
      }
    }
  }

  /** Scrapes that never leave more than two seconds between each other
      never refresh the topology after the first of them, however long
      the first waited. */
  lemma NoRefreshUnderFrequentScrapes(lastRequest: nat, times: seq<nat>)
    requires forall k :: 0 < k < |times| ==> !RefreshDue(times[k - 1], times[k])
    ensures |times| > 0 ==> (RefreshPlan(lastRequest, times)[0] <==> RefreshDue(lastRequest, times[0]))
    ensures forall k :: 0 < k < |times| ==> !RefreshPlan(lastRequest, times)[k]
  {
    if |times| > 0 {
      RefreshPlanGaps(lastRequest, times, 0);
    }
    forall k | 0 < k < |times|
      ensures !RefreshPlan(lastRequest, times)[k]
    {
      RefreshPlanGaps(lastRequest, times, k);
    }
  }

  /** The HTML page served on any other path. */
  function LinkPage(suffix: string): string {
    "<a href=\"https://github.com/hubblo-org/scaphandre/\">Scaphandre's</a> prometheus exporter here. Metrics available on <a href=\"/"
    + suffix + "\">/" + suffix + "</a>"
  }

  /** `PowerMetrics`: the time of the previous scrape, shared by the
      server's workers. */
  class PowerMetrics {
    /** Nanoseconds since the epoch of the previous scrape. */
    var lastRequest: nat

    /** `run_server` starts with `Duration::new(0, 0)`. */
    constructor ()
      ensures lastRequest == 0
    {
      lastRequest := 0;
    }

    /** `show_metrics` for a request on `path` at time `now`. On the metrics
        path it reports in `refreshed` whether the topology is refreshed
        first, records `now` and renders `batch`, the metrics
        `gen_all_metrics` produced; elsewhere it returns the link page and
        changes nothing. Subtracting a later `last_request` from `now`
        panics, hence the precondition. */
    method ShowMetrics(path: string, suffix: string, now: nat, batch: seq<Metric>, format: LineFormat)
      returns (body: string, refreshed: bool)
      requires path == "/" + suffix ==> lastRequest <= now
      modifies this
      ensures refreshed <==> path == "/" + suffix && RefreshDue(old(lastRequest), now)
      ensures lastRequest == if path == "/" + suffix then now else old(lastRequest)
      ensures path == "/" + suffix ==> body == Exposition(batch, ScrapeLines(format))
      ensures path != "/" + suffix ==> body == LinkPage(suffix)
    {
      body := "";
      refreshed := false;
      if path == "/" + suffix {
        if now - lastRequest > REFRESH_INTERVAL_NS {
          refreshed := true;
        }
        lastRequest := now;
        body := RenderMetrics(batch, format);
      } else {
        body := LinkPage(suffix);
      }
    }
  }

  /** The "Send all data" loop of `show_metrics`: every metric's sample
      line, with the header before the first metric of each name, which is
      what `metrics_pushed` keeps track of. */
  method RenderMetrics(batch: seq<Metric>, format: LineFormat) returns (body: string)
    ensures body == Exposition(batch, ScrapeLines(format))
  {
    body := "";
    var pushed: seq<string> := [];
    for i := 0 to |batch|
      invariant body == Exposition(batch[..i], ScrapeLines(format))
      invariant pushed == PushedNames(batch[..i])
    {
      var msg := batch[i];
      var attributes := AttributesOf(msg.attributes);
      var value := RenderValue(msg.value);
      var addHelp := true;
      ghost var before := pushed;
      if msg.name in pushed {
        addHelp := false;
      } else {
        pushed := [msg.name] + pushed;
      }
      ghost var start := body;
      body := PushMetric(body, msg.description, msg.metricType, msg.name,
                         format(msg.name, value, attributes), addHelp);
      ScrapeLineOf(format, msg);
      ExpositionExtend(batch, i, ScrapeLines(format), start, before, pushed, addHelp, body);
    }
    assert batch[..|batch|] == batch;
  }

  /** One iteration of the rendering loop: the `metrics_pushed` test
      agrees with `FirstOfName`, so the body grows by the metric's chunk,
      and `metrics_pushed` gains the metric's name if it is new. */
  lemma ExpositionExtend(batch: seq<Metric>, i: nat, line: Metric -> string, body: string,
                         pushed: seq<string>, pushedAfter: seq<string>, addHelp: bool, bodyAfter: string)
    requires i < |batch| && body == Exposition(batch[..i], line) && pushed == PushedNames(batch[..i])
    requires addHelp == (batch[i].name !in pushed)
    requires pushedAfter == if addHelp then [batch[i].name] + pushed else pushed
    requires bodyAfter == PushMetric(body, batch[i].description, batch[i].metricType, batch[i].name,
                                     line(batch[i]), addHelp)
    ensures bodyAfter == Exposition(batch[..i + 1], line)
    ensures pushedAfter == PushedNames(batch[..i + 1])
  {
    FirstOfNamePrefix(batch, i + 1, i);
    assert batch[..i + 1][..i] == batch[..i];
    PushedNamesSeen(batch[..i], batch[i].name);
    assert forall j :: 0 <= j < i ==> batch[..i][j] == batch[j];
  }
}
