// src/exporters/prometheuspush.rs: the exporter that pushes every batch of
// metrics to a Prometheus Pushgateway. Each round renders the batch as one
// text body (the same "# HELP"/"# TYPE" header once per metric name as the
// scrape endpoint), after giving every metric "instance" and "hostname"
// labels it does not already carry, and posts it to a fixed URI.

module PrometheusPush {
  import opened Wrappers
  import opened Strings
  import opened MachineInt
  import opened Metrics
  import opened Prometheus

  /** The Pushgateway URI of `run`. */
  function PushUri(scheme: string, host: string, port: u16, suffix: string, job: string,
                   hostname: string): string
  {
    scheme + "://" + host + ":" + NatToString(port) + "/" + suffix + "/job/" + job
    + "/instance/" + hostname
  }

  /** Read back along its slashes, the URI gives the scheme, the host and
      port, the path suffix, the job and the hostname, and the port text
      parses back to the port; this needs components free of '/' and a host
      free of ':'. */
  lemma PushUriFields(scheme: string, host: string, port: u16, suffix: string, job: string,
                      hostname: string)
    requires '/' !in scheme && '/' !in host && '/' !in suffix && '/' !in job && '/' !in hostname
    requires ':' !in host
    ensures Split(PushUri(scheme, host, port, suffix, job, hostname), '/')
            == [scheme + ":", "", host + ":" + NatToString(port), suffix, "job", job, "instance", hostname]
    ensures Split(host + ":" + NatToString(port), ':') == [host, NatToString(port)]
    ensures ParseUnsigned(NatToString(port), U16_LIMIT) == Some(port)
  {
    var portText := NatToString(port);
    var authority := host + ":" + portText;
    assert '/' !in portText && ':' !in portText;
    PushUriNested(scheme, host, portText, suffix, job, hostname);
    NestedSlashes(scheme + ":", authority, suffix, job, hostname);
    SplitAround(host, ':', portText);
    ParseOfNatToString(port, U16_LIMIT);
  }

  /** The URI with every '/' made explicit. */
  function Nested(head: string, authority: string, suffix: string, job: string, hostname: string): string {
    head + ['/'] + ("" + ['/'] + (authority + ['/'] + (suffix + ['/'] + ("job" + ['/']
      + (job + ['/'] + ("instance" + ['/'] + hostname))))))
  }

  lemma PushUriNested(scheme: string, host: string, portText: string, suffix: string, job: string,
                      hostname: string)
    ensures scheme + "://" + host + ":" + portText + "/" + suffix + "/job/" + job + "/instance/" + hostname
            == Nested(scheme + ":", host + ":" + portText, suffix, job, hostname)
  {
  }

  lemma NestedSlashes(head: string, authority: string, suffix: string, job: string, hostname: string)
    requires '/' !in head && '/' !in authority && '/' !in suffix && '/' !in job && '/' !in hostname
    ensures Split(Nested(head, authority, suffix, job, hostname), '/')
            == [head, "", authority, suffix, "job", job, "instance", hostname]
  {
    var s6 := "instance" + ['/'] + hostname;
    var s5 := job + ['/'] + s6;
    var s4 := "job" + ['/'] + s5;
    var s3 := suffix + ['/'] + s4;
    var s2 := authority + ['/'] + s3;
    var s1 := "" + ['/'] + s2;
    SplitHead("instance", '/', hostname);
    SplitHead(job, '/', s6);
    SplitHead("job", '/', s5);
    SplitHead(suffix, '/', s4);
    SplitHead(authority, '/', s3);
    SplitHead("", '/', s2);
    SplitHead(head, '/', s1);
    Cons8(head, "", authority, suffix, "job", job, "instance", hostname);
  }

  /** Splitting a separator-free head off a string. */
  lemma SplitHead(x: string, c: char, y: string)
    requires c !in x
    ensures Split(x + [c] + y, c) == [x] + Split(y, c)
  {
    SplitAround(x, c, y);
  }

  lemma Cons8(a: string, b: string, c: string, d: string, e: string, f: string, g: string, h: string)
    ensures [a] + ([b] + ([c] + ([d] + ([e] + ([f] + ([g] + [h])))))) == [a, b, c, d, e, f, g, h]
  {
  }

  /** The attributes a metric is pushed with: "instance" and "hostname" are
      added with the metric's hostname when missing. */
  function WithHostAttributes(attributes: map<string, string>, hostname: string): (r: map<string, string>)
    ensures r.Keys == attributes.Keys + {"instance", "hostname"}
    ensures forall k :: k in attributes ==> r[k] == attributes[k]
    ensures "instance" !in attributes ==> r["instance"] == hostname
    ensures "hostname" !in attributes ==> r["hostname"] == hostname
  {
    var withInstance := if "instance" in attributes then attributes else attributes["instance" := hostname];
    if "hostname" in withInstance then withInstance else withInstance["hostname" := hostname]
  }

  /** The sample line of `m` in a pushed batch. */
  function PushLine(format: LineFormat, m: Metric): string {
    format(m.name, RenderValue(m.value), Some(WithHostAttributes(m.attributes, m.hostname)))
  }

  /** `PushLine` for every metric. */
  function PushLines(format: LineFormat): Metric -> string {
    m => PushLine(format, m)
  }

  lemma PushLineOf(format: LineFormat, m: Metric)
    ensures PushLines(format)(m)
            == format(m.name, RenderValue(m.value), Some(WithHostAttributes(m.attributes, m.hostname)))
  {
  }

  /** `run` writes the header in two pieces, which make up `HelpHeader`. */
  lemma HeaderWritten(body: string, help: string, metricType: string, name: string, line: string,
                      addHelp: bool)
    ensures PushMetric(body, help, metricType, name, line, addHelp)
            == (if addHelp then (body + "# HELP " + name + " " + help)
                                + "\n# TYPE " + name + " " + metricType + "\n"
                else body) + line
  {
  }

  /** The body of one push: the loop over the batch in `run`. Headers are
      tracked in `metrics_pushed` as on the scrape endpoint; each metric's
      attributes get the host labels in place before its line is written.
      The value text is `MetricValueType`'s formatting, `RenderValue`. */
  method BatchBody(batch: seq<Metric>, format: LineFormat) returns (body: string)
    ensures body == Exposition(batch, PushLines(format))
  {
    body := "";
    var pushed: seq<string> := [];
    for i := 0 to |batch|
      invariant body == Exposition(batch[..i], PushLines(format))
      invariant pushed == PushedNames(batch[..i])
    {
      var m := batch[i];
      var addHelp := true;
      ghost var before := pushed;
      if m.name in pushed {
        addHelp := false;
      } else {
        pushed := [m.name] + pushed;
      }
      ghost var start := body;
      if addHelp {
        body := body + "# HELP " + m.name + " " + m.description;
        body := body + "\n# TYPE " + m.name + " " + m.metricType + "\n";
      }
      var attributes := m.attributes;
      if "instance" !in attributes {
        attributes := attributes["instance" := m.hostname];
      }
      if "hostname" !in attributes {
        attributes := attributes["hostname" := m.hostname];
      }
      body := body + format(m.name, RenderValue(m.value), Some(attributes));
      PushLineOf(format, m);
      HeaderWritten(start, m.description, m.metricType, m.name, PushLines(format)(m), addHelp);
      ExpositionExtend(batch, i, PushLines(format), start, before, pushed, addHelp, body);
    }
    assert batch[..|batch|] == batch;
  }
}
