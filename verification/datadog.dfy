// The series the Datadog exporter of src/exporters/datadog.rs ships: the
// `Serie` value and its builders, and the per-socket and per-domain series
// it assembles from the power records of the topology. The power records
// themselves come from floating-point divisions over the energy buffers and
// are inputs here, one optional record per socket and per domain.

module Datadog {
  import opened Wrappers
  import opened Strings
  import opened MachineInt
  import opened Sensors

  /** The Datadog metric types. */
  datatype SerieType = Count | Gauge | Rate

  /** `Type::as_str`, the name the type is serialized as. */
  function AsStr(t: SerieType): (s: string)
    ensures s in {"count", "gauge", "rate"}
    ensures (s == "count" <==> t == Count) && (s == "gauge" <==> t == Gauge) && (s == "rate" <==> t == Rate)
  {
    match t
    case Count => "count"
    case Gauge => "gauge"
    case Rate => "rate"
  }

  /** Distinct types serialize to distinct names, so a name identifies its
      type. */
  lemma AsStrInjective(a: SerieType, b: SerieType)
    ensures AsStr(a) == AsStr(b) ==> a == b
  {
    if a != b {
      match a
      case Count => assert AsStr(a)[0] == 'c' && AsStr(b)[0] != 'c';
      case Gauge => assert AsStr(a)[0] == 'g' && AsStr(b)[0] != 'g';
      case Rate => assert AsStr(a)[0] == 'r' && AsStr(b)[0] != 'r';
    }
  }

  /** `Point`: a time in seconds and a value. */
  datatype Point = Point(timestamp: nat, value: nat)

  /** `Serie`: one time series as Datadog's API takes it. */
  datatype Serie = Serie(host: Option<string>, interval: Option<int>, metric: string,
                         points: seq<Point>, tags: seq<string>, dtype: SerieType)

  /** `Serie::new`: the name and type, no host, no interval, no points, no
      tags. */
  function NewSerie(metric: string, dtype: SerieType): (s: Serie)
    ensures s.metric == metric && s.dtype == dtype
    ensures s.host.None? && s.interval.None? && s.points == [] && s.tags == []
  {
    Serie(None, None, metric, [], [], dtype)
  }

  /** `set_host`: the host is set, no other field changes. */
  function SetHost(s: Serie, host: string): (r: Serie)
    ensures r.host == Some(host)
    ensures r.interval == s.interval && r.metric == s.metric && r.points == s.points
            && r.tags == s.tags && r.dtype == s.dtype
  {
    s.(host := Some(host))
  }

  /** `set_interval`: the interval is set, no other field changes. */
  function SetInterval(s: Serie, interval: int): (r: Serie)
    ensures r.interval == Some(interval)
    ensures r.host == s.host && r.metric == s.metric && r.points == s.points
            && r.tags == s.tags && r.dtype == s.dtype
  {
    s.(interval := Some(interval))
  }

  /** `set_points`: the points are replaced, no other field changes. */
  function SetPoints(s: Serie, points: seq<Point>): (r: Serie)
    ensures r.points == points
    ensures r.host == s.host && r.interval == s.interval && r.metric == s.metric
            && r.tags == s.tags && r.dtype == s.dtype
  {
    s.(points := points)
  }

  /** `add_point`: the point is appended at the end, no other field
      changes. */
  function AddPoint(s: Serie, point: Point): (r: Serie)
    ensures |r.points| == |s.points| + 1 && r.points[..|s.points|] == s.points && r.points[|s.points|] == point
    ensures r.host == s.host && r.interval == s.interval && r.metric == s.metric
            && r.tags == s.tags && r.dtype == s.dtype
  {
    var r := s.(points := s.points + [point]);
    assert r.points[..|s.points|] == s.points;
    r
  }

  /** `set_tags`: the tags are replaced, no other field changes. */
  function SetTags(s: Serie, tags: seq<string>): (r: Serie)
    ensures r.tags == tags
    ensures r.host == s.host && r.interval == s.interval && r.metric == s.metric
            && r.points == s.points && r.dtype == s.dtype
  {
    s.(tags := tags)
  }

  /** `add_tag`: the tag is appended at the end, no other field changes. */
  function AddTag(s: Serie, tag: string): (r: Serie)
    ensures |r.tags| == |s.tags| + 1 && r.tags[..|s.tags|] == s.tags && r.tags[|s.tags|] == tag
    ensures r.host == s.host && r.interval == s.interval && r.metric == s.metric
            && r.points == s.points && r.dtype == s.dtype
  {
    var r := s.(tags := s.tags + [tag]);
    assert r.tags[..|s.tags|] == s.tags;
    r
  }

  /** Points and tags live in separate fields: adding a point and adding a
      tag give the same serie in either order. */
  lemma AddPointAddTagCommute(s: Serie, point: Point, tag: string)
    ensures AddTag(AddPoint(s, point), tag) == AddPoint(AddTag(s, tag), point)
  {
    var a := AddTag(AddPoint(s, point), tag);
    var b := AddPoint(AddTag(s, tag), point);
    assert a.points == s.points + [point] == b.points;
    assert a.tags == s.tags + [tag] == b.tags;
  }

  /** `merge`: fold `second` into `first`, pushing each item at the end;
      the result is `first` followed by `second`. */
  function Merge<A>(first: seq<A>, second: seq<A>): (r: seq<A>)
    ensures r == first + second
    decreases |second|
  {
    if |second| == 0 then first
    else
      var r := Merge(first + [second[0]], second[1..]);
      assert first + [second[0]] + second[1..] == first + second;
      r
  }

  /** `get_domain_name`: the RAPL domain an index stands for. */
  function GetDomainName(index: nat): (r: Option<string>)
    ensures r.Some? <==> index < 3
    ensures r.Some? ==> r.value in {"core", "uncore", "dram"}
    ensures (r == Some("core") <==> index == 0) && (r == Some("uncore") <==> index == 1)
            && (r == Some("dram") <==> index == 2)
  {
    match index
    case 0 => Some("core")
    case 1 => Some("uncore")
    case 2 => Some("dram")
    case _ => None
  }

  /** Each of the three indexes is named differently. */
  lemma GetDomainNameInjective(i: nat, j: nat)
    requires i < 3 && j < 3 && i != j
    ensures GetDomainName(i) != GetDomainName(j)
  {
    assert |GetDomainName(0).value| == 4 && |GetDomainName(1).value| == 6 && |GetDomainName(2).value| == 4;
    assert GetDomainName(0).value[0] == 'c' && GetDomainName(2).value[0] == 'd';
  }

  /** `create_consumption_serie`: a "consumption" gauge of the host, tagged
      with its name. */
  function ConsumptionSerie(hostname: string): (s: Serie)
    ensures s.metric == "consumption" && s.dtype == Gauge && s.host == Some(hostname)
    ensures s.interval.None? && s.points == [] && s.tags == ["hostname:" + hostname]
  {
    AddTag(SetHost(NewSerie("consumption", Gauge), hostname), "hostname:" + hostname)
  }

  /** What the exporter knows of a socket: its id, the power record of the
      socket and that of each of its domains, in the socket's order. */
  datatype SocketPower = SocketPower(id: u16, power: Option<Record>, domainPowers: seq<Option<Record>>)

  /** A power value as `parse::<u64>().unwrap_or(0)` reads it. */
  function PowerValue(r: Record): (v: nat)
    ensures ParseUnsigned(r.value, U64_LIMIT).Some? ==> v == ParseUnsigned(r.value, U64_LIMIT).value
    ensures ParseUnsigned(r.value, U64_LIMIT).None? ==> v == 0
  {
    match ParseUnsigned(r.value, U64_LIMIT)
    case Some(v) => v
    case None => 0
  }

  /** The point a power record gives: whole seconds and value. */
  function PointOf(r: Record): Point {
    Point(Seconds(r), PowerValue(r))
  }

  /** The serie of one socket. */
  function SocketSerie(hostname: string, id: u16, power: Record): Serie {
    AddTag(AddPoint(ConsumptionSerie(hostname), PointOf(power)), "socket.id:" + NatToString(id as nat))
  }

  /** The serie of the domain at `index` of a socket. */
  function DomainSerie(hostname: string, id: u16, name: string, power: Record): Serie {
    AddTag(AddTag(AddPoint(ConsumptionSerie(hostname), PointOf(power)), "socket.id:" + NatToString(id as nat)),
           "socket.domain:" + name)
  }

  /** The domain series from `index` on: one per domain that has a name
      (the first three) and a power record, in order. */
  function DomainSeriesFrom(hostname: string, id: u16, powers: seq<Option<Record>>, index: nat): (r: seq<Serie>)
    requires index <= |powers|
    ensures |r| <= |powers| - index
    decreases |powers| - index
  {
    if index == |powers| then []
    else
      var rest := DomainSeriesFrom(hostname, id, powers, index + 1);
      match (GetDomainName(index), powers[index])
      case (Some(name), Some(power)) => [DomainSerie(hostname, id, name, power)] + rest
      case _ => rest
  }

  /** Every domain serie is the serie of a domain with a record among the
      first three, tagged with the name of its index. */
  lemma {:induction false} DomainSeriesNamed(hostname: string, id: u16, powers: seq<Option<Record>>, index: nat)
    requires index <= |powers|
    ensures forall s :: s in DomainSeriesFrom(hostname, id, powers, index) ==>
      exists i :: index <= i < |powers| && i < 3 && powers[i].Some?
        && s == DomainSerie(hostname, id, GetDomainName(i).value, powers[i].value)
    decreases |powers| - index
  {
    if index < |powers| {
      DomainSeriesNamed(hostname, id, powers, index + 1);
    }
  }

  /** Every domain among the first three that has a record gets its serie. */
  lemma {:induction false} DomainSeriesComplete(hostname: string, id: u16, powers: seq<Option<Record>>, index: nat, i: nat)
    requires index <= i < |powers| && i < 3 && powers[i].Some?
    ensures DomainSerie(hostname, id, GetDomainName(i).value, powers[i].value)
            in DomainSeriesFrom(hostname, id, powers, index)
    decreases |powers| - index
  {
    if index < i {
      DomainSeriesComplete(hostname, id, powers, index + 1, i);
    }
  }

  /** No domain past the third ever gets a serie. */
  lemma {:induction false} DomainSeriesPastThird(hostname: string, id: u16, powers: seq<Option<Record>>, index: nat)
    requires 3 <= index <= |powers|
    ensures DomainSeriesFrom(hostname, id, powers, index) == []
    decreases |powers| - index
  {
    if index < |powers| {
      DomainSeriesPastThird(hostname, id, powers, index + 1);
    }
  }

  /** The series of one socket: none without a socket power record, else the
      socket serie followed by its domain series. */
  function SocketSeries(hostname: string, socket: SocketPower): (r: seq<Serie>)
    ensures socket.power.None? ==> r == []
    ensures socket.power.Some? ==> |r| >= 1 && r[0] == SocketSerie(hostname, socket.id, socket.power.value)
  {
    match socket.power
    case None => []
    case Some(power) => [SocketSerie(hostname, socket.id, power)] + DomainSeriesFrom(hostname, socket.id, socket.domainPowers, 0)
  }

  /** The fold of `collect_socket_series`: each item's series pushed after
      those of the items before it. */
  function FoldSeries<T>(series: T -> seq<Serie>, items: seq<T>): seq<Serie> {
    if |items| == 0 then []
    else FoldSeries(series, items[..|items| - 1]) + series(items[|items| - 1])
  }

  /** The series of consecutive groups of items are consecutive. */
  lemma {:induction false} FoldSeriesAppend<T>(series: T -> seq<Serie>, a: seq<T>, b: seq<T>)
    ensures FoldSeries(series, a + b) == FoldSeries(series, a) + FoldSeries(series, b)
    decreases |b|
  {
    if |b| == 0 {
      assert a + b == a;
    } else {
      var init := b[..|b| - 1];
      assert (a + b)[..|a + b| - 1] == a + init;
      assert (a + b)[|a + b| - 1] == b[|b| - 1];
      FoldSeriesAppend(series, a, init);
    }
  }

  /** `collect_socket_series`: the series of every socket, socket by
      socket. */
  function CollectSocketSeries(hostname: string, sockets: seq<SocketPower>): seq<Serie> {
    FoldSeries(socket => SocketSeries(hostname, socket), sockets)
  }

  /** Every serie shipped for the sockets is a one-point "consumption" gauge
      of the host whose first tag names the host. */
  lemma {:induction false} CollectSocketSeriesShape(hostname: string, sockets: seq<SocketPower>)
    ensures forall s :: s in CollectSocketSeries(hostname, sockets) ==>
      && s.metric == "consumption" && s.dtype == Gauge && s.host == Some(hostname)
      && |s.points| == 1 && |s.tags| >= 2 && s.tags[0] == "hostname:" + hostname
  {
    if |sockets| > 0 {
      var socket := sockets[|sockets| - 1];
      CollectSocketSeriesShape(hostname, sockets[..|sockets| - 1]);
      DomainSeriesNamed(hostname, socket.id, socket.domainPowers, 0);
    }
  }

  /** A socket without a power record contributes nothing, even when its
      domains have records. */
  lemma CollectSocketSeriesSkips(hostname: string, before: seq<SocketPower>, socket: SocketPower, after: seq<SocketPower>)
    requires socket.power.None?
    ensures CollectSocketSeries(hostname, before + [socket] + after)
            == CollectSocketSeries(hostname, before) + CollectSocketSeries(hostname, after)
  {
    var series := socket => SocketSeries(hostname, socket);
    FoldSeriesAppend(series, before + [socket], after);
    FoldSeriesAppend(series, before, [socket]);
    FoldSeriesSilent(series, socket);
    DropEmptyMiddle(FoldSeries(series, before), FoldSeries(series, [socket]), FoldSeries(series, after));
  }

  /** An item without series adds nothing. */
  lemma FoldSeriesSilent<T>(series: T -> seq<Serie>, item: T)
    requires series(item) == []
    ensures FoldSeries(series, [item]) == []
  {
    assert [item][..0] == [];
  }

  lemma DropEmptyMiddle(a: seq<Serie>, b: seq<Serie>, c: seq<Serie>)
    requires b == []
    ensures a + b + c == a + c
  {
  }

  /** `collect_series`: the process series followed by the socket series. */
  function CollectSeries(processSeries: seq<Serie>, hostname: string, sockets: seq<SocketPower>): (r: seq<Serie>)
    ensures |r| == |processSeries| + |CollectSocketSeries(hostname, sockets)|
    ensures r[..|processSeries|] == processSeries
    ensures r[|processSeries|..] == CollectSocketSeries(hostname, sockets)
  {
    Merge(processSeries, CollectSocketSeries(hostname, sockets))
  }
}
