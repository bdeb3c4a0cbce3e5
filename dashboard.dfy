/** The dashboard page: three charts (CPU, RAM, network) that keep the last 30 sampled
    points, refreshed by a timer, and the server list filtered by the search query.
    The clock and the random draws of each tick are inputs; a value is kept in tenths,
    as `parseFloat(x.toFixed(1))` leaves it. */
module Dashboard {
  import opened Wrappers
  import opened Text
  import opened Seqs
  import opened Wire
  import Panel

  /** The number of points a chart keeps. */
  const Capacity := 30

  /** A chart point: the time label and the value in tenths. */
  datatype Point = Point(time: string, value: nat)

  /** The last `n` elements of `s` (all of `s` when it is shorter): `s.slice(-n)` for `n > 0`. */
  function LastN<T>(s: seq<T>, n: nat): (r: seq<T>)
    ensures |r| == if |s| < n then |s| else n
  {
    if |s| < n then s else s[|s| - n..]
  }

  /** One update of a chart: `[...prev.slice(-29), p]`. */
  function Window(prev: seq<Point>, p: Point): (r: seq<Point>)
    ensures |r| == (if |prev| < Capacity then |prev| + 1 else Capacity) && r[|r| - 1] == p
  {
    LastN(prev, Capacity - 1) + [p]
  }

  /** The window of the last 30 points moves by one: shifting it keeps the last 30 points
      of the longer history. */
  lemma WindowShifts(h: seq<Point>, p: Point)
    ensures Window(LastN(h, Capacity), p) == LastN(h + [p], Capacity)
  {
    var hp := h + [p];
    if |h| < Capacity {
      assert LastN(h, Capacity) == h && LastN(h, Capacity - 1) == h;
      assert LastN(hp, Capacity) == hp;
    } else {
      var w := h[|h| - Capacity..];
      assert LastN(h, Capacity) == w;
      assert LastN(w, Capacity - 1) == w[1..] == h[|h| - (Capacity - 1)..];
      assert LastN(hp, Capacity) == hp[|hp| - Capacity..] == h[|h| - (Capacity - 1)..] + [p];
    }
  }

  /** A chart fed the points of `h` one by one, starting empty. */
  function Series(h: seq<Point>): seq<Point>
    decreases |h|
  {
    if h == [] then [] else Window(Series(h[..|h| - 1]), h[|h| - 1])
  }

  /** Whatever was sampled, a chart shows exactly the last 30 points, oldest first. */
  lemma {:induction false} SeriesIsLast30(h: seq<Point>)
    ensures Series(h) == LastN(h, Capacity)
    decreases |h|
  {
    if h != [] {
      var front, last := h[..|h| - 1], h[|h| - 1];
      assert h == front + [last];
      SeriesIsLast30(front);
      WindowShifts(front, last);
      calc {
        Series(h);
        Window(Series(front), last);
        Window(LastN(front, Capacity), last);
        LastN(front + [last], Capacity);
      }
    }
  }

  /** `new Date().toLocaleTimeString().slice(0, 8)`. */
  function TimeLabel(clock: string): (t: string)
    ensures |t| == (if |clock| < 8 then |clock| else 8) && StartsWith(clock, t)
  {
    if |clock| <= 8 then clock else clock[..8]
  }

  /** The upper bound of each chart, in tenths: 100 %, 16 GB and 600 Kbps. */
  const CpuMax := 1000
  const RamMax := 160
  const NetMax := 6000

  predicate InRange(s: seq<Point>, max: nat) {
    forall i :: 0 <= i < |s| ==> s[i].value <= max
  }

  /** The three charts of the page, with the samples they were fed (ghost). */
  class MetricCharts {
    var cpuData: seq<Point>
    var ramData: seq<Point>
    var networkData: seq<Point>
    ghost var cpuHistory: seq<Point>
    ghost var ramHistory: seq<Point>
    ghost var networkHistory: seq<Point>

    /** Each chart is the last 30 points of its history; the three are fed together, so
        they have the same length and the same time labels; every value is in its range. */
    ghost predicate Valid()
      reads this
    {
      ChartsOf(cpuData, ramData, networkData, cpuHistory, ramHistory, networkHistory)
    }

    constructor ()
      ensures Valid() && cpuData == [] && ramData == [] && networkData == []
    {
      cpuData, ramData, networkData := [], [], [];
      cpuHistory, ramHistory, networkHistory := [], [], [];
    }

    /** One timer tick: the same label and one new value for each chart, each chart keeping
        its last 30 points. The draws are within the ranges the page draws them from. */
    method Tick(clock: string, cpu: nat, ram: nat, net: nat)
      requires Valid()
      requires cpu <= CpuMax && ram <= RamMax && net <= NetMax
      modifies this
      ensures Valid()
      ensures cpuData == Window(old(cpuData), Point(TimeLabel(clock), cpu))
      ensures ramData == Window(old(ramData), Point(TimeLabel(clock), ram))
      ensures networkData == Window(old(networkData), Point(TimeLabel(clock), net))
    {
      var time := TimeLabel(clock);
      var c, r, n := Point(time, cpu), Point(time, ram), Point(time, net);
      var cd, rd, nd := Window(cpuData, c), Window(ramData, r), Window(networkData, n);
      ghost var ch, rh, nh := cpuHistory + [c], ramHistory + [r], networkHistory + [n];
      TickKeepsCharts(cpuData, ramData, networkData, cpuHistory, ramHistory, networkHistory, c, r, n);
      cpuData, ramData, networkData := cd, rd, nd;
      cpuHistory, ramHistory, networkHistory := ch, rh, nh;
      assert cpuData == cd && ramData == rd && networkData == nd;
      assert cpuHistory == ch && ramHistory == rh && networkHistory == nh;
    }
  }

  /** Each chart is the last 30 points of its history; the three are fed together, so
      they have the same length and the same time labels; every value is in its range. */
  ghost predicate ChartsOf(cpu: seq<Point>, ram: seq<Point>, net: seq<Point>,
                           ch: seq<Point>, rh: seq<Point>, nh: seq<Point>) {
    && cpu == LastN(ch, Capacity) && ram == LastN(rh, Capacity) && net == LastN(nh, Capacity)
    && Aligned(ch, rh, nh)
    && InRange(ch, CpuMax) && InRange(rh, RamMax) && InRange(nh, NetMax)
  }

  /** One window step per chart, with a shared label and in-range values, keeps the charts
      the last 30 samples of their histories. */
  lemma TickKeepsCharts(cpu: seq<Point>, ram: seq<Point>, net: seq<Point>,
                        ch: seq<Point>, rh: seq<Point>, nh: seq<Point>, c: Point, r: Point, n: Point)
    requires ChartsOf(cpu, ram, net, ch, rh, nh)
    requires c.time == r.time == n.time && c.value <= CpuMax && r.value <= RamMax && n.value <= NetMax
    ensures ChartsOf(Window(cpu, c), Window(ram, r), Window(net, n), ch + [c], rh + [r], nh + [n])
  {
    WindowShifts(ch, c);
    WindowShifts(rh, r);
    WindowShifts(nh, n);
    AlignedAppend(ch, rh, nh, c, r, n);
    Appended(ch, c, CpuMax);
    Appended(rh, r, RamMax);
    Appended(nh, n, NetMax);
  }

  /** Three series fed together: the same length and the same label at each position. */
  ghost predicate Aligned(a: seq<Point>, b: seq<Point>, c: seq<Point>) {
    && |a| == |b| == |c|
    && forall i :: 0 <= i < |a| ==> a[i].time == b[i].time == c[i].time
  }

  lemma AlignedAppend(a: seq<Point>, b: seq<Point>, c: seq<Point>, x: Point, y: Point, z: Point)
    requires Aligned(a, b, c) && x.time == y.time == z.time
    ensures Aligned(a + [x], b + [y], c + [z])
  {
  }

  lemma Appended(h: seq<Point>, p: Point, max: nat)
    requires InRange(h, max) && p.value <= max
    ensures InRange(h + [p], max)
  {
  }

  /** The three charts always line up: equal lengths, the same label at each position. */
  lemma ChartsAligned(charts: MetricCharts)
    requires charts.Valid()
    ensures |charts.cpuData| == |charts.ramData| == |charts.networkData| <= Capacity
    ensures forall i :: 0 <= i < |charts.cpuData| ==>
      charts.cpuData[i].time == charts.ramData[i].time == charts.networkData[i].time
  {
    var n := |charts.cpuHistory|;
    var k := n - |charts.cpuData|;
    forall i | 0 <= i < |charts.cpuData|
      ensures charts.cpuData[i].time == charts.ramData[i].time == charts.networkData[i].time
    {
      assert charts.cpuData[i] == charts.cpuHistory[k + i];
      assert charts.ramData[i] == charts.ramHistory[k + i];
      assert charts.networkData[i] == charts.networkHistory[k + i];
    }
  }

  // ---------------------------------------------------------------------------
  // Server list

  /** The dashboard's search: name, IP or a service, lower-cased, but not the state. */
  predicate Matches(srv: ServerView, query: string) {
    var texto := Lower(query);
    || Includes(Lower(srv.nombre), texto)
    || Includes(Lower(srv.ip), texto)
    || exists k :: 0 <= k < |srv.servicios| && Includes(Lower(srv.servicios[k]), texto)
  }

  /** `servidoresFiltrados`. */
  function Visible(servers: seq<ServerView>, query: string): seq<ServerView> {
    Filter(servers, (srv: ServerView) => Matches(srv, query))
  }

  /** The dashboard shows exactly the listed servers that match, in list order, and never a
      server the panel's search would hide. */
  lemma VisibleSpec(servers: seq<ServerView>, query: string)
    ensures forall srv :: srv in Visible(servers, query) <==> srv in servers && Matches(srv, query)
    ensures IsSubsequence(Visible(servers, query), servers)
    ensures IsSubsequence(Visible(servers, query), Panel.Visible(servers, query))
  {
    forall srv ensures srv in Visible(servers, query) <==> srv in servers && Matches(srv, query) {
      FilterMembers(servers, (srv: ServerView) => Matches(srv, query), srv);
    }
    FilterOrder(servers, (srv: ServerView) => Matches(srv, query));
    FilterWeaker(servers, (srv: ServerView) => Matches(srv, query), (srv: ServerView) => Panel.Matches(srv, query));
  }

  /** The empty query lists every server. */
  lemma EmptyQueryShowsAll(servers: seq<ServerView>)
    ensures Visible(servers, "") == servers
  {
    forall i | 0 <= i < |servers| ensures Matches(servers[i], "") {
      assert Lower("") == "";
      IncludesEmpty(Lower(servers[i].nombre));
    }
    FilterAll(servers, (srv: ServerView) => Matches(srv, ""));
  }

  /** The two searches differ: searching "offline" finds the real machine's offline record
      on the panel but not on the dashboard. */
  lemma StateIsNotSearched()
    ensures var srv := ServerView(LocalPc, "VPS Real", "127.0.0.1", Offline, [], "0%", "0 MB");
      Panel.Matches(srv, Offline) && !Matches(srv, Offline)
  {
    var srv := ServerView(LocalPc, "VPS Real", "127.0.0.1", Offline, [], "0%", "0 MB");
    assert Lower(Offline) == Offline;
    IncludesSuffix([], Offline);
    assert [] + Offline == Offline;
    IncludesNeedsFirstChar(Lower(srv.nombre), Offline);
    IncludesNeedsFirstChar(Lower(srv.ip), Offline);
  }

  /** The dashboard's search does not look at the state: changing it never changes whether
      a server is listed. */
  lemma StateIgnored(srv: ServerView, query: string, estado: string)
    ensures Matches(srv, query) == Matches(srv.(estado := estado), query)
  {
  }

  /** The page's server list: loaded once when the page opens, if there is a token. */
  class ServerList {
    var servidores: seq<ServerView>

    constructor ()
      ensures servidores == []
    {
      servidores := [];
    }

    /** A missing or empty token skips the request; a failed request leaves the list as it was. */
    method Load(token: Option<string>, fetched: Option<seq<ServerView>>) returns (requested: bool)
      modifies this
      ensures requested <==> token.Some? && token.value != ""
      ensures servidores == if requested && fetched.Some? then fetched.value else old(servidores)
    {
      requested := token.Some? && token.value != "";
      if requested && fetched.Some? {
        servidores := fetched.value;
      }
    }
  }
}
