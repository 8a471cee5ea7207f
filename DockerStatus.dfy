/**
 * The container tools: resource figures from one stats sample, the kept log
 * lines, the rows of the container listing, and how runtime errors are
 * reported. The runtime client is left out: what it returned (or raised) is
 * an input.
 */
module DockerStatus {
  import opened Wrappers
  import opened PyText

  // ----- runtime errors -----

  /** The runtime's exceptions: `NotFound`, and every other `DockerException`. */
  datatype DockerError = NotFound(message: string) | OtherDockerError(message: string)

  /** What the runtime calls of one tool came to. */
  datatype DockerResult<T> = Done(value: T) | Threw(error: DockerError)

  /**
   * A container tool's outcome: its report, the container-not-found message,
   * the generic runtime-error message, or an exception that is not a
   * `DockerException` and so escapes the tool.
   */
  datatype ToolOutcome<T> =
    | Reported(value: T)
    | ContainerNotFound(containerRef: string)
    | DockerFailure(message: string)
    | Escaped

  /** `except NotFound` before `except DockerException`: the not-found case is reported by the reference asked for. */
  function Classify<T>(containerRef: string, e: DockerError): (o: ToolOutcome<T>)
    ensures o.ContainerNotFound? <==> e.NotFound?
    ensures o.ContainerNotFound? ==> o.containerRef == containerRef
    ensures e.OtherDockerError? ==> o == DockerFailure(e.message)
  {
    match e
    case NotFound(_) => ContainerNotFound(containerRef)
    case OtherDockerError(message) => DockerFailure(message)
  }

  // ----- stats -----

  datatype CpuSample = CpuSample(totalUsage: int, systemCpuUsage: int)
  datatype NetworkIo = NetworkIo(rxBytes: int, txBytes: int)

  /**
   * One non-streamed stats sample: the current and previous CPU readings,
   * `online_cpus` when present, memory usage and limit, and the values of the
   * `networks` map (absent and empty alike).
   */
  datatype Stats = Stats(cpu: CpuSample, precpu: CpuSample, onlineCpus: Option<int>,
                         memoryUsage: int, memoryLimit: int, networks: seq<NetworkIo>)

  function CpuDelta(s: Stats): int { s.cpu.totalUsage - s.precpu.totalUsage }
  function SystemDelta(s: Stats): int { s.cpu.systemCpuUsage - s.precpu.systemCpuUsage }
  /** `online_cpus`, 1 when absent. */
  function CpuCount(s: Stats): (n: int)
    ensures s.onlineCpus.Some? ==> n == s.onlineCpus.value
    ensures s.onlineCpus.None? ==> n == 1
  {
    s.onlineCpus.GetOr(1)
  }

  lemma QuotientScaledNonNegative(a: real, b: real, c: real)
    requires a > 0.0 && b > 0.0 && c >= 0.0
    ensures (a / b) * c * 100.0 >= 0.0
  {
    assert a / b > 0.0;
  }

  /** The CPU percentage: the usage delta over the system delta, times the CPU count, as a percentage; 0 unless both deltas are positive. */
  function CpuPercent(s: Stats): (r: real)
    ensures CpuDelta(s) > 0 && SystemDelta(s) > 0 ==>
              r * SystemDelta(s) as real == CpuDelta(s) as real * CpuCount(s) as real * 100.0
    ensures CpuDelta(s) <= 0 || SystemDelta(s) <= 0 ==> r == 0.0
    ensures CpuCount(s) >= 0 ==> r >= 0.0
  {
    if SystemDelta(s) > 0 && CpuDelta(s) > 0 then
      var r := (CpuDelta(s) as real / SystemDelta(s) as real) * CpuCount(s) as real * 100.0;
      if CpuCount(s) >= 0 then
        QuotientScaledNonNegative(CpuDelta(s) as real, SystemDelta(s) as real, CpuCount(s) as real);
        r
      else r
    else 0.0
  }

  lemma FractionScaledAtMost(a: real, b: real, n: real)
    requires 0.0 < a <= b && n >= 0.0
    ensures (a / b) * n * 100.0 <= n * 100.0
  {
    var q := a / b;
    assert q <= 1.0;
    assert n - q * n == (1.0 - q) * n;
  }

  /** A container cannot use more than all its CPUs: the figure is at most 100 per CPU. */
  lemma CpuPercentAtMostAllCpus(s: Stats)
    requires CpuDelta(s) <= SystemDelta(s)
    requires CpuCount(s) >= 0
    ensures CpuPercent(s) <= CpuCount(s) as real * 100.0
  {
    if SystemDelta(s) > 0 && CpuDelta(s) > 0 {
      FractionScaledAtMost(CpuDelta(s) as real, SystemDelta(s) as real, CpuCount(s) as real);
    }
  }

  /** The memory percentage, usage over limit. The source has no guard, so the limit must not be 0. */
  function MemoryPercent(usage: int, limit: int): (r: real)
    requires limit != 0
    ensures r * limit as real == usage as real * 100.0
  {
    (usage as real / limit as real) * 100.0
  }

  /** Usage within the limit gives a percentage between 0 and 100. */
  lemma MemoryPercentInRange(usage: int, limit: int)
    requires 0 <= usage <= limit && limit != 0
    ensures 0.0 <= MemoryPercent(usage, limit) <= 100.0
  {
    var q := usage as real / limit as real;
    assert 0.0 <= q <= 1.0;
  }

  /** 104857600 bytes used of 209715200 is 50 percent. */
  lemma HalfMemory()
    ensures MemoryPercent(104857600, 209715200) == 50.0
  {
    assert 104857600 as real / 209715200 as real == 0.5;
  }

  /** `sum(n["rx_bytes"] for n in networks.values())`: never negative when no counter is. */
  function RxTotal(networks: seq<NetworkIo>): (t: int)
    ensures networks == [] ==> t == 0
    ensures (forall i :: 0 <= i < |networks| ==> networks[i].rxBytes >= 0) ==> t >= 0
    decreases |networks|
  {
    if networks == [] then 0
    else
      assert forall i :: 0 <= i < |networks[1..]| ==> networks[1..][i] == networks[i + 1];
      networks[0].rxBytes + RxTotal(networks[1..])
  }

  /** `sum(n["tx_bytes"] for n in networks.values())`: never negative when no counter is. */
  function TxTotal(networks: seq<NetworkIo>): (t: int)
    ensures networks == [] ==> t == 0
    ensures (forall i :: 0 <= i < |networks| ==> networks[i].txBytes >= 0) ==> t >= 0
    decreases |networks|
  {
    if networks == [] then 0
    else
      assert forall i :: 0 <= i < |networks[1..]| ==> networks[1..][i] == networks[i + 1];
      networks[0].txBytes + TxTotal(networks[1..])
  }

  /** The sums split over a concatenation, so they do not depend on how the entries are grouped. */
  lemma {:induction false} TotalsAppend(a: seq<NetworkIo>, b: seq<NetworkIo>)
    ensures RxTotal(a + b) == RxTotal(a) + RxTotal(b)
    ensures TxTotal(a + b) == TxTotal(a) + TxTotal(b)
    decreases |a|
  {
    if a == [] {
      assert a + b == b;
    } else {
      assert (a + b)[0] == a[0] && (a + b)[1..] == a[1..] + b;
      TotalsAppend(a[1..], b);
    }
  }

  /** Counters that are never negative sum to totals that are never negative and bound each entry. */
  lemma {:induction false} TotalsBoundEntries(networks: seq<NetworkIo>, k: nat)
    requires forall i :: 0 <= i < |networks| ==> networks[i].rxBytes >= 0 && networks[i].txBytes >= 0
    requires k < |networks|
    ensures 0 <= networks[k].rxBytes <= RxTotal(networks)
    ensures 0 <= networks[k].txBytes <= TxTotal(networks)
    decreases |networks|
  {
    assert forall i :: 0 <= i < |networks[1..]| ==> networks[1..][i] == networks[i + 1];
    if k > 0 {
      TotalsBoundEntries(networks[1..], k - 1);
    }
  }

  datatype NetworkTotals = NetworkTotals(rxBytes: int, txBytes: int)

  /** The network line: the received and sent sums, shown only when there is at least one network. */
  function NetworkLine(networks: seq<NetworkIo>): (r: Option<NetworkTotals>)
    ensures r.Some? <==> networks != []
    ensures r.Some? ==> r.value == NetworkTotals(RxTotal(networks), TxTotal(networks))
  {
    if networks == [] then None else Some(NetworkTotals(RxTotal(networks), TxTotal(networks)))
  }

  datatype StatsReport = StatsReport(shortId: string, name: string, cpuPercent: real,
                                     memoryUsage: int, memoryLimit: int, memoryPercent: real,
                                     network: Option<NetworkTotals>)

  /** What `containers.get` and `stats(stream=False)` gave: the container's short id and name, and the sample. */
  datatype StatsSample = StatsSample(shortId: string, name: string, stats: Stats)

  /**
   * `get_container_stats`. A zero memory limit makes the division raise
   * ZeroDivisionError, which the tool does not catch.
   */
  function ContainerStats(containerRef: string, fetched: DockerResult<StatsSample>): (o: ToolOutcome<StatsReport>)
    ensures fetched.Threw? ==> o == Classify(containerRef, fetched.error)
    ensures fetched.Done? && fetched.value.stats.memoryLimit == 0 ==> o == Escaped
    ensures o.Reported? ==>
              var s := fetched.value.stats;
              && fetched.Done? && s.memoryLimit != 0
              && o.value.shortId == fetched.value.shortId && o.value.name == fetched.value.name
              && o.value.memoryUsage == s.memoryUsage && o.value.memoryLimit == s.memoryLimit
              && o.value.cpuPercent == CpuPercent(s)
              && o.value.memoryPercent == MemoryPercent(s.memoryUsage, s.memoryLimit)
              && o.value.network == NetworkLine(s.networks)
    ensures fetched.Done? && fetched.value.stats.memoryLimit != 0 ==> o.Reported?
  {
    match fetched
    case Threw(e) => Classify(containerRef, e)
    case Done(sample) =>
      var s := sample.stats;
      if s.memoryLimit == 0 then Escaped
      else Reported(StatsReport(sample.shortId, sample.name, CpuPercent(s),
                                s.memoryUsage, s.memoryLimit, MemoryPercent(s.memoryUsage, s.memoryLimit),
                                NetworkLine(s.networks)))
  }

  // ----- logs -----

  /** The `tail` argument passed to the runtime: every line when reading from the tail, else the last `lines`. */
  datatype TailArgument = AllLines | LastLines(count: int)

  function LogsTail(lines: int, tail: bool): (t: TailArgument)
    ensures tail ==> t == AllLines
    ensures !tail ==> t == LastLines(lines)
  {
    if tail then AllLines else LastLines(lines)
  }

  /**
   * The log pieces kept: the text split on newlines, cut to its last `lines`
   * pieces (`log_lines[-lines:]`) when not reading from the tail and there are
   * more than `lines` pieces; otherwise every piece.
   */
  function KeptLines(text: string, lines: int, tail: bool): (r: seq<string>)
    ensures var pieces := Split(text, '\n');
            && |r| <= |pieces| && r == pieces[|pieces| - |r|..]
            && (tail || |pieces| <= lines ==> r == pieces)
            && (!tail && 0 < lines < |pieces| ==> |r| == lines)
  {
    var pieces := Split(text, '\n');
    if !tail && |pieces| > lines then SliceFrom(pieces, -lines) else pieces
  }

  /** When every piece is kept, the shown text is the runtime's text unchanged. */
  lemma KeptAllIsOriginal(text: string, lines: int, tail: bool)
    requires tail || |Split(text, '\n')| <= lines
    ensures Join("\n", KeptLines(text, lines, tail)) == text
  {
    JoinSplit(text, '\n');
  }

  /** `lines == 0` keeps every piece, because `log_lines[-0:]` is the whole list. */
  lemma ZeroLinesKeepsAll(text: string, tail: bool)
    ensures KeptLines(text, 0, tail) == Split(text, '\n')
  {
  }

  /** A negative `lines` drops that many pieces from the front instead. */
  lemma NegativeLinesDropFront(text: string, lines: int)
    requires lines < 0 && -lines <= |Split(text, '\n')|
    ensures KeptLines(text, lines, false) == Split(text, '\n')[-lines..]
  {
  }

  lemma {:induction false} JoinSnoc(sep: string, parts: seq<string>, last: string)
    requires |parts| >= 1
    ensures Join(sep, parts + [last]) == Join(sep, parts) + sep + last
    decreases |parts|
  {
    var ext := parts + [last];
    if |parts| == 1 {
      assert ext[1..] == [last];
    } else {
      var tail := parts[1..];
      assert ext[1..] == tail + [last];
      JoinSnoc(sep, tail, last);
      var head, joined := parts[0], Join(sep, tail);
      calc {
        Join(sep, ext);
        head + sep + Join(sep, tail + [last]);
        head + sep + (joined + sep + last);
        head + sep + joined + sep + last;
      }
    }
  }

  /**
   * `lines` newline-terminated lines split into `lines + 1` pieces, the last
   * one empty, so cutting to the last `lines` pieces drops the oldest line and
   * keeps the empty piece.
   */
  lemma TerminatedLinesLoseOldest(ls: seq<string>, lines: int)
    requires |ls| == lines && lines >= 1
    requires forall i :: 0 <= i < |ls| ==> '\n' !in ls[i]
    ensures KeptLines(Join("\n", ls) + "\n", lines, false) == ls[1..] + [""]
  {
    SplitTerminated(ls);
    var parts := ls + [""];
    assert parts[|parts| - lines..] == ls[1..] + [""];
  }

  /** Newline-terminated lines split into the lines followed by one empty piece. */
  lemma SplitTerminated(ls: seq<string>)
    requires |ls| >= 1
    requires forall i :: 0 <= i < |ls| ==> '\n' !in ls[i]
    ensures Split(Join("\n", ls) + "\n", '\n') == ls + [""]
  {
    var parts := ls + [""];
    JoinSnoc("\n", ls, "");
    assert Join("\n", parts) == Join("\n", ls) + "\n";
    forall i | 0 <= i < |parts| ensures '\n' !in parts[i] {
      if i < |ls| { assert parts[i] == ls[i]; }
    }
    SplitJoin(parts, '\n');
  }

  /** What `containers.get` and `logs(...)` gave: the container's name and the decoded log text. */
  datatype LogsSample = LogsSample(name: string, text: string)

  datatype LogsReport = LogsReport(name: string, lines: int, shown: string)

  /**
   * `get_container_logs(container, lines, tail)`. `fetch` stands for the runtime
   * call, given the tail argument the tool passes.
   */
  function ContainerLogs(containerRef: string, lines: int, tail: bool,
                         fetch: TailArgument -> DockerResult<LogsSample>): (o: ToolOutcome<LogsReport>)
    ensures fetch(LogsTail(lines, tail)).Threw? ==> o == Classify(containerRef, fetch(LogsTail(lines, tail)).error)
    ensures fetch(LogsTail(lines, tail)).Done? ==>
              var sample := fetch(LogsTail(lines, tail)).value;
              o == Reported(LogsReport(sample.name, lines, Join("\n", KeptLines(sample.text, lines, tail))))
  {
    match fetch(LogsTail(lines, tail))
    case Threw(e) => Classify(containerRef, e)
    case Done(sample) => Reported(LogsReport(sample.name, lines, Join("\n", KeptLines(sample.text, lines, tail))))
  }

  // ----- restart -----

  /** What `containers.get` and `restart(timeout=10)` gave: the restarted container's short id and name. */
  datatype Restarted = Restarted(shortId: string, name: string)

  /** `restart_container`. */
  function RestartContainer(containerRef: string, run: DockerResult<Restarted>): (o: ToolOutcome<Restarted>)
    ensures run.Done? ==> o == Reported(run.value)
    ensures run.Threw? ==> o == Classify(containerRef, run.error)
  {
    match run
    case Done(r) => Reported(r)
    case Threw(e) => Classify(containerRef, e)
  }

  /** Not-found is reported apart from every other runtime error, by stats, logs and restart alike. */
  lemma NotFoundReportedApart(containerRef: string, message: string, other: string,
                              sample: DockerResult<StatsSample>, lines: int, tail: bool)
    ensures ContainerStats(containerRef, Threw(NotFound(message))) == ContainerNotFound(containerRef)
    ensures ContainerStats(containerRef, Threw(OtherDockerError(other))) == DockerFailure(other)
    ensures ContainerLogs(containerRef, lines, tail, _ => Threw(NotFound(message))) == ContainerNotFound(containerRef)
    ensures ContainerLogs(containerRef, lines, tail, _ => Threw(OtherDockerError(other))) == DockerFailure(other)
    ensures RestartContainer(containerRef, Threw(NotFound(message))) == ContainerNotFound(containerRef)
    ensures RestartContainer(containerRef, Threw(OtherDockerError(other))) == DockerFailure(other)
  {
  }

  // ----- listing -----

  datatype ImageInfo = ImageInfo(tags: seq<string>, shortId: string)

  /** A listed container: short id, name, image, status and the keys of its port map. */
  datatype Container = Container(shortId: string, name: string, image: ImageInfo, status: string, ports: seq<string>)

  datatype Row = Row(id: string, name: string, image: string, status: string, ports: string)

  /** The row of one container: id cut to 12, name to 24, the first image tag or the image id cut to 28, ports or "-". */
  function RowOf(c: Container): (r: Row)
    ensures r.id == Prefix(c.shortId, 12) && |r.id| <= 12
    ensures r.name == Prefix(c.name, 24) && |r.name| <= 24
    ensures c.image.tags != [] ==> r.image == c.image.tags[0]
    ensures c.image.tags == [] ==> r.image == Prefix(c.image.shortId, 28) && |r.image| <= 28
    ensures r.status == c.status
    ensures c.ports == [] ==> r.ports == "-"
    ensures c.ports != [] ==> r.ports == Join(", ", c.ports)
  {
    Row(Prefix(c.shortId, 12), Prefix(c.name, 24),
        if c.image.tags != [] then c.image.tags[0] else Prefix(c.image.shortId, 28),
        c.status,
        if c.ports != [] then Join(", ", c.ports) else "-")
  }

  /** A prefix `p + q` of `s` holds `p` first and `q` right after it. */
  lemma PeelPrefix(s: string, p: string, q: string)
    requires |p| + |q| <= |s| && s[..|p| + |q|] == p + q
    ensures s[..|p|] == p
    ensures s[|p|..|p| + |q|] == q
  {
    assert forall i :: 0 <= i < |p| ==> s[i] == (p + q)[i];
    assert forall i :: |p| <= i < |p| + |q| ==> s[i] == (p + q)[i];
  }

  /** Five cells separated by single spaces and ended by a newline: where each cell sits. */
  lemma CellsAt(a: string, b: string, c: string, d: string, e: string)
    ensures var line := a + " " + b + " " + c + " " + d + " " + e + "\n";
            var kb := |a| + 1;
            var kc := kb + |b| + 1;
            var kd := kc + |c| + 1;
            && |line| == kd + |d| + |e| + 2
            && line[..|a|] == a && line[|a|] == ' '
            && line[kb..kb + |b|] == b && line[kb + |b|] == ' '
            && line[kc..kc + |c|] == c && line[kc + |c|] == ' '
            && line[kd..kd + |d|] == d && line[kd + |d|] == ' '
            && line[|line| - |e| - 1..] == e + "\n"
  {
    var l1 := a + " ";
    var l2 := l1 + b;
    var l3 := l2 + " ";
    var l4 := l3 + c;
    var l5 := l4 + " ";
    var l6 := l5 + d;
    var l7 := l6 + " ";
    var line := l7 + e + "\n";
    assert line[|line| - |e| - 1..] == e + "\n";
    PeelPrefix(line, l7 + e, "\n");
    PeelPrefix(line, l7, e);
    PeelPrefix(line, l6, " ");
    PeelPrefix(line, l5, d);
    PeelPrefix(line, l4, " ");
    PeelPrefix(line, l3, c);
    PeelPrefix(line, l2, " ");
    PeelPrefix(line, l1, b);
    PeelPrefix(line, a, " ");
  }

  /** `f"{id:<15} {name:<25} {image:<30} {status:<15} {ports}\n"`. */
  function RowLine(r: Row): (line: string)
    // a short enough id and name fill fixed-width columns at offsets 0 and 16
    ensures |r.id| <= 15 && |r.name| <= 25 ==>
              && |line| >= 42
              && line[..15] == PadRight(r.id, 15) && line[15] == ' '
              && line[16..41] == PadRight(r.name, 25) && line[41] == ' '
    // then the image column (a tag is never cut, so it may be wider than 30) and
    // the status column follow, each padded and followed by one space
    ensures |r.id| <= 15 && |r.name| <= 25 ==>
              var w := |PadRight(r.image, 30)|;
              var v := |PadRight(r.status, 15)|;
              && |line| == 45 + w + v + |r.ports|
              && line[42..42 + w] == PadRight(r.image, 30) && line[42 + w] == ' '
              && line[43 + w..43 + w + v] == PadRight(r.status, 15) && line[43 + w + v] == ' '
    // the line ends with the ports text and a newline
    ensures |line| >= |r.ports| + 1 && line[|line| - |r.ports| - 1..] == r.ports + "\n"
  {
    var id, name := PadRight(r.id, 15), PadRight(r.name, 25);
    var image, status := PadRight(r.image, 30), PadRight(r.status, 15);
    CellsAt(id, name, image, status, r.ports);
    id + " " + name + " " + image + " " + status + " " + r.ports + "\n"
  }

  /** A short enough id, name, image and status put every column at its fixed offset. */
  lemma RowLineFixedColumns(r: Row)
    requires |r.id| <= 15 && |r.name| <= 25 && |r.image| <= 30 && |r.status| <= 15
    ensures var line := RowLine(r);
            && |line| == 90 + |r.ports|
            && line[42..72] == PadRight(r.image, 30) && line[72] == ' '
            && line[73..88] == PadRight(r.status, 15) && line[88] == ' '
            && line[89..] == r.ports + "\n"
  {
  }

  /** Because id and name are cut, every row's id and name columns start at the same offsets, 0 and 16. */
  lemma RowColumns(c: Container)
    ensures var line := RowLine(RowOf(c));
            && |line| >= 42
            && line[..15] == PadRight(RowOf(c).id, 15) && line[15] == ' '
            && line[16..41] == PadRight(RowOf(c).name, 25) && line[41] == ' '
            && line[|line| - 1] == '\n'
  // an untagged image is cut too, so a short status then sits in its column at offset 73
  ensures c.image.tags == [] && |c.status| <= 15 ==>
            RowLine(RowOf(c))[73..88] == PadRight(c.status, 15)
  // whatever the image, the container's status follows its image column
  ensures var w := |PadRight(RowOf(c).image, 30)|;
          var v := |PadRight(c.status, 15)|;
          RowLine(RowOf(c))[43 + w..43 + w + v] == PadRight(c.status, 15)
  {
    var r := RowOf(c);
    assert |r.id| <= 15 && |r.name| <= 25 && r.status == c.status;
    if c.image.tags == [] && |c.status| <= 15 {
      RowLineFixedColumns(r);
    }
  }

  /** The listing's rows: one RowLine per container, in order. */
  function Lines(cs: seq<Container>): (rows: seq<string>)
    ensures |rows| == |cs|
    ensures forall i :: 0 <= i < |cs| ==> rows[i] == RowLine(RowOf(cs[i]))
    decreases |cs|
  {
    if cs == [] then []
    else
      var front := cs[..|cs| - 1];
      assert forall i :: 0 <= i < |front| ==> front[i] == cs[i];
      Lines(front) + [RowLine(RowOf(cs[|cs| - 1]))]
  }

  /** One more container adds its row at the end. */
  lemma LinesSnoc(cs: seq<Container>, k: nat)
    requires k < |cs|
    ensures Lines(cs[..k + 1]) == Lines(cs[..k]) + [RowLine(RowOf(cs[k]))]
  {
    assert cs[..k + 1][..k] == cs[..k];
  }

  /** The listing tool's result: the empty-list message, one line per container, or the connection-failure message. */
  datatype Listing = NoContainers | Table(rows: seq<string>) | ConnectionFailed(message: string)

  /**
   * `list_containers`: any runtime error, not-found included, is a connection
   * failure; no containers is the empty-list message; otherwise one line per
   * container, in order.
   */
  method ListContainers(listed: DockerResult<seq<Container>>) returns (r: Listing)
    ensures listed.Threw? ==> r == ConnectionFailed(listed.error.message)
    ensures listed.Done? && listed.value == [] ==> r == NoContainers
    ensures listed.Done? && listed.value != [] ==> r == Table(Lines(listed.value))
  {
    if listed.Threw? {
      return ConnectionFailed(listed.error.message);
    }
    var containers := listed.value;
    if containers == [] {
      return NoContainers;
    }
    var rows: seq<string> := [];
    for k := 0 to |containers|
      invariant rows == Lines(containers[..k])
    {
      LinesSnoc(containers, k);
      rows := rows + [RowLine(RowOf(containers[k]))];
    }
    assert containers[..|containers|] == containers;
    r := Table(rows);
  }
}
