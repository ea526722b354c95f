/**
 * The baseline anomaly detector (analyzers/metrics_analyzer.py): five
 * bounded histories of samples, a mean-plus-k-deviations threshold per
 * history, and strict comparisons of the current sample against it.
 * Arithmetic is on `real`; the square root is a parameter satisfying
 * `SqrtSpec`.
 */
module MetricsAnalysis {
  import opened Wrappers

  /** The fields of a system-metrics sample that the analyzer reads. */
  datatype Metrics = Metrics(
    cpuUsagePercent: real,
    ramUsed: real,
    ramTotal: real,
    romUsed: real,
    romTotal: real,
    bytesReceived: real,
    bytesSent: real)

  datatype AnomalyKind = CpuUsage | RamUsage | DiskUsage | NetworkReceive | NetworkSend
  {
    /** The position of the kind in the order the checks run. */
    function Rank(): nat {
      match this
      case CpuUsage => 0
      case RamUsage => 1
      case DiskUsage => 2
      case NetworkReceive => 3
      case NetworkSend => 4
    }

    function Description(): string {
      match this
      case CpuUsage => "CPU usage is abnormally high"
      case RamUsage => "RAM usage is abnormally high"
      case DiskUsage => "Disk usage is abnormally high"
      case NetworkReceive => "Network receive traffic is abnormally high"
      case NetworkSend => "Network send traffic is abnormally high"
    }
  }

  datatype Anomaly = Anomaly(kind: AnomalyKind, current: real, baseline: real, threshold: real)

  /**
   * What `analyze` returns: the short dictionary of the cold start, or the
   * full one.
   */
  datatype MetricsReport =
    | NotEnoughHistory
    | Report(anomalies: seq<Anomaly>, hasAnomalies: bool, numAnomalies: nat, analysisTime: real)
  {
    function Anomalies(): seq<Anomaly> {
      if Report? then anomalies else []
    }

    predicate HasAnomalies() {
      Report? && hasAnomalies
    }
  }

  /** The five histories, oldest value first. */
  datatype Histories = Histories(cpu: seq<real>, ram: seq<real>, disk: seq<real>, recv: seq<real>, sent: seq<real>)

  /** Every history holds at most `cap` values. */
  predicate WithinCapacity(h: Histories, cap: nat) {
    |h.cpu| <= cap && |h.ram| <= cap && |h.disk| <= cap && |h.recv| <= cap && |h.sent| <= cap
  }

  predicate EqualLengths(h: Histories) {
    |h.cpu| == |h.ram| == |h.disk| == |h.recv| == |h.sent|
  }

  /**
   * What the histories look like even after an update that raised part
   * way: later histories are never longer than earlier ones, and the two
   * byte counters are appended together.
   */
  predicate Consistent(h: Histories) {
    |h.cpu| >= |h.ram| >= |h.disk| >= |h.recv| && |h.recv| == |h.sent|
  }

  /** A `deque(maxlen=cap)` after `append(v)`: the newest `cap` of the values followed by `v`. */
  function Bounded(h: seq<real>, v: real, cap: nat): (r: seq<real>)
    ensures |r| == if |h| + 1 <= cap then |h| + 1 else cap
    ensures cap > 0 ==> r[|r| - 1] == v
    ensures |h| < cap ==> r == h + [v]
  {
    var all := h + [v];
    if |all| <= cap then all else all[|all| - cap..]
  }

  /** The RAM and disk samples as percentages; `None` is the division by a zero total that raises. */
  function Percent(used: real, total: real): Option<real> {
    if total == 0.0 then None else Some(used / total * 100.0)
  }

  /**
   * `_update_history`: each history in turn gets one value. A zero RAM or
   * disk total raises at its own history, after the earlier ones were
   * appended; the flag says whether all five were.
   */
  function UpdatedHistories(h: Histories, m: Metrics, cap: nat): (r: (Histories, bool))
    ensures r.1 <==> m.ramTotal != 0.0 && m.romTotal != 0.0
    ensures r.0.cpu == Bounded(h.cpu, m.cpuUsagePercent, cap)
    ensures r.1 ==> r.0 == Histories(
      Bounded(h.cpu, m.cpuUsagePercent, cap),
      Bounded(h.ram, Percent(m.ramUsed, m.ramTotal).value, cap),
      Bounded(h.disk, Percent(m.romUsed, m.romTotal).value, cap),
      Bounded(h.recv, m.bytesReceived, cap),
      Bounded(h.sent, m.bytesSent, cap))
    ensures m.ramTotal == 0.0 ==> r.0 == h.(cpu := r.0.cpu)
    ensures m.ramTotal != 0.0 && m.romTotal == 0.0 ==>
      r.0 == h.(cpu := r.0.cpu, ram := Bounded(h.ram, Percent(m.ramUsed, m.ramTotal).value, cap))
  {
    var cpu := Bounded(h.cpu, m.cpuUsagePercent, cap);
    match Percent(m.ramUsed, m.ramTotal)
    case None => (h.(cpu := cpu), false)
    case Some(ram) =>
      match Percent(m.romUsed, m.romTotal)
      case None => (h.(cpu := cpu, ram := Bounded(h.ram, ram, cap)), false)
      case Some(disk) =>
        (Histories(cpu, Bounded(h.ram, ram, cap), Bounded(h.disk, disk, cap),
                   Bounded(h.recv, m.bytesReceived, cap), Bounded(h.sent, m.bytesSent, cap)), true)
  }

  // ---------------------------------------------------------------------
  // Baseline and threshold.
  // ---------------------------------------------------------------------

  /** The square root the threshold uses: zero at zero and never negative on non-negative input. */
  ghost predicate SqrtSpec(sqrt: real -> real) {
    sqrt(0.0) == 0.0 && forall x :: x >= 0.0 ==> sqrt(x) >= 0.0
  }

  function Sum(xs: seq<real>): real {
    if xs == [] then 0.0 else Sum(xs[..|xs| - 1]) + xs[|xs| - 1]
  }

  function SquaredDeviations(xs: seq<real>, mu: real): real {
    if xs == [] then 0.0
    else SquaredDeviations(xs[..|xs| - 1], mu) + (xs[|xs| - 1] - mu) * (xs[|xs| - 1] - mu)
  }

  function Mean(xs: seq<real>): real
    requires xs != []
  {
    Sum(xs) / |xs| as real
  }

  /** The population variance: the mean squared deviation from the mean. */
  function Variance(xs: seq<real>): real
    requires xs != []
  {
    SquaredDeviations(xs, Mean(xs)) / |xs| as real
  }

  /**
   * `_calculate_baseline_threshold`: the mean, and the mean plus `k`
   * standard deviations. With `k >= 0` the threshold is never below the baseline.
   */
  function BaselineThreshold(values: seq<real>, k: real, sqrt: real -> real): (r: (real, real))
    requires values != []
    requires SqrtSpec(sqrt)
    ensures r.0 == Mean(values)
    ensures r.1 - r.0 == sqrt(Variance(values)) * k
    ensures k >= 0.0 ==> r.1 >= r.0
  {
    var baseline := Mean(values);
    VarianceNonNegative(values);
    var stdDev := sqrt(Variance(values));
    (baseline, baseline + stdDev * k)
  }

  // ---------------------------------------------------------------------
  // Evaluation.
  // ---------------------------------------------------------------------

  /** One comparison: an anomaly exactly when the current value is strictly above the threshold. */
  function Check(kind: AnomalyKind, current: real, stats: (real, real)): (r: seq<Anomaly>)
    ensures |r| <= 1
    ensures r != [] <==> current > stats.1
    ensures forall a :: a in r ==> a == Anomaly(kind, current, stats.0, stats.1)
  {
    if current > stats.1 then [Anomaly(kind, current, stats.0, stats.1)] else []
  }

  /** A counter delta: the increase since the previous sample, or zero when it did not increase. */
  function Delta(current: real, previous: real): (d: real)
    ensures d >= 0.0
    ensures current > previous ==> current == previous + d
    ensures current <= previous ==> d == 0.0
  {
    if current > previous then current - previous else 0.0
  }

  /** The preconditions every caller of `Evaluate` meets: the RAM and disk totals were non-zero and every history just received a value. */
  predicate Evaluable(h: Histories, m: Metrics) {
    && m.ramTotal != 0.0 && m.romTotal != 0.0
    && h.cpu != [] && h.ram != [] && h.disk != [] && h.recv != [] && |h.recv| == |h.sent|
  }

  /** The anomalies of `analyze` once there are at least five CPU samples, in the order of the checks. */
  function Anomalies(h: Histories, m: Metrics, k: real, sqrt: real -> real): (r: seq<Anomaly>)
    requires Evaluable(h, m) && SqrtSpec(sqrt)
  {
    var cpu := Check(CpuUsage, m.cpuUsagePercent, BaselineThreshold(h.cpu, k, sqrt));
    var ram := Check(RamUsage, Percent(m.ramUsed, m.ramTotal).value, BaselineThreshold(h.ram, k, sqrt));
    var disk := Check(DiskUsage, Percent(m.romUsed, m.romTotal).value, BaselineThreshold(h.disk, k, sqrt));
    var net :=
      if |h.recv| > 1 then
        Check(NetworkReceive, Delta(m.bytesReceived, h.recv[|h.recv| - 2]), BaselineThreshold(h.recv, k, sqrt))
        + Check(NetworkSend, Delta(m.bytesSent, h.sent[|h.sent| - 2]), BaselineThreshold(h.sent, k, sqrt))
      else [];
    cpu + ram + disk + net
  }

  /** The analysis of an updated history: the cold start below five CPU samples, the full report otherwise. */
  function Evaluate(h: Histories, m: Metrics, k: real, sqrt: real -> real, now: real): (r: MetricsReport)
    requires |h.cpu| >= 5 ==> Evaluable(h, m)
    requires SqrtSpec(sqrt)
    ensures r.NotEnoughHistory? <==> |h.cpu| < 5
    ensures r.Report? ==> r.anomalies == Anomalies(h, m, k, sqrt) && r.analysisTime == now
    ensures r.Report? ==> (r.hasAnomalies <==> r.anomalies != []) && r.numAnomalies == |r.anomalies|
  {
    if |h.cpu| < 5 then NotEnoughHistory
    else
      var anomalies := Anomalies(h, m, k, sqrt);
      Report(anomalies, |anomalies| > 0, |anomalies|, now)
  }

  // ---------------------------------------------------------------------
  // The analyzer object.
  // ---------------------------------------------------------------------

  class MetricsAnalyzer {
    const historySize: nat
    const thresholdMultiplier: real
    const sqrt: real -> real
    var cpuHistory: seq<real>
    var ramHistory: seq<real>
    var diskHistory: seq<real>
    var networkRecvHistory: seq<real>
    var networkSentHistory: seq<real>
    var lastAnalysisTime: real

    function History(): Histories
      reads this
    {
      Histories(cpuHistory, ramHistory, diskHistory, networkRecvHistory, networkSentHistory)
    }

    ghost predicate Valid()
      reads this
    {
      SqrtSpec(sqrt) && WithinCapacity(History(), historySize) && Consistent(History())
    }

    /** The defaults are a history of 30 samples and a multiplier of 2.0. */
    constructor (historySize: nat, thresholdMultiplier: real, sqrt: real -> real)
      requires SqrtSpec(sqrt)
      ensures Valid()
      ensures this.historySize == historySize && this.thresholdMultiplier == thresholdMultiplier && this.sqrt == sqrt
      ensures History() == Histories([], [], [], [], []) && lastAnalysisTime == 0.0
    {
      this.historySize := historySize;
      this.thresholdMultiplier := thresholdMultiplier;
      this.sqrt := sqrt;
      cpuHistory := [];
      ramHistory := [];
      diskHistory := [];
      networkRecvHistory := [];
      networkSentHistory := [];
      lastAnalysisTime := 0.0;
    }

    /**
     * `analyze`: update the histories, then evaluate. `Err` is the division
     * by zero raised inside the update, which leaves the histories partly
     * appended.
     */
    method Analyze(m: Metrics, now: real) returns (result: Result<MetricsReport, string>)
      requires Valid()
      modifies this
      ensures Valid()
      ensures History() == UpdatedHistories(old(History()), m, historySize).0
      ensures result.Err? <==> !UpdatedHistories(old(History()), m, historySize).1
      ensures result.Ok? ==> result.value == Evaluate(History(), m, thresholdMultiplier, sqrt, now)
      ensures result.Ok? && result.value.Report? ==> lastAnalysisTime == now
      ensures !(result.Ok? && result.value.Report?) ==> lastAnalysisTime == old(lastAnalysisTime)
    {
      var ok := UpdateHistory(m);
      if !ok {
        return Err("division by zero");
      }
      if |cpuHistory| < 5 {
        return Ok(NotEnoughHistory);
      }
      var anomalies := DetectAnomalies(m);
      lastAnalysisTime := now;
      result := Ok(Report(anomalies, |anomalies| > 0, |anomalies|, lastAnalysisTime));
    }

    /** The comparisons of `analyze`, appended in order. */
    method DetectAnomalies(m: Metrics) returns (anomalies: seq<Anomaly>)
      requires Valid() && Evaluable(History(), m)
      ensures anomalies == Anomalies(History(), m, thresholdMultiplier, sqrt)
    {
      var cpu := BaselineThreshold(cpuHistory, thresholdMultiplier, sqrt);
      var ram := BaselineThreshold(ramHistory, thresholdMultiplier, sqrt);
      var disk := BaselineThreshold(diskHistory, thresholdMultiplier, sqrt);
      var recv := BaselineThreshold(networkRecvHistory, thresholdMultiplier, sqrt);
      var sent := BaselineThreshold(networkSentHistory, thresholdMultiplier, sqrt);
      anomalies := AppendIfAbove([], CpuUsage, m.cpuUsagePercent, cpu);
      anomalies := AppendIfAbove(anomalies, RamUsage, Percent(m.ramUsed, m.ramTotal).value, ram);
      anomalies := AppendIfAbove(anomalies, DiskUsage, Percent(m.romUsed, m.romTotal).value, disk);
      if |networkRecvHistory| > 1 {
        ghost var upToDisk := anomalies;
        var recvDelta := Delta(m.bytesReceived, networkRecvHistory[|networkRecvHistory| - 2]);
        anomalies := AppendIfAbove(anomalies, NetworkReceive, recvDelta, recv);
        var sentDelta := Delta(m.bytesSent, networkSentHistory[|networkSentHistory| - 2]);
        anomalies := AppendIfAbove(anomalies, NetworkSend, sentDelta, sent);
        AppendAssoc(upToDisk, Check(NetworkReceive, recvDelta, recv), Check(NetworkSend, sentDelta, sent));
      }
    }

    /** `_update_history`; the flag is false when a zero total raised part way. */
    method UpdateHistory(m: Metrics) returns (ok: bool)
      requires Valid()
      modifies this
      ensures Valid()
      ensures (History(), ok) == UpdatedHistories(old(History()), m, historySize)
      ensures ok && historySize > 0 ==> Evaluable(History(), m)
      ensures lastAnalysisTime == old(lastAnalysisTime)
    {
      cpuHistory := Bounded(cpuHistory, m.cpuUsagePercent, historySize);
      if m.ramTotal == 0.0 {
        return false;
      }
      ramHistory := Bounded(ramHistory, Percent(m.ramUsed, m.ramTotal).value, historySize);
      if m.romTotal == 0.0 {
        return false;
      }
      diskHistory := Bounded(diskHistory, Percent(m.romUsed, m.romTotal).value, historySize);
      networkRecvHistory := Bounded(networkRecvHistory, m.bytesReceived, historySize);
      networkSentHistory := Bounded(networkSentHistory, m.bytesSent, historySize);
      ok := true;
    }
  }

  /** One `if current > threshold: anomalies.append(...)` of `analyze`. */
  method AppendIfAbove(anomalies0: seq<Anomaly>, kind: AnomalyKind, current: real, stats: (real, real))
    returns (anomalies: seq<Anomaly>)
    ensures anomalies == anomalies0 + Check(kind, current, stats)
  {
    anomalies := anomalies0;
    if current > stats.1 {
      anomalies := anomalies + [Anomaly(kind, current, stats.0, stats.1)];
    }
  }

  lemma AppendAssoc(a: seq<Anomaly>, b: seq<Anomaly>, c: seq<Anomaly>)
    ensures (a + b) + c == a + (b + c)
  {
  }

  // ---------------------------------------------------------------------
  // Properties.
  // ---------------------------------------------------------------------

  /** A complete update appends one value to each history, so histories of equal length stay equal and within capacity. */
  lemma UpdateKeepsHistoriesAligned(h: Histories, m: Metrics, cap: nat)
    requires EqualLengths(h) && WithinCapacity(h, cap)
    requires m.ramTotal != 0.0 && m.romTotal != 0.0
    ensures EqualLengths(UpdatedHistories(h, m, cap).0)
    ensures WithinCapacity(UpdatedHistories(h, m, cap).0, cap)
  {
  }

  /** The deque keeps the newest values: its contents are a suffix of the old contents followed by the new value. */
  lemma BoundedKeepsNewest(h: seq<real>, v: real, cap: nat)
    ensures Bounded(h, v, cap) == (h + [v])[|h| + 1 - |Bounded(h, v, cap)|..]
  {
  }

  /** A history that is full drops exactly its oldest value. */
  lemma FullHistoryDropsOldest(h: seq<real>, v: real, cap: nat)
    requires |h| == cap > 0
    ensures Bounded(h, v, cap) == h[1..] + [v]
  {
  }

  lemma {:induction false} SquaredDeviationsNonNegative(xs: seq<real>, mu: real)
    ensures SquaredDeviations(xs, mu) >= 0.0
  {
    if xs != [] {
      SquaredDeviationsNonNegative(xs[..|xs| - 1], mu);
      SquareNonNegative(xs[|xs| - 1] - mu);
    }
  }

  lemma SquareNonNegative(d: real)
    ensures d * d >= 0.0
  {
    if d < 0.0 {
      assert d * d == (-d) * (-d);
    }
  }

  lemma VarianceNonNegative(xs: seq<real>)
    requires xs != []
    ensures Variance(xs) >= 0.0
  {
    SquaredDeviationsNonNegative(xs, Mean(xs));
  }

  /** `n` copies of `c` sum to `n * c`. */
  lemma {:induction false} SumOfConstant(xs: seq<real>, c: real)
    requires forall i :: 0 <= i < |xs| ==> xs[i] == c
    ensures Sum(xs) == |xs| as real * c
  {
    if xs != [] {
      SumOfConstant(xs[..|xs| - 1], c);
    }
  }

  /** Values equal to the mean deviate by nothing. */
  lemma {:induction false} DeviationsOfConstant(xs: seq<real>, c: real)
    requires forall i :: 0 <= i < |xs| ==> xs[i] == c
    ensures SquaredDeviations(xs, c) == 0.0
  {
    if xs != [] {
      DeviationsOfConstant(xs[..|xs| - 1], c);
    }
  }

  /** A sum of values that are all at least `c` is at least `n * c`. */
  lemma {:induction false} SumAtLeast(xs: seq<real>, c: real)
    requires forall i :: 0 <= i < |xs| ==> xs[i] >= c
    ensures Sum(xs) >= |xs| as real * c
  {
    if xs != [] {
      SumAtLeast(xs[..|xs| - 1], c);
    }
  }

  /** For an all-equal history the threshold is the baseline is the common value, whatever the multiplier. */
  lemma FlatHistoryThreshold(values: seq<real>, k: real, sqrt: real -> real)
    requires values != [] && SqrtSpec(sqrt)
    requires forall i :: 0 <= i < |values| ==> values[i] == values[0]
    ensures BaselineThreshold(values, k, sqrt) == (values[0], values[0])
  {
    var n := |values| as real;
    SumOfConstant(values, values[0]);
    assert Mean(values) == n * values[0] / n;
    assert Mean(values) == values[0];
    DeviationsOfConstant(values, values[0]);
    assert Variance(values) == 0.0;
  }

  /** Hence, since the comparison is strict, a sample equal to a flat baseline is never an anomaly. */
  lemma FlatBaselineNeverTriggers(kind: AnomalyKind, values: seq<real>, k: real, sqrt: real -> real)
    requires values != [] && SqrtSpec(sqrt)
    requires forall i :: 0 <= i < |values| ==> values[i] == values[0]
    ensures Check(kind, values[0], BaselineThreshold(values, k, sqrt)) == []
  {
    FlatHistoryThreshold(values, k, sqrt);
  }

  /**
   * The byte histories hold cumulative counters, not deltas, so the
   * baseline of the network checks is the mean counter: with `k >= 0`, a
   * delta no larger than every counter in the history is never reported.
   */
  lemma DeltaBelowCountersNeverTriggers(kind: AnomalyKind, delta: real, counters: seq<real>, k: real, sqrt: real -> real)
    requires counters != [] && SqrtSpec(sqrt) && k >= 0.0
    requires forall i :: 0 <= i < |counters| ==> counters[i] >= delta
    ensures Check(kind, delta, BaselineThreshold(counters, k, sqrt)) == []
  {
    var n := |counters| as real;
    SumAtLeast(counters, delta);
    assert Sum(counters) / n >= n * delta / n;
  }

  /**
   * The anomalies come in the fixed order cpu, ram, disk, receive, send,
   * each at most once and only when strictly above its threshold; the two
   * network checks only run with at least two byte samples.
   */
  lemma AnomaliesInFixedOrder(h: Histories, m: Metrics, k: real, sqrt: real -> real)
    requires Evaluable(h, m) && SqrtSpec(sqrt)
    ensures |Anomalies(h, m, k, sqrt)| <= 5
    ensures forall a :: a in Anomalies(h, m, k, sqrt) ==> a.current > a.threshold
    ensures forall i, j :: 0 <= i < j < |Anomalies(h, m, k, sqrt)| ==>
      Anomalies(h, m, k, sqrt)[i].kind.Rank() < Anomalies(h, m, k, sqrt)[j].kind.Rank()
    ensures |h.recv| <= 1 ==> forall a :: a in Anomalies(h, m, k, sqrt) ==> a.kind.Rank() < 3
  {
    ChecksBounded(
      m.cpuUsagePercent, BaselineThreshold(h.cpu, k, sqrt),
      Percent(m.ramUsed, m.ramTotal).value, BaselineThreshold(h.ram, k, sqrt),
      Percent(m.romUsed, m.romTotal).value, BaselineThreshold(h.disk, k, sqrt),
      |h.recv| > 1,
      if |h.recv| > 1 then Delta(m.bytesReceived, h.recv[|h.recv| - 2]) else 0.0, BaselineThreshold(h.recv, k, sqrt),
      if |h.recv| > 1 then Delta(m.bytesSent, h.sent[|h.sent| - 2]) else 0.0, BaselineThreshold(h.sent, k, sqrt));
    ChecksInOrder(
      m.cpuUsagePercent, BaselineThreshold(h.cpu, k, sqrt),
      Percent(m.ramUsed, m.ramTotal).value, BaselineThreshold(h.ram, k, sqrt),
      Percent(m.romUsed, m.romTotal).value, BaselineThreshold(h.disk, k, sqrt),
      |h.recv| > 1,
      if |h.recv| > 1 then Delta(m.bytesReceived, h.recv[|h.recv| - 2]) else 0.0, BaselineThreshold(h.recv, k, sqrt),
      if |h.recv| > 1 then Delta(m.bytesSent, h.sent[|h.sent| - 2]) else 0.0, BaselineThreshold(h.sent, k, sqrt));
  }

  /** The five comparisons of `analyze`, whatever the values and thresholds: at most five anomalies, each above its threshold. */
  lemma ChecksBounded(cpu: real, cpuStats: (real, real), ram: real, ramStats: (real, real), disk: real, diskStats: (real, real),
                      withNet: bool, recv: real, recvStats: (real, real), sent: real, sentStats: (real, real))
    ensures var r := Check(CpuUsage, cpu, cpuStats) + Check(RamUsage, ram, ramStats) + Check(DiskUsage, disk, diskStats)
      + (if withNet then Check(NetworkReceive, recv, recvStats) + Check(NetworkSend, sent, sentStats) else []);
      && |r| <= 5
      && (forall a :: a in r ==> a.current > a.threshold)
      && (!withNet ==> forall a :: a in r ==> a.kind.Rank() < 3)
  {
  }

  /** The five comparisons of `analyze`, whatever the values and thresholds, list kinds in rank order. */
  lemma ChecksInOrder(cpu: real, cpuStats: (real, real), ram: real, ramStats: (real, real), disk: real, diskStats: (real, real),
                      withNet: bool, recv: real, recvStats: (real, real), sent: real, sentStats: (real, real))
    ensures var r := Check(CpuUsage, cpu, cpuStats) + Check(RamUsage, ram, ramStats) + Check(DiskUsage, disk, diskStats)
      + (if withNet then Check(NetworkReceive, recv, recvStats) + Check(NetworkSend, sent, sentStats) else []);
      forall i, j :: 0 <= i < j < |r| ==> r[i].kind.Rank() < r[j].kind.Rank()
  {
  }

  /** Which kinds are reported: each exactly when its value is strictly above its own threshold. */
  lemma AnomalyReportedIff(h: Histories, m: Metrics, k: real, sqrt: real -> real)
    requires Evaluable(h, m) && SqrtSpec(sqrt)
    ensures Reported(Anomalies(h, m, k, sqrt), CpuUsage) <==> m.cpuUsagePercent > BaselineThreshold(h.cpu, k, sqrt).1
    ensures Reported(Anomalies(h, m, k, sqrt), RamUsage) <==> Percent(m.ramUsed, m.ramTotal).value > BaselineThreshold(h.ram, k, sqrt).1
    ensures Reported(Anomalies(h, m, k, sqrt), DiskUsage) <==> Percent(m.romUsed, m.romTotal).value > BaselineThreshold(h.disk, k, sqrt).1
    ensures Reported(Anomalies(h, m, k, sqrt), NetworkReceive) <==>
      |h.recv| > 1 && Delta(m.bytesReceived, h.recv[|h.recv| - 2]) > BaselineThreshold(h.recv, k, sqrt).1
    ensures Reported(Anomalies(h, m, k, sqrt), NetworkSend) <==>
      |h.sent| > 1 && Delta(m.bytesSent, h.sent[|h.sent| - 2]) > BaselineThreshold(h.sent, k, sqrt).1
  {
    var cpu := Check(CpuUsage, m.cpuUsagePercent, BaselineThreshold(h.cpu, k, sqrt));
    var ram := Check(RamUsage, Percent(m.ramUsed, m.ramTotal).value, BaselineThreshold(h.ram, k, sqrt));
    var disk := Check(DiskUsage, Percent(m.romUsed, m.romTotal).value, BaselineThreshold(h.disk, k, sqrt));
    var net :=
      if |h.recv| > 1 then
        Check(NetworkReceive, Delta(m.bytesReceived, h.recv[|h.recv| - 2]), BaselineThreshold(h.recv, k, sqrt))
        + Check(NetworkSend, Delta(m.bytesSent, h.sent[|h.sent| - 2]), BaselineThreshold(h.sent, k, sqrt))
      else [];
    assert Anomalies(h, m, k, sqrt) == cpu + ram + disk + net;
    forall kind: AnomalyKind
      ensures Reported(Anomalies(h, m, k, sqrt), kind) <==>
        || (kind == CpuUsage && m.cpuUsagePercent > BaselineThreshold(h.cpu, k, sqrt).1)
        || (kind == RamUsage && Percent(m.ramUsed, m.ramTotal).value > BaselineThreshold(h.ram, k, sqrt).1)
        || (kind == DiskUsage && Percent(m.romUsed, m.romTotal).value > BaselineThreshold(h.disk, k, sqrt).1)
        || Reported(net, kind)
    {
      ReportedCheck(CpuUsage, m.cpuUsagePercent, BaselineThreshold(h.cpu, k, sqrt), kind);
      ReportedCheck(RamUsage, Percent(m.ramUsed, m.ramTotal).value, BaselineThreshold(h.ram, k, sqrt), kind);
      ReportedCheck(DiskUsage, Percent(m.romUsed, m.romTotal).value, BaselineThreshold(h.disk, k, sqrt), kind);
      ReportedConcat(cpu, ram, kind);
      ReportedConcat(cpu + ram, disk, kind);
      ReportedConcat(cpu + ram + disk, net, kind);
    }
    if |h.recv| > 1 {
      var recv := Check(NetworkReceive, Delta(m.bytesReceived, h.recv[|h.recv| - 2]), BaselineThreshold(h.recv, k, sqrt));
      var sent := Check(NetworkSend, Delta(m.bytesSent, h.sent[|h.sent| - 2]), BaselineThreshold(h.sent, k, sqrt));
      forall kind: AnomalyKind
        ensures Reported(net, kind) <==>
          || (kind == NetworkReceive && Delta(m.bytesReceived, h.recv[|h.recv| - 2]) > BaselineThreshold(h.recv, k, sqrt).1)
          || (kind == NetworkSend && Delta(m.bytesSent, h.sent[|h.sent| - 2]) > BaselineThreshold(h.sent, k, sqrt).1)
      {
        ReportedCheck(NetworkReceive, Delta(m.bytesReceived, h.recv[|h.recv| - 2]), BaselineThreshold(h.recv, k, sqrt), kind);
        ReportedCheck(NetworkSend, Delta(m.bytesSent, h.sent[|h.sent| - 2]), BaselineThreshold(h.sent, k, sqrt), kind);
        ReportedConcat(recv, sent, kind);
      }
    }
  }

  lemma ReportedConcat(a: seq<Anomaly>, b: seq<Anomaly>, kind: AnomalyKind)
    ensures Reported(a + b, kind) <==> Reported(a, kind) || Reported(b, kind)
  {
    if Reported(a + b, kind) {
      var i :| 0 <= i < |a + b| && (a + b)[i].kind == kind;
      if i >= |a| {
        assert b[i - |a|].kind == kind;
      }
    }
    if Reported(a, kind) {
      var i :| 0 <= i < |a| && a[i].kind == kind;
      assert (a + b)[i].kind == kind;
    }
    if Reported(b, kind) {
      var i :| 0 <= i < |b| && b[i].kind == kind;
      assert (a + b)[|a| + i].kind == kind;
    }
  }

  lemma ReportedCheck(checked: AnomalyKind, current: real, stats: (real, real), kind: AnomalyKind)
    ensures Reported(Check(checked, current, stats), kind) <==> checked == kind && current > stats.1
  {
    if checked == kind && current > stats.1 {
      assert Check(checked, current, stats)[0].kind == kind;
    }
  }

  predicate Reported(anomalies: seq<Anomaly>, kind: AnomalyKind) {
    exists i :: 0 <= i < |anomalies| && anomalies[i].kind == kind
  }

  /** Fewer than five CPU samples after the update means no anomalies and no report. */
  lemma ColdStartReportsNothing(h: Histories, m: Metrics, k: real, sqrt: real -> real, now: real)
    requires |h.cpu| < 5 && SqrtSpec(sqrt)
    ensures Evaluate(h, m, k, sqrt, now) == NotEnoughHistory
    ensures !Evaluate(h, m, k, sqrt, now).HasAnomalies()
  {
  }
}
