/**
 * The V2 agent (agent.py of sec-spot): it connects, subscribes, starts the
 * collectors, samples metrics on an interval, and forwards what the
 * collectors and analyzers produce to the server.
 *
 * Every forwarding rule is a plan, the sequence of messages the source
 * tries to send in order; the methods attempt each planned send on the
 * WebSocket client, and what reaches the server is the planned messages
 * whose send succeeded. The collectors' threads and schedules are not
 * modelled: their callbacks are methods called with what they collected.
 */
module Orchestrator {
  import opened Wrappers
  import opened Transport
  import Config
  import Text
  import MA = MetricsAnalysis
  import SA = SecurityAnalysis
  import SC = SecurityCollection
  import LC = LogCollection
  import NT = NetworkTraffic

  /** The `data` of each message the agent sends. */
  datatype Payload =
    | ResourceMonitoring(metrics: seq<MA.Metrics>)
    | Traffic(packets: seq<NT.PacketRecord>)
    | SecurityReport(events: SC.SecurityEvents, analysis: SA.Analysis)
    | Logs(batch: LC.LogBatch)
    | AnomalyAlert(anomalies: seq<MA.Anomaly>, timestamp: string)
    | SecurityAlert(threats: seq<SA.Threat>, timestamp: string)
    | LogAlert(errors: seq<LC.LogEntry>, errorCount: nat, timestamp: string)

  /** One planned `send_message(event, data)`. */
  datatype Send = Send(event: string, data: Payload)

  /** The network collector hands over batches of this many packets. */
  const NetworkBatchSize: int := 50

  /** The positions of the successful attempts, in increasing order, every one of them. */
  function Succeeded(oks: seq<bool>): (idx: seq<nat>)
    ensures forall k :: 0 <= k < |idx| ==> idx[k] < |oks| && oks[idx[k]]
    ensures forall k, l :: 0 <= k < l < |idx| ==> idx[k] < idx[l]
    ensures forall i :: 0 <= i < |oks| && oks[i] ==> i in idx
  {
    if oks == [] then []
    else
      var front := Succeeded(oks[..|oks| - 1]);
      assert forall i :: 0 <= i < |oks| - 1 ==> oks[..|oks| - 1][i] == oks[i];
      front + (if oks[|oks| - 1] then [|oks| - 1] else [])
  }

  /** The planned sends whose attempt succeeded: the plan's entries at the successful positions, in order. */
  function Kept(plan: seq<Send>, oks: seq<bool>): (r: seq<Send>)
    requires |plan| == |oks|
    ensures |r| == |Succeeded(oks)| && |r| <= |plan|
    ensures forall k :: 0 <= k < |r| ==> r[k] == plan[Succeeded(oks)[k]]
  {
    if plan == [] then []
    else
      var front := Kept(plan[..|plan| - 1], oks[..|oks| - 1]);
      front + (if oks[|oks| - 1] then [plan[|plan| - 1]] else [])
  }

  lemma KeptSnoc(plan: seq<Send>, oks: seq<bool>, s: Send, ok: bool)
    requires |plan| == |oks|
    ensures Kept(plan + [s], oks + [ok]) == Kept(plan, oks) + (if ok then [s] else [])
  {
    assert (plan + [s])[..|plan|] == plan;
    assert (oks + [ok])[..|oks|] == oks;
  }

  /** The result a callback reports: true for an empty plan, else the result of the last attempt. */
  predicate LastOk(oks: seq<bool>) {
    oks == [] || oks[|oks| - 1]
  }

  /** `collect_and_analyze_metrics` once the sample was analysed: the metrics go first, the anomaly alert only when there are anomalies. */
  function MetricsPlan(m: MA.Metrics, report: MA.MetricsReport, timestamp: string): (plan: seq<Send>)
    ensures 1 <= |plan| <= 2 && plan[0] == Send("agent.resource-monitoring", ResourceMonitoring([m]))
    ensures |plan| == 2 <==> report.HasAnomalies()
    ensures |plan| == 2 ==> plan[1] == Send("agent.alert", AnomalyAlert(report.Anomalies(), timestamp))
  {
    [Send("agent.resource-monitoring", ResourceMonitoring([m]))]
      + (if report.HasAnomalies() then [Send("agent.alert", AnomalyAlert(report.Anomalies(), timestamp))] else [])
  }

  /** `on_network_data_collected`: nothing for an empty batch. */
  function NetworkPlan(packets: seq<NT.PacketRecord>): (plan: seq<Send>)
    ensures plan == [] <==> packets == []
    ensures plan != [] ==> plan == [Send("agent.network-traffic", Traffic(packets))]
  {
    if packets == [] then [] else [Send("agent.network-traffic", Traffic(packets))]
  }

  /** `on_security_events_collected` after the analysis: the events with their analysis, then an alert only when there are threats. */
  function SecurityPlan(events: SC.SecurityEvents, analysis: SA.Analysis, timestamp: string): (plan: seq<Send>)
    ensures 1 <= |plan| <= 2 && plan[0] == Send("agent.security-events", SecurityReport(events, analysis))
    ensures |plan| == 2 <==> analysis.hasThreats
    ensures |plan| == 2 ==> plan[1] == Send("agent.alert", SecurityAlert(analysis.threats, timestamp))
  {
    [Send("agent.security-events", SecurityReport(events, analysis))]
      + (if analysis.hasThreats then [Send("agent.alert", SecurityAlert(analysis.threats, timestamp))] else [])
  }

  /** The log alert: the first ten error entries and the number of all of them. */
  function LogAlertFor(entries: seq<LC.LogEntry>, timestamp: string): Payload {
    var errorEntries := LC.EntriesWith(entries, LC.Error);
    LogAlert(Text.Take(errorEntries, 10), |errorEntries|, timestamp)
  }

  /**
   * `on_logs_collected`: nothing without entries, nothing when there is
   * neither an error nor a warning and not every batch is to be sent;
   * otherwise the batch, then an alert when it holds errors.
   */
  function LogPlan(batch: Option<LC.LogBatch>, sendAllLogs: bool, timestamp: string): (plan: seq<Send>)
    ensures |plan| <= 2
  {
    if batch.None? || batch.value.entries == [] then []
    else if batch.value.hasErrors || batch.value.hasWarnings || sendAllLogs then
      [Send("agent.logs", Logs(batch.value))]
        + (if batch.value.hasErrors then [Send("agent.alert", LogAlertFor(batch.value.entries, timestamp))] else [])
    else []
  }

  /** The batch is sent exactly when it has entries and errors, warnings or the send-all setting; the alert follows exactly when it has errors. */
  lemma LogPlanShape(batch: Option<LC.LogBatch>, sendAllLogs: bool, timestamp: string)
    ensures var plan := LogPlan(batch, sendAllLogs, timestamp);
      && (plan != [] <==> batch.Some? && batch.value.entries != [] && (batch.value.hasErrors || batch.value.hasWarnings || sendAllLogs))
      && (plan != [] ==> plan[0] == Send("agent.logs", Logs(batch.value)))
      && (|plan| == 2 <==> plan != [] && batch.value.hasErrors)
  {
  }

  /**
   * For a batch built by the log collector, the alert lists, in order, the
   * first min(10, n) error entries and counts all n of them, n being the
   * batch's own error count.
   */
  lemma LogAlertContents(timestamp: string, entries: seq<LC.LogEntry>, alertTime: string)
    requires LC.Summarize(timestamp, entries).Some?
    ensures var b := LC.Summarize(timestamp, entries).value;
      var alert := LogAlertFor(b.entries, alertTime);
      && alert.errorCount == LC.CountOf(b.stats.bySeverity, LC.Error)
      && |alert.errors| == (if alert.errorCount < 10 then alert.errorCount else 10)
      && (forall e :: e in alert.errors ==> e in entries && e.severity == LC.Error)
      && alert.errors == LC.EntriesWith(entries, LC.Error)[..|alert.errors|]
  {
    LC.SeverityCountIsNumberOfEntries(entries, LC.Error);
    LC.TouchCounts(LC.StatsOf(entries).bySeverity, LC.Error);
    LC.TouchCounts(LC.Touch(LC.StatsOf(entries).bySeverity, LC.Error), LC.Warning);
    var errs := LC.EntriesWith(entries, LC.Error);
    var shown := Text.Take(errs, 10);
    forall e | e in shown
      ensures e in errs
    {
      var i :| 0 <= i < |shown| && shown[i] == e;
      assert errs[i] == e;
    }
  }

  /** Because the send-all setting is always on, every non-empty log batch is sent under loaded settings. */
  lemma EveryLogBatchIsSent(env: map<string, string>, hostname: string, platform: string, platformVersion: string,
                            batch: LC.LogBatch, timestamp: string)
    requires Config.LoadSettings(env, hostname, platform, platformVersion).Ok?
    requires batch.entries != []
    ensures var s := Config.LoadSettings(env, hostname, platform, platformVersion).value;
      LogPlan(Some(batch), Config.SendAllLogs(s), timestamp) != []
  {
    Config.SendAllLogsAlwaysOn(env, hostname, platform, platformVersion);
  }

  /** The readings of the main loop at which metrics are collected: each one at least the interval after the previous collection. */
  function DueTimes(readings: seq<real>, last: real, interval: int): seq<real> {
    if readings == [] then []
    else if readings[0] - last >= interval as real then [readings[0]] + DueTimes(readings[1..], readings[0], interval)
    else DueTimes(readings[1..], last, interval)
  }

  /** The last collection time after the readings. */
  function LastDue(readings: seq<real>, last: real, interval: int): real {
    if readings == [] then last
    else if readings[0] - last >= interval as real then LastDue(readings[1..], readings[0], interval)
    else LastDue(readings[1..], last, interval)
  }

  /** Collections are spaced by at least the interval, the first one counted from the previous collection time. */
  lemma {:induction false} DueTimesSpaced(readings: seq<real>, last: real, interval: int)
    ensures var d := DueTimes(readings, last, interval);
      && (d != [] ==> d[0] - last >= interval as real)
      && (forall j :: 0 < j < |d| ==> d[j] - d[j - 1] >= interval as real)
      && (forall j :: 0 <= j < |d| ==> d[j] in readings)
  {
    if readings != [] {
      var rest := readings[1..];
      if readings[0] - last >= interval as real {
        DueTimesSpaced(rest, readings[0], interval);
        var d := DueTimes(readings, last, interval);
        assert d[1..] == DueTimes(rest, readings[0], interval);
        forall j | 0 <= j < |d|
          ensures d[j] in readings
        {
          if j > 0 {
            assert d[j] == d[1..][j - 1];
            assert d[j] in rest;
          }
        }
      } else {
        DueTimesSpaced(rest, last, interval);
        var d := DueTimes(rest, last, interval);
        forall j | 0 <= j < |d|
          ensures d[j] in readings
        {
          assert d[j] in rest;
        }
      }
    }
  }

  class Agent {
    const settings: Config.Settings
    const ws: WebSocketClient<Payload>
    const metricsAnalyzer: MA.MetricsAnalyzer
    const securityAnalyzer: SA.SecurityAnalyzer
    /** The network collector, which hands its batches to `on_network_data_collected`; `verdict` stands for what that callback returns. */
    const networkCollector: NT.NetworkTrafficCollector

    var running: bool
    var shutdownRequested: bool
    /** The security and log collectors' threads have been started. */
    var collectorsRunning: bool
    var lastMetricsTime: real

    ghost predicate Valid()
      reads this, ws, metricsAnalyzer
    {
      ws.Valid() && metricsAnalyzer.Valid()
    }

    /** The messages of a plan as the client writes them. */
    function Wire(sends: seq<Send>): seq<Outbound<Payload>> {
      if sends == [] then []
      else Wire(sends[..|sends| - 1]) + [Message(sends[|sends| - 1].event, ws.serverId, ws.channel, ws.agentVersion, sends[|sends| - 1].data)]
    }

    /** `Agent()`: the client from the settings, the default analyzers, and no metrics collected yet. */
    constructor (settings: Config.Settings, network: nat -> bool, delivery: nat -> bool, sqrt: real -> real, verdict: nat -> bool, now: real)
      requires MA.SqrtSpec(sqrt)
      ensures Valid()
      ensures this.settings == settings
      ensures ws.uri == settings.reverbUri && ws.serverId == settings.serverId && ws.channel == settings.reverbChannel
      ensures ws.agentVersion == settings.agentVersion && ws.maxRetries == settings.retries
      ensures ws.sent == [] && !ws.connected
      ensures metricsAnalyzer.historySize == 30 && metricsAnalyzer.thresholdMultiplier == 2.0
      ensures securityAnalyzer.Limits() == SA.DefaultThresholds
      ensures networkCollector.maxPackets == NetworkBatchSize && networkCollector.hasCallback && networkCollector.verdict == verdict
      ensures networkCollector.packets == [] && networkCollector.handedOver == []
      ensures !running && !shutdownRequested && !collectorsRunning && lastMetricsTime == 0.0
    {
      this.settings := settings;
      ws := new WebSocketClient(settings.reverbUri, settings.serverId, settings.reverbChannel, settings.agentVersion, settings.retries,
                                settings.hostname, settings.platform, settings.platformVersion, network, delivery);
      metricsAnalyzer := new MA.MetricsAnalyzer(30, 2.0, sqrt);
      securityAnalyzer := new SA.SecurityAnalyzer(SA.DefaultThresholds.ip, SA.DefaultThresholds.auth, SA.DefaultThresholds.scan, now);
      networkCollector := new NT.NetworkTrafficCollector(true, verdict, NetworkBatchSize);
      running := false;
      shutdownRequested := false;
      collectorsRunning := false;
      lastMetricsTime := 0.0;
    }

    /**
     * `start`: give up, sending nothing and starting nothing, when the
     * connection fails; otherwise send the subscription once, start the
     * collectors and mark the agent running.
     */
    method Start(timestamp: string) returns (ok: bool)
      requires Valid()
      modifies this, ws, networkCollector
      ensures Valid()
      ensures ok <==> ConnectFrom(old(ws.retryCount), old(ws.connected), old(ws.attempts), ws.maxRetries, ws.network).1
      ensures !ok ==> ws.sent == old(ws.sent) && running == old(running) && collectorsRunning == old(collectorsRunning)
      ensures !ok ==> networkCollector.stopped == old(networkCollector.stopped)
      ensures ok ==> running && collectorsRunning && !networkCollector.stopped
      ensures ok && ws.delivery(old(ws.sends)) ==> ws.sent == old(ws.sent) + [Subscribe(ws.channel, ws.serverId, ws.agentVersion,
        ws.hostname, ws.platform, ws.platformVersion, timestamp, ["agent.subscribe"])]
      ensures ok && !ws.delivery(old(ws.sends)) ==> ws.sent == old(ws.sent)
      ensures networkCollector.packets == old(networkCollector.packets) && networkCollector.handedOver == old(networkCollector.handedOver)
      ensures lastMetricsTime == old(lastMetricsTime) && shutdownRequested == old(shutdownRequested)
    {
      var connected := ws.Connect();
      if !connected {
        return false;
      }
      var _ := ws.SendSubscribeMessage(timestamp);
      networkCollector.Start();
      collectorsRunning := true;
      running := true;
      return true;
    }

    /** `stop`: stop the collectors and close the connection. */
    method Stop()
      requires Valid()
      modifies this, ws, networkCollector
      ensures Valid()
      ensures !running && !collectorsRunning && networkCollector.stopped
      ensures ws.closeRequested == (old(ws.closeRequested) || ws.hasSocket)
      ensures ws.sent == old(ws.sent) && ws.connected == old(ws.connected)
      ensures networkCollector.packets == old(networkCollector.packets) && networkCollector.handedOver == old(networkCollector.handedOver)
      ensures lastMetricsTime == old(lastMetricsTime) && shutdownRequested == old(shutdownRequested)
    {
      running := false;
      networkCollector.Stop();
      collectorsRunning := false;
      ws.Disconnect();
    }

    /** The signal handler: ask the main loop to end. */
    method RequestShutdown()
      modifies this
      ensures shutdownRequested
      ensures running == old(running) && collectorsRunning == old(collectorsRunning) && lastMetricsTime == old(lastMetricsTime)
    {
      shutdownRequested := true;
    }

    /**
     * `collect_and_analyze_metrics`: nothing for a missing sample; the
     * analysis runs first, and if it raises nothing is sent; otherwise the
     * metrics plan is attempted in order.
     */
    method CollectAndAnalyzeMetrics(metrics: Option<MA.Metrics>, now: real, timestamp: string)
      returns (ghost analysis: Result<MA.MetricsReport, string>, ghost oks: seq<bool>)
      requires Valid()
      modifies ws, metricsAnalyzer
      ensures Valid()
      ensures metrics.None? ==> ws.sent == old(ws.sent) && metricsAnalyzer.History() == old(metricsAnalyzer.History())
      ensures metrics.Some? ==>
        && metricsAnalyzer.History() == MA.UpdatedHistories(old(metricsAnalyzer.History()), metrics.value, metricsAnalyzer.historySize).0
        && (analysis.Err? <==> !MA.UpdatedHistories(old(metricsAnalyzer.History()), metrics.value, metricsAnalyzer.historySize).1)
      ensures metrics.Some? && analysis.Ok? && (|metricsAnalyzer.History().cpu| >= 5 ==> MA.Evaluable(metricsAnalyzer.History(), metrics.value)) ==>
        analysis.value == MA.Evaluate(metricsAnalyzer.History(), metrics.value, metricsAnalyzer.thresholdMultiplier, metricsAnalyzer.sqrt, now)
      ensures var plan := if metrics.Some? && analysis.Ok? then MetricsPlan(metrics.value, analysis.value, timestamp) else [];
        |oks| == |plan| && ws.sent == old(ws.sent) + Wire(Kept(plan, oks))
    {
      if metrics.None? {
        analysis := Err("failed to collect system metrics");
        oks := [];
        return;
      }
      var m := metrics.value;
      var result := metricsAnalyzer.Analyze(m, now);
      analysis := result;
      if result.Err? {
        oks := [];
        return;
      }
      var first := Send("agent.resource-monitoring", ResourceMonitoring([m]));
      ghost var sent0 := ws.sent;
      var ok1 := Attempt(first);
      StepSent(sent0, sent0, ws.sent, [], [], first, ok1);
      oks := [ok1];
      if result.value.HasAnomalies() {
        var alert := Send("agent.alert", AnomalyAlert(result.value.Anomalies(), timestamp));
        ghost var sent1 := ws.sent;
        var ok2 := Attempt(alert);
        StepSent(sent0, sent1, ws.sent, [first], oks, alert, ok2);
        oks := oks + [ok2];
      }
    }

    /** Attempting one more planned send adds its message exactly when the attempt succeeds. */
    lemma Step(done: seq<Send>, oks: seq<bool>, s: Send, ok: bool)
      requires |done| == |oks|
      ensures Wire(Kept(done + [s], oks + [ok])) == Wire(Kept(done, oks)) + (if ok then [Message(s.event, ws.serverId, ws.channel, ws.agentVersion, s.data)] else [])
    {
      KeptSnoc(done, oks, s, ok);
      var k := Kept(done, oks);
      if ok {
        WireSnoc(k, s);
      } else {
        assert k + [] == k;
        assert Wire(k) + [] == Wire(k);
      }
    }

    /** What the client has sent after one more attempt of the plan, given what it had sent before. */
    lemma StepSent(sent0: seq<Outbound<Payload>>, sent1: seq<Outbound<Payload>>, sent2: seq<Outbound<Payload>>,
                   done: seq<Send>, oks: seq<bool>, s: Send, ok: bool)
      requires |done| == |oks|
      requires sent1 == sent0 + Wire(Kept(done, oks))
      requires sent2 == sent1 + (if ok then [Message(s.event, ws.serverId, ws.channel, ws.agentVersion, s.data)] else [])
      ensures sent2 == sent0 + Wire(Kept(done + [s], oks + [ok]))
    {
      Step(done, oks, s, ok);
    }

    /** One `send_message` of a planned send. */
    method Attempt(s: Send) returns (ok: bool)
      requires Valid()
      modifies ws
      ensures Valid()
      ensures ws.sent == old(ws.sent) + (if ok then [Message(s.event, ws.serverId, ws.channel, ws.agentVersion, s.data)] else [])
    {
      ok := ws.SendMessage(s.event, s.data);
    }

    lemma WireSnoc(sends: seq<Send>, s: Send)
      ensures Wire(sends + [s]) == Wire(sends) + [Message(s.event, ws.serverId, ws.channel, ws.agentVersion, s.data)]
    {
      assert (sends + [s])[..|sends|] == sends;
    }

    /** One round of the main loop: collect metrics when the interval has passed since the last collection, and record the time. */
    method Tick(now: real, sample: Option<MA.Metrics>, timestamp: string) returns (ghost collected: bool)
      requires Valid()
      modifies this, ws, metricsAnalyzer
      ensures Valid()
      ensures collected <==> now - old(lastMetricsTime) >= settings.monitoringInterval as real
      ensures lastMetricsTime == if collected then now else old(lastMetricsTime)
      ensures !collected ==> ws.sent == old(ws.sent) && metricsAnalyzer.History() == old(metricsAnalyzer.History())
      ensures running == old(running) && shutdownRequested == old(shutdownRequested) && collectorsRunning == old(collectorsRunning)
    {
      collected := false;
      if now - lastMetricsTime >= settings.monitoringInterval as real {
        var _, _ := CollectAndAnalyzeMetrics(sample, now, timestamp);
        lastMetricsTime := now;
        collected := true;
      }
    }

    /**
     * `run`: start, then take one round per clock reading while running
     * and no shutdown was asked for, then stop. A failed start returns
     * at once, without `stop`.
     */
    method Run(readings: seq<real>, samples: seq<Option<MA.Metrics>>, timestamp: string) returns (started: bool, ghost collectedAt: seq<real>)
      requires Valid() && !shutdownRequested
      requires |samples| == |readings|
      modifies this, ws, metricsAnalyzer, networkCollector
      ensures Valid()
      ensures !started ==> collectedAt == [] && ws.sent == old(ws.sent) && lastMetricsTime == old(lastMetricsTime)
      ensures started ==> collectedAt == DueTimes(readings, old(lastMetricsTime), settings.monitoringInterval)
      ensures started ==> lastMetricsTime == LastDue(readings, old(lastMetricsTime), settings.monitoringInterval)
      ensures started ==> !running && !collectorsRunning && networkCollector.stopped
    {
      collectedAt := [];
      started := Start(timestamp);
      if !started {
        return;
      }
      ghost var last0 := lastMetricsTime;
      var i := 0;
      while i < |readings| && running && !shutdownRequested
        invariant 0 <= i <= |readings|
        invariant Valid() && running && !shutdownRequested
        invariant DueTimes(readings, last0, settings.monitoringInterval)
          == collectedAt + DueTimes(readings[i..], lastMetricsTime, settings.monitoringInterval)
        invariant LastDue(readings, last0, settings.monitoringInterval)
          == LastDue(readings[i..], lastMetricsTime, settings.monitoringInterval)
      {
        assert readings[i..][1..] == readings[i + 1..];
        ghost var before := lastMetricsTime;
        var collected := Tick(readings[i], samples[i], timestamp);
        if collected {
          collectedAt := collectedAt + [readings[i]];
        }
        i := i + 1;
      }
      assert readings[i..] == [];
      Stop();
    }

    /** `on_network_data_collected`: true without sending for an empty batch, else the result of the send. */
    method OnNetworkDataCollected(packets: seq<NT.PacketRecord>) returns (ok: bool, ghost oks: seq<bool>)
      requires Valid()
      modifies ws
      ensures Valid()
      ensures |oks| == |NetworkPlan(packets)| && ws.sent == old(ws.sent) + Wire(Kept(NetworkPlan(packets), oks))
      ensures ok <==> LastOk(oks)
      ensures packets == [] ==> ok && ws.sent == old(ws.sent)
    {
      if packets == [] {
        return true, [];
      }
      ghost var sent0 := ws.sent;
      ok := Attempt(Send("agent.network-traffic", Traffic(packets)));
      StepSent(sent0, sent0, ws.sent, [], [], Send("agent.network-traffic", Traffic(packets)), ok);
      oks := [ok];
    }

    /**
     * `on_security_events_collected`: true without sending for no events;
     * otherwise analyse, attempt the security plan in order, and report the
     * last attempt's result.
     */
    method OnSecurityEventsCollected(events: Option<SC.SecurityEvents>, now: real, timestamp: string)
      returns (ok: bool, ghost analysis: SA.Analysis, ghost oks: seq<bool>)
      requires Valid()
      modifies ws, securityAnalyzer
      ensures Valid()
      ensures events.None? ==> ok && ws.sent == old(ws.sent) && securityAnalyzer.State() == old(securityAnalyzer.State())
      ensures events.Some? ==>
        (securityAnalyzer.State(), analysis) == SA.AnalyzeSpec(old(securityAnalyzer.State()), events.value, now, securityAnalyzer.Limits())
      ensures var plan := if events.Some? then SecurityPlan(events.value, analysis, timestamp) else [];
        |oks| == |plan| && ws.sent == old(ws.sent) + Wire(Kept(plan, oks))
      ensures ok <==> LastOk(oks)
    {
      if events.None? {
        return true, SA.Analysis([], false, 0, now), [];
      }
      var e := events.value;
      var result := securityAnalyzer.Analyze(e, now);
      analysis := result;
      var first := Send("agent.security-events", SecurityReport(e, result));
      ghost var sent0 := ws.sent;
      ok := Attempt(first);
      StepSent(sent0, sent0, ws.sent, [], [], first, ok);
      oks := [ok];
      if result.hasThreats {
        var alert := Send("agent.alert", SecurityAlert(result.threats, timestamp));
        ghost var sent1 := ws.sent;
        ok := Attempt(alert);
        StepSent(sent0, sent1, ws.sent, [first], oks, alert, ok);
        oks := oks + [ok];
      }
      assert oks[|oks| - 1] == ok;
    }

    /**
     * `on_logs_collected`: true without sending when there are no entries
     * or nothing calls for sending; otherwise attempt the log plan in order
     * and report the last attempt's result.
     */
    method OnLogsCollected(batch: Option<LC.LogBatch>, timestamp: string) returns (ok: bool, ghost oks: seq<bool>)
      requires Valid()
      modifies ws
      ensures Valid()
      ensures var plan := LogPlan(batch, Config.SendAllLogs(settings), timestamp);
        |oks| == |plan| && ws.sent == old(ws.sent) + Wire(Kept(plan, oks))
      ensures ok <==> LastOk(oks)
    {
      if batch.None? || batch.value.entries == [] {
        return true, [];
      }
      var b := batch.value;
      if b.hasErrors || b.hasWarnings || Config.SendAllLogs(settings) {
        ok, oks := SendLogBatch(b, timestamp);
        return;
      }
      return true, [];
    }

    /** The sending half of `on_logs_collected`: the batch, then the error alert when the batch has errors. */
    method SendLogBatch(b: LC.LogBatch, timestamp: string) returns (ok: bool, ghost oks: seq<bool>)
      requires Valid()
      modifies ws
      ensures Valid()
      ensures var plan := [Send("agent.logs", Logs(b))] + (if b.hasErrors then [Send("agent.alert", LogAlertFor(b.entries, timestamp))] else []);
        |oks| == |plan| && ws.sent == old(ws.sent) + Wire(Kept(plan, oks))
      ensures ok <==> LastOk(oks)
    {
      var first := Send("agent.logs", Logs(b));
      ghost var sent0 := ws.sent;
      ok := Attempt(first);
      StepSent(sent0, sent0, ws.sent, [], [], first, ok);
      oks := [ok];
      if b.hasErrors {
        var errorEntries := LC.EntriesWith(b.entries, LC.Error);
        var alert := Send("agent.alert", LogAlert(Text.Take(errorEntries, 10), |errorEntries|, timestamp));
        ghost var sent1 := ws.sent;
        ok := Attempt(alert);
        StepSent(sent0, sent1, ws.sent, [first], oks, alert, ok);
        oks := oks + [ok];
      }
    }
  }
}
