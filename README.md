# Host telemetry agent, modelled in Dafny

The repository is a host-telemetry agent that reports to a server over a
WebSocket. Its second generation (`V2/sec-spot`) does the following:

- connects with a bounded retry budget and subscribes on the server's channel;
- samples system metrics on an interval and looks for anomalies against running baselines;
- scans authentication logs incrementally for suspicious lines and correlates them into threats;
- collects new log lines with a severity each;
- buffers sniffed packets and hands them over in batches;
- forwards everything as JSON events.

The first generation (`agent.py`, `services/reverb.py`, `resource/`,
`test.py`) holds:

- a singleton client that subscribes once, remembered in a settings table;
- a log browser;
- a length-prefixed test receiver.

The model keeps the agent's own structure, one Dafny module per core source file:

| module | file | what it holds |
|---|---|---|
| `Config` | `settings.dfy` | settings loaded from an environment map |
| `Transport` | `websocket_client.dfy` | the V2 client as a class |
| `MetricsAnalysis` | `metrics_analyzer.dfy` | bounded histories and the mean-plus-k-deviations threshold |
| `SecurityAnalysis` | `security_analyzer.dfy` | per-IP and per-user counters, per-IP port sets, cleanup windows |
| `SecurityCollection` | `security_collector.dfy` | positions per log file, the pattern search, netstat/ps parsing |
| `LogCollection` | `logs_collector.dfy` | positions per log file, severities, batch statistics |
| `NetworkTraffic` | `network_traffic.dfy` | the packet buffer and its flush |
| `Orchestrator` | `agent_v2.dfy` | the V2 agent: start, main loop, the four forwarding callbacks |
| `Helpers` | `helpers.dfy` | unit choice for byte sizes; `/etc/os-release` parsing |
| `Reverb` | `reverb.dfy` | the first agent's singleton client |
| `SubscribeOnce` | `root_agent.dfy` | the first agent's start-up |
| `LogMonitor` | `log_monitoring.dfy` | the log browser |
| `FrameServer` | `frame_server.dfy` | the framed test receiver |

`Wrappers` (`Option`, `Result`) and `Text` (character classes, strip, split,
word search, line reading) are shared support modules.

Everything outside the program is a parameter. Each of the following
stands in for something the program does not control:

| parameter | stands for |
|---|---|
| a `map<string, string>` | the file system |
| the sequence of lines given as input | the output of `netstat` or `ps` |
| `network(k)` | whether the k-th connection attempt opens |
| `delivery(k)` | whether the k-th send succeeds |
| `verdict(k)` | what the k-th call of the network-batch callback returns |
| `grant(k)` | how many bytes the k-th `recv` returns |
| a function satisfying `SqrtSpec` | the square root |
| real numbers | clock readings |

## Model

| member | source | states |
|---|---|---|
| Config.ParseInt | V2/sec-spot/config/settings.py:16-17 | `int()` on a string succeeds exactly when the stripped text is an optional sign followed by decimal digits |
| Config.ShowNat | V2/sec-spot/config/settings.py:16-17 | the decimal rendering of a natural number is non-empty and all digits |
| Config.ShowInt | V2/sec-spot/config/settings.py:16-17 | `str(i)` is non-empty and has no white space at either end |
| Config.ShowNatValue | V2/sec-spot/config/settings.py:16-17 | reading back the decimal digits of `n` gives `n` |
| Config.ParseShowRoundTrip | V2/sec-spot/config/settings.py:16-17 | `int(str(i)) == i` for every integer, so every interval and retry count can be configured |
| Config.LoadSettings | V2/sec-spot/config/settings.py:10-38 | loading succeeds iff both integers parse and SERVER_ID, REVERB_URI and REVERB_CHANNEL are present and non-empty; on success every field is the environment value or its default |
| Config.ValidationOrder | V2/sec-spot/config/settings.py:29-38 | with valid integers, the first missing required value in the order SERVER_ID, REVERB_URI, REVERB_CHANNEL is the error reported |
| Config.DefaultLiterals | V2/sec-spot/config/settings.py:16-17 | the default literals "20" and "3" read as 20 and 3 |
| Config.Defaults | V2/sec-spot/config/settings.py:15-18 | with only the required values set, the version is 2.0.0, the interval 20, the retries 3 and the level INFO |
| Config.SendAllLogsAlwaysOn | V2/sec-spot/config/settings.py:19 | the trailing comma makes `SEND_ALL_LOGS` a one-element tuple holding the LOG_LEVEL lookup, so it is true for every environment |
| Transport.ConnectFrom | V2/sec-spot/communication/websocket_client.py:50-94 | the connect loop from a retry count: a connected client is left alone and attempts only ever increase |
| Transport.CommandOf | V2/sec-spot/communication/websocket_client.py:107-146 | a message is a restart command exactly when its event is `command` and its command is `restart`, and likewise for update |
| Transport.WebSocketClient.constructor | V2/sec-spot/communication/websocket_client.py:18-42 | the client keeps its URI, identity and retry budget, with no socket, no connection and zero counters |
| Transport.WebSocketClient.Connect | V2/sec-spot/communication/websocket_client.py:44-94 | the new retry count, flag and attempt index are those of the connect loop; the result is the flag; a socket exists once any attempt was made |
| Transport.WebSocketClient.Disconnect | V2/sec-spot/communication/websocket_client.py:96-100 | a close is requested exactly when there is a socket, and nothing else changes |
| Transport.WebSocketClient.OnOpen | V2/sec-spot/communication/websocket_client.py:102-105 | the open callback sets the connection flag and changes nothing else |
| Transport.WebSocketClient.OnError | V2/sec-spot/communication/websocket_client.py:119-122 | the error callback drops the flag and changes nothing else |
| Transport.WebSocketClient.OnClose | V2/sec-spot/communication/websocket_client.py:124-133 | the close callback drops the flag and reconnects only while the retry count is below the budget |
| Transport.WebSocketClient.SendMessage | V2/sec-spot/communication/websocket_client.py:148-178 | a send succeeds iff the client was connected, or reconnects, and the delivery succeeds; on success exactly its message is appended; a failure sends nothing and drops the flag |
| Transport.WebSocketClient.SendSubscribeMessage | V2/sec-spot/communication/websocket_client.py:180-201 | the subscription goes out iff a socket exists and the delivery succeeds; without a socket no send is made |
| Transport.ConnectOutcome | V2/sec-spot/communication/websocket_client.py:50-92 | a success resets the count after the first attempt that opens, every earlier attempt having failed; giving up leaves the count at the budget after one attempt per unit of remaining budget |
| Transport.FailingTransportExhaustsBudget | V2/sec-spot/communication/websocket_client.py:80-92 | against a transport that never opens, the loop makes exactly `max_retries - retry_count` attempts and fails |
| Transport.ExhaustedBudgetMakesNoAttempt | V2/sec-spot/communication/websocket_client.py:50-92 | once the budget is spent, `connect` makes no attempt and fails, because the count is never reset on failure |
| Transport.FirstAttemptSucceeds | V2/sec-spot/communication/websocket_client.py:76-79 | a first attempt that opens connects after one attempt with a fresh budget |
| Transport.ConnectsIffAttemptWithinBudget | V2/sec-spot/communication/websocket_client.py:50-94 | the loop connects iff some attempt within the remaining budget opens |
| MetricsAnalysis.Bounded | V2/sec-spot/analyzers/metrics_analyzer.py:22-26 | a `deque(maxlen)` append: the length is capped at the capacity, the new value is last, and below capacity nothing is dropped |
| MetricsAnalysis.UpdatedHistories | V2/sec-spot/analyzers/metrics_analyzer.py:133-143 | the update completes iff both totals are non-zero; a zero RAM or disk total stops the update at its own history, after the earlier ones were appended |
| MetricsAnalysis.BaselineThreshold | V2/sec-spot/analyzers/metrics_analyzer.py:145-167 | the baseline is the mean and the threshold exceeds it by k standard deviations, so it is never below the baseline for k >= 0 |
| MetricsAnalysis.Check | V2/sec-spot/analyzers/metrics_analyzer.py:61-114 | a check yields one anomaly carrying its current value, baseline and threshold exactly when the value is strictly above the threshold |
| MetricsAnalysis.Delta | V2/sec-spot/analyzers/metrics_analyzer.py:96-98 | the network delta is non-negative: the increase of the counter, or zero when it did not increase |
| MetricsAnalysis.Evaluate | V2/sec-spot/analyzers/metrics_analyzer.py:43-131 | fewer than five CPU samples gives the cold-start answer; otherwise a report whose flag and count agree with its anomaly list |
| MetricsAnalysis.MetricsAnalyzer.constructor | V2/sec-spot/analyzers/metrics_analyzer.py:11-29 | the analyzer keeps its history size, multiplier and square root, with empty histories |
| MetricsAnalysis.MetricsAnalyzer.Analyze | V2/sec-spot/analyzers/metrics_analyzer.py:33-131 | the histories receive the update; the result is an error iff the update raised, otherwise the evaluation of the updated histories; the analysis time moves only on a full report |
| MetricsAnalysis.MetricsAnalyzer.DetectAnomalies | V2/sec-spot/analyzers/metrics_analyzer.py:57-121 | the appended comparisons are exactly the anomaly list of the current histories and sample |
| MetricsAnalysis.MetricsAnalyzer.UpdateHistory | V2/sec-spot/analyzers/metrics_analyzer.py:133-143 | the histories become the update of the old ones, and a complete update leaves every history non-empty |
| MetricsAnalysis.UpdateKeepsHistoriesAligned | V2/sec-spot/analyzers/metrics_analyzer.py:139-143 | a complete update keeps histories of equal length equal and within capacity |
| MetricsAnalysis.BoundedKeepsNewest | V2/sec-spot/analyzers/metrics_analyzer.py:22-26 | the deque holds the newest values: a suffix of the old contents followed by the new value |
| MetricsAnalysis.FullHistoryDropsOldest | V2/sec-spot/analyzers/metrics_analyzer.py:22-26 | a full history drops exactly its oldest value |
| MetricsAnalysis.SquaredDeviationsNonNegative | V2/sec-spot/analyzers/metrics_analyzer.py:161 | a sum of squared deviations is never negative |
| MetricsAnalysis.SquareNonNegative | V2/sec-spot/analyzers/metrics_analyzer.py:161 | a square is never negative |
| MetricsAnalysis.VarianceNonNegative | V2/sec-spot/analyzers/metrics_analyzer.py:161 | the variance is never negative, so its square root is defined |
| MetricsAnalysis.SumOfConstant | V2/sec-spot/analyzers/metrics_analyzer.py:158 | n copies of c sum to n * c |
| MetricsAnalysis.DeviationsOfConstant | V2/sec-spot/analyzers/metrics_analyzer.py:158-161 | values equal to the mean deviate by nothing |
| MetricsAnalysis.SumAtLeast | V2/sec-spot/analyzers/metrics_analyzer.py:158 | values all at least c sum to at least n * c |
| MetricsAnalysis.FlatHistoryThreshold | V2/sec-spot/analyzers/metrics_analyzer.py:155-165 | for an all-equal history the baseline and threshold are both the common value, whatever the multiplier |
| MetricsAnalysis.FlatBaselineNeverTriggers | V2/sec-spot/analyzers/metrics_analyzer.py:155-165 | because the comparison is strict, a sample equal to a flat baseline is never an anomaly |
| MetricsAnalysis.DeltaBelowCountersNeverTriggers | V2/sec-spot/analyzers/metrics_analyzer.py:94-114 | the byte baseline is built from cumulative counters while the compared value is a delta, so with k >= 0 a delta no larger than every stored counter is never reported |
| MetricsAnalysis.AnomaliesInFixedOrder | V2/sec-spot/analyzers/metrics_analyzer.py:60-121 | at most five anomalies, in the order cpu, ram, disk, receive, send, each strictly above its threshold; the network checks need two byte samples |
| MetricsAnalysis.AnomalyReportedIff | V2/sec-spot/analyzers/metrics_analyzer.py:60-121 | each kind is reported iff its value (a percentage or a delta) is strictly above its own threshold |
| MetricsAnalysis.ColdStartReportsNothing | V2/sec-spot/analyzers/metrics_analyzer.py:43-48 | with fewer than five CPU samples there is no report and no anomaly |
| SecurityAnalysis.DottedEnd | V2/sec-spot/analyzers/security_analyzer.py:87 | the dotted-digits scanner ends past its start, within the text, having read only digits and dots |
| SecurityAnalysis.IpAt | V2/sec-spot/analyzers/security_analyzer.py:87 | an IP captured after `from` and white space is non-empty, occurs in the line and holds only digits and dots |
| SecurityAnalysis.IpFrom | V2/sec-spot/analyzers/security_analyzer.py:94-96 | the leftmost IP match is non-empty, occurs in the line and holds only digits and dots |
| SecurityAnalysis.UserAt | V2/sec-spot/analyzers/security_analyzer.py:88 | a username captured after `user`, `for` or `USER` is a non-empty run of word characters from the line |
| SecurityAnalysis.UserFrom | V2/sec-spot/analyzers/security_analyzer.py:110-112 | the leftmost username match is a non-empty run of word characters from the line |
| SecurityAnalysis.LocalPort | V2/sec-spot/analyzers/security_analyzer.py:147-149 | a local port is only read from an address holding `:`, from the digits after its last colon |
| SecurityAnalysis.Cleanup | V2/sec-spot/analyzers/security_analyzer.py:185-202 | each table is cleared, and its time reset, iff strictly more than its window (3600, 300, 60 seconds) has passed; otherwise it is unchanged |
| SecurityAnalysis.IpStep | V2/sec-spot/analyzers/security_analyzer.py:93-107 | an event naming an IP adds one to that IP's counter only, and yields a brute-force threat iff the counter reaches the threshold; an event without an IP changes nothing |
| SecurityAnalysis.UserStep | V2/sec-spot/analyzers/security_analyzer.py:109-126 | system accounts and lines without a user change nothing; any other user's counter goes up by one, with a threat iff it reaches the threshold |
| SecurityAnalysis.AuthStep | V2/sec-spot/analyzers/security_analyzer.py:91-126 | an authentication event touches neither the port sets nor the cleanup times |
| SecurityAnalysis.AuthRun | V2/sec-spot/analyzers/security_analyzer.py:75-128 | the authentication pass touches neither port sets nor cleanup times and yields at most two threats per event |
| SecurityAnalysis.NetStep | V2/sec-spot/analyzers/security_analyzer.py:143-161 | a connection with a remote IP and a parsable port adds the port to that IP's set, with a port-scan threat carrying the set iff it reaches the threshold; otherwise nothing changes |
| SecurityAnalysis.NetRun | V2/sec-spot/analyzers/security_analyzer.py:130-166 | the network pass changes only the port sets and yields at most one threat per connection |
| SecurityAnalysis.AnalyzeSpec | V2/sec-spot/analyzers/security_analyzer.py:41-73 | `analyze` cleans up first, then reports the authentication threats followed by the network threats, with `has_threats` and `num_threats` agreeing with the list |
| SecurityAnalysis.SecurityAnalyzer.constructor | V2/sec-spot/analyzers/security_analyzer.py:12-37 | empty tables, the given thresholds, and all three windows starting now |
| SecurityAnalysis.SecurityAnalyzer.Analyze | V2/sec-spot/analyzers/security_analyzer.py:41-73 | the new state and the result are those of the analysis function on the old state |
| SecurityAnalysis.SecurityAnalyzer.CleanupOldData | V2/sec-spot/analyzers/security_analyzer.py:185-202 | the new state is the cleanup of the old one |
| SecurityAnalysis.SecurityAnalyzer.AnalyzeAuthEvents | V2/sec-spot/analyzers/security_analyzer.py:75-128 | the loop over events ends in the state and threats of the authentication pass |
| SecurityAnalysis.SecurityAnalyzer.TrackAuthEvent | V2/sec-spot/analyzers/security_analyzer.py:91-126 | one loop body is one authentication step |
| SecurityAnalysis.SecurityAnalyzer.AnalyzeNetworkEvents | V2/sec-spot/analyzers/security_analyzer.py:130-166 | the loop over connections ends in the state and threats of the network pass; open ports are not consulted |
| SecurityAnalysis.SecurityAnalyzer.TrackConnection | V2/sec-spot/analyzers/security_analyzer.py:144-161 | one loop body is one network step: only the port-scan table changes |
| SecurityAnalysis.SecurityAnalyzer.AnalyzeProcessEvents | V2/sec-spot/analyzers/security_analyzer.py:168-183 | process analysis never finds a threat |
| SecurityAnalysis.IpCounterCountsEvents | V2/sec-spot/analyzers/security_analyzer.py:94-107 | after a batch, an IP's counter is its old value plus the number of events naming it |
| SecurityAnalysis.SystemUsersIgnored | V2/sec-spot/analyzers/security_analyzer.py:110-126 | root, nobody and daemon are never counted and never appear in a threat |
| SecurityAnalysis.AuthThreatsMeetThresholds | V2/sec-spot/analyzers/security_analyzer.py:100-119 | every authentication threat met its threshold, carries that threshold, and its count is at most the final counter of its IP or user |
| SecurityAnalysis.AuthGrows | V2/sec-spot/analyzers/security_analyzer.py:97-116 | one authentication event never lowers or removes a counter |
| SecurityAnalysis.GrowsTransitive | V2/sec-spot/analyzers/security_analyzer.py:97-116 | growth of the tables composes over consecutive events |
| SecurityAnalysis.AuthRunGrows | V2/sec-spot/analyzers/security_analyzer.py:97-116 | between clears the authentication pass only grows the tables |
| SecurityAnalysis.NetGrows | V2/sec-spot/analyzers/security_analyzer.py:150 | one connection never removes a port from a set |
| SecurityAnalysis.NetRunGrows | V2/sec-spot/analyzers/security_analyzer.py:150 | between clears the network pass only grows the port sets |
| SecurityAnalysis.PortScanCountIsDistinctPorts | V2/sec-spot/analyzers/security_analyzer.py:150-158 | every port-scan threat counts the distinct ports it carries, has reached the threshold, and its set is within the IP's final set |
| SecurityAnalysis.RevisitedPortAddsNothing | V2/sec-spot/analyzers/security_analyzer.py:150-158 | touching a port already in an IP's set changes nothing and re-reports the same count |
| SecurityAnalysis.NoPortScanFromCollector | V2/sec-spot/analyzers/security_analyzer.py:143 | fed by the collector, which never reports an active connection, `analyze` never reports a port scan and leaves the port sets as cleanup left them |
| SecurityAnalysis.InvalidUserLine | V2/sec-spot/analyzers/security_analyzer.py:86-111 | on any sshd line `Invalid user <name> from <a.b.c.d><rest>` (a word name without `f`, rest not starting with a digit) the IP pattern captures the address and the user pattern captures the name |
| SecurityAnalysis.ExtractionExample | V2/sec-spot/analyzers/security_analyzer.py:86-111 | on the sshd line `Invalid user alice from 10.0.0.7 port 22` the address after `from` and the name after `user` are extracted |
| SecurityCollection.FirstMatchFrom | V2/sec-spot/collectors/security.py:142-150 | the pattern found is the first that matches, in list order; none found means no pattern matches |
| SecurityCollection.PamPatternNeverTags | V2/sec-spot/collectors/security.py:45-48 | the last pattern is subsumed by `authentication failure` and never tags a line |
| SecurityCollection.TagLines | V2/sec-spot/collectors/security.py:142-150 | at most one entry per new line |
| SecurityCollection.TagNewLines | V2/sec-spot/collectors/security.py:142-150 | the inner loop yields exactly the tagged entries of the lines |
| SecurityCollection.OpenPortOf | V2/sec-spot/collectors/security.py:162-187 | a netstat line yields a record iff it contains LISTEN and has at least seven fields; the port is the text after the last colon of field 4, the program the part after `/` of field 7 |
| SecurityCollection.ConnectionOf | V2/sec-spot/collectors/security.py:203-217 | a line yields a connection iff it contains ESTABLISHED and has at least five fields; the remote IP is the whole remote address before its first colon, or all of it when there is none |
| SecurityCollection.CheckOpenPorts | V2/sec-spot/collectors/security.py:162-187 | a failed command yields no records; otherwise the records of the lines in order |
| SecurityCollection.ParseConnections | V2/sec-spot/collectors/security.py:203-217 | the parsing loop yields the connections of the lines in order |
| SecurityCollection.CheckActiveConnections | V2/sec-spot/collectors/security.py:195-226 | the parsed connections are dropped and the result is always empty |
| SecurityCollection.CheckSuspiciousProcesses | V2/sec-spot/collectors/security.py:234-247 | no process is ever reported |
| SecurityCollection.SecurityCollector.constructor | V2/sec-spot/collectors/security.py:28-39 | the monitored files are the candidate files that exist, in order, each at position 0 |
| SecurityCollection.SecurityCollector.SeedPositions | V2/sec-spot/collectors/security.py:72-78 | every readable monitored file's position is put at its end; the others keep theirs |
| SecurityCollection.SecurityCollector.CheckAuthLogs | V2/sec-spot/collectors/security.py:118-154 | the entries and new positions are those of scanning every monitored file from its position |
| SecurityCollection.SecurityCollector.CheckAuthLog | V2/sec-spot/collectors/security.py:127-150 | a file that cannot be read is skipped; otherwise its unread lines are tagged and appended and its position moves to its end; no other position changes |
| SecurityCollection.SecurityCollector.CheckSecurity | V2/sec-spot/collectors/security.py:95-116 | the report holds the scanned entries and parsed open ports, no connections or processes, and a total equal to the entries plus the ports |
| SecurityCollection.FilterExisting | V2/sec-spot/collectors/security.py:36 | a file is kept iff it is a candidate and exists |
| SecurityCollection.TaggedPatterns | V2/sec-spot/collectors/security.py:142-150 | every entry names the file it came from and one of the first five patterns |
| SecurityCollection.ScanReachesEnd | V2/sec-spot/collectors/security.py:133-139 | after a scan every readable file is recorded at its end |
| SecurityCollection.ScanAtEndIsIdle | V2/sec-spot/collectors/security.py:133-139 | a scan of files all at their end finds nothing and moves nothing |
| SecurityCollection.RescanFindsNothing | V2/sec-spot/collectors/security.py:133-139 | a second scan with nothing appended in between finds nothing and keeps the positions |
| LogCollection.DetermineSeverity | V2/sec-spot/collectors/logs.py:187-205 | error iff an error word occurs in the lower-cased line; warning iff no error word but a warning word; info otherwise |
| LogCollection.LowerIdempotent | V2/sec-spot/collectors/logs.py:187 | lower-casing twice is lower-casing once |
| LogCollection.SeverityIgnoresCase | V2/sec-spot/collectors/logs.py:187 | a line and its lower-cased form get the same severity |
| LogCollection.ErrorWinsOverWarning | V2/sec-spot/collectors/logs.py:190-197 | a line with both an error and a warning word is an error |
| LogCollection.Bump | V2/sec-spot/collectors/logs.py:148-150 | incrementing a counter adds a key only when it was absent |
| LogCollection.BumpCounts | V2/sec-spot/collectors/logs.py:148-150 | incrementing adds one to that key's count and to the sum, leaving every other count alone |
| LogCollection.TouchCounts | V2/sec-spot/collectors/logs.py:166-167 | reading a `defaultdict` key inserts it without changing any count or the sum |
| LogCollection.AppendZero | V2/sec-spot/collectors/logs.py:166-167 | a key inserted with count 0 changes no count and no sum |
| LogCollection.EntriesOf | V2/sec-spot/collectors/logs.py:146-157 | one entry per new line, in order, with the severity of the line and its stripped text |
| LogCollection.ImportanceOf | V2/sec-spot/collectors/logs.py:171 | high iff errors; medium iff warnings without errors; low otherwise |
| LogCollection.LogCollector.constructor | V2/sec-spot/collectors/logs.py:28-44 | the monitored files are the candidates that exist, in order, each at position 0 |
| LogCollection.LogCollector.SeedPositions | V2/sec-spot/collectors/logs.py:89-95 | every readable monitored file's position is put at its end; the others keep theirs |
| LogCollection.LogCollector.CollectFile | V2/sec-spot/collectors/logs.py:130-160 | one file's unread lines are appended as entries, its position moves to its end, and the statistics stay those of all entries |
| LogCollection.LogCollector.Collect | V2/sec-spot/collectors/logs.py:112-176 | the new positions and the batch are those of scanning every monitored file and summarising the entries read |
| LogCollection.ProcessLines | V2/sec-spot/collectors/logs.py:146-157 | the inner loop appends the entries of the lines and keeps the statistics equal to those of all entries |
| LogCollection.ExistingLogFiles | V2/sec-spot/collectors/logs.py:41 | a file is kept iff it is a candidate whose path exists |
| LogCollection.StatsAddUp | V2/sec-spot/collectors/logs.py:146-157 | the total, the sum by type and the sum by severity all equal the number of entries |
| LogCollection.SeverityCountIsNumberOfEntries | V2/sec-spot/collectors/logs.py:150 | the count recorded for a severity is the number of entries with it |
| LogCollection.FlagsSayWhatWasRead | V2/sec-spot/collectors/logs.py:166-170 | the error and warning counts are positive iff such an entry was read, and still add up |
| LogCollection.SummaryIsFaithful | V2/sec-spot/collectors/logs.py:162-176 | no batch iff nothing was read; a batch holds all entries, totals that add up, flags true iff such an entry exists, and the importance they imply |
| LogCollection.CollectReachesEnd | V2/sec-spot/collectors/logs.py:137-143 | after `collect` every readable file is recorded at its end |
| LogCollection.CollectAtEndIsIdle | V2/sec-spot/collectors/logs.py:137-143 | a `collect` over files all at their end reads nothing and moves nothing |
| LogCollection.SecondCollectIsEmpty | V2/sec-spot/collectors/logs.py:137-143 | a second `collect` with nothing appended returns nothing |
| NetworkTraffic.RecordOf | V2/sec-spot/collectors/network_traffic.py:62-92 | a packet is recorded iff it has an IP layer; TCP wins over UDP for protocol and ports, other packets have no ports |
| NetworkTraffic.ReceiveAsWritten | V2/sec-spot/collectors/network_traffic.py:82-104 | as written, a due flush hands the whole buffer over and empties it, and a refusal leaves the thread blocked |
| NetworkTraffic.PutBackKeepsEverything | V2/sec-spot/collectors/network_traffic.py:101-104 | with the intended put-back, the buffer is either emptied into an accepted batch or holds every record in arrival order |
| NetworkTraffic.RefusedBatchIsLost | V2/sec-spot/collectors/network_traffic.py:82-103 | as written, a refused batch leaves an empty buffer and a blocked thread, where the intended put-back keeps it |
| NetworkTraffic.AcceptingCallbackKeepsBufferBelowMax | V2/sec-spot/collectors/network_traffic.py:95-100 | with a callback that accepts every batch, the buffer stays below `max_packets` |
| NetworkTraffic.NoCallbackKeepsEverything | V2/sec-spot/collectors/network_traffic.py:95 | without a callback the buffer holds every record in arrival order |
| NetworkTraffic.NetworkTrafficCollector.constructor | V2/sec-spot/collectors/network_traffic.py:12-24 | an empty buffer, not stopped, with the given limit and callback |
| NetworkTraffic.NetworkTrafficCollector.Start | V2/sec-spot/collectors/network_traffic.py:28-34 | the stop event is cleared and the buffer is untouched |
| NetworkTraffic.NetworkTrafficCollector.Stop | V2/sec-spot/collectors/network_traffic.py:36-41 | the stop event is set and the buffer is untouched |
| NetworkTraffic.NetworkTrafficCollector.PacketCallback | V2/sec-spot/collectors/network_traffic.py:52-107 | after a stop or for a non-IP packet nothing changes; otherwise the buffer and the batches handed over follow one step with the intended put-back, so a refused batch is kept |
| NetworkTraffic.NetworkTrafficCollector.GetCollectedPackets | V2/sec-spot/collectors/network_traffic.py:109-116 | the result is a copy of the buffer |
| NetworkTraffic.NetworkTrafficCollector.ClearPackets | V2/sec-spot/collectors/network_traffic.py:118-121 | the buffer is emptied and nothing else changes |
| Orchestrator.Kept | V2/sec-spot/agent.py:160-294 | the messages that reach the server are exactly the planned sends whose attempt succeeded, in the plan's order |
| Orchestrator.Succeeded | V2/sec-spot/agent.py:160-294 | the successful positions, strictly increasing, each a success and every success among them |
| Orchestrator.MetricsPlan | V2/sec-spot/agent.py:160-194 | the metrics go first; an anomaly alert follows iff the report has anomalies |
| Orchestrator.NetworkPlan | V2/sec-spot/agent.py:196-211 | an empty batch sends nothing; any other is sent as one traffic message |
| Orchestrator.SecurityPlan | V2/sec-spot/agent.py:213-248 | the events and analysis go first; a security alert with the threats follows iff there are threats |
| Orchestrator.LogPlan | V2/sec-spot/agent.py:254-294 | at most two sends per batch |
| Orchestrator.LogPlanShape | V2/sec-spot/agent.py:256-272 | a batch is sent iff it has entries and errors, warnings or the send-all setting; an alert follows iff it holds errors |
| Orchestrator.LogAlertContents | V2/sec-spot/agent.py:272-279 | the alert lists the first min(10, n) error entries in order and counts all n, n being the batch's own error count |
| Orchestrator.EveryLogBatchIsSent | V2/sec-spot/agent.py:261-263 | since the send-all setting is always true, every non-empty batch is sent under loaded settings |
| Orchestrator.DueTimesSpaced | V2/sec-spot/agent.py:115-121 | metrics collections are spaced by at least the interval, counting from the previous collection, at clock readings actually taken |
| Orchestrator.Agent.constructor | V2/sec-spot/agent.py:32-72 | the client carries the settings; the analyzers use 30 samples, multiplier 2.0 and thresholds 5, 3, 10; the network collector uses batches of 50; nothing is running |
| Orchestrator.Agent.Start | V2/sec-spot/agent.py:80-107 | start succeeds iff the connect loop connects; on failure nothing is sent or started; on success the subscription goes out once (when its delivery succeeds) and the collectors run |
| Orchestrator.Agent.Stop | V2/sec-spot/agent.py:133-146 | the collectors are stopped, the connection is closed if there is a socket, and nothing is sent |
| Orchestrator.Agent.RequestShutdown | V2/sec-spot/agent.py:152-154 | the signal handler only asks the main loop to end |
| Orchestrator.Agent.CollectAndAnalyzeMetrics | V2/sec-spot/agent.py:160-194 | a missing sample sends nothing; otherwise the histories are updated, a raising analysis sends nothing, and what reaches the server is the metrics plan's messages whose send succeeded |
| Orchestrator.Agent.Tick | V2/sec-spot/agent.py:116-121 | metrics are collected iff the interval has passed since the last collection, which then moves to now |
| Orchestrator.Agent.Run | V2/sec-spot/agent.py:109-131 | a failed start sends nothing; otherwise metrics are collected exactly at the due clock readings and the agent is stopped at the end |
| Orchestrator.Agent.OnNetworkDataCollected | V2/sec-spot/agent.py:196-211 | an empty batch succeeds without sending; otherwise the traffic message is attempted and its result returned |
| Orchestrator.Agent.OnSecurityEventsCollected | V2/sec-spot/agent.py:213-252 | no events succeeds without sending; otherwise the analyzer advances as the analysis function says and what reaches the server is the security plan's successful sends; the result is that of the last attempt |
| Orchestrator.Agent.OnLogsCollected | V2/sec-spot/agent.py:254-294 | what reaches the server is the log plan's successful sends; the result is that of the last attempt, or true when nothing was planned |
| Orchestrator.Agent.SendLogBatch | V2/sec-spot/agent.py:265-288 | the batch is attempted first and the error alert (the first ten error entries and their count) second, only for a batch with errors; what reaches the server is the successful attempts, and the result is that of the last |
| Helpers.Pow1024 | V2/sec-spot/utils/helpers.py:81-88 | powers of 1024 are positive |
| Helpers.UnitIndexFromBounds | V2/sec-spot/utils/helpers.py:81-88 | the unit climb stays within the six units, the value is at least the chosen power, and below the next one unless at petabytes |
| Helpers.PowMonotone | V2/sec-spot/utils/helpers.py:81-88 | powers of 1024 increase with the exponent |
| Helpers.UnitIndexIsLargestFit | V2/sec-spot/utils/helpers.py:81-88 | the unit is the largest of B to PB whose power fits the value; values below 1024 stay in bytes |
| Helpers.BytesToHumanReadable | V2/sec-spot/utils/helpers.py:64-88 | a refused or negative value renders as 0 B; otherwise the value divided by 1024 to the unit index, with that unit |
| Helpers.ReleaseItem | V2/sec-spot/utils/helpers.py:38-40 | a line yields a key and value iff it holds `=`, and the key holds no `=` |
| Helpers.EqualsSurvivesStrip | V2/sec-spot/utils/helpers.py:39 | stripping a line keeps its `=` |
| Helpers.StripKeepsNonSpace | V2/sec-spot/utils/helpers.py:39 | a character that is not white space survives the strip |
| Helpers.ParseOsRelease | V2/sec-spot/utils/helpers.py:35-40 | the loop over the lines builds the dictionary of the lines' key and value pairs |
| Helpers.ReleaseKeys | V2/sec-spot/utils/helpers.py:37-40 | a key is in the dictionary iff some line holding `=` has it |
| Helpers.LaterDuplicateWins | V2/sec-spot/utils/helpers.py:40 | the last line with a key decides its value |
| Helpers.LineWithoutEqualsIgnored | V2/sec-spot/utils/helpers.py:38 | a line without `=` changes nothing |
| Helpers.DistributionOf | V2/sec-spot/utils/helpers.py:42-45 | the distribution name and version are present iff their keys were found, with those values |
| Reverb.EnvelopeFor | services/reverb.py:63-70 | the event is the action prefixed with `agent.`, with the configured channel, server and version |
| Reverb.ReverbClient.Allocate | services/reverb.py:22-25 | a fresh instance has no attributes set and nothing sent |
| Reverb.ReverbClient.Init | services/reverb.py:27-32 | state is set only on the first initialisation; later ones change nothing |
| Reverb.ReverbClient.Connect | services/reverb.py:34-53 | attempts stop at the first success; the retry counter only grows and is never reset; the connection is kept only while the counter is below RETRIES, so with RETRIES == 0 it is always dropped |
| Reverb.ReverbClient.Send | services/reverb.py:55-78 | connect only without a connection; send nothing if there still is none; a failed send keeps the connection and sends nothing |
| Reverb.ReverbClient.Close | services/reverb.py:80-83 | a close is requested iff there is a connection |
| Reverb.Registry.constructor | services/reverb.py:19-20 | no instance exists yet |
| Reverb.Registry.Construct | services/reverb.py:22-32 | the first construction makes a fresh, initialised client; every later one returns the same object unchanged |
| Reverb.ConstructTwice | services/reverb.py:22-32 | two constructions give one object |
| SubscribeOnce.SubscribeStep | agent.py:20-46 | a send is requested iff the flag row was missing or 0, after which the flag is 1; otherwise the flag is kept |
| SubscribeOnce.AtMostOneRequest | agent.py:20-46 | any number of calls requests the subscription at most once, and never once the flag is set |
| SubscribeOnce.SettingsTable.constructor | agent.py:23-28 | the table holds the given flag and no request |
| SubscribeOnce.SettingsTable.SubscribeAgent | agent.py:20-46 | one call follows the subscribe step and requests at most one send |
| SubscribeOnce.StartAgent | agent.py:50-57 | without a socket `main` fails before touching the table; with one it subscribes; with RETRIES == 0 it always fails |
| LogMonitor.GetAllLogFiles | resource/log_monitoring.py:9-23 | the nested loops over the walk yield the accepted paths in walk order |
| LogMonitor.AcceptedInMembers | resource/log_monitoring.py:14-18 | a path is listed for a directory iff one of its names passes the filter and joins to it |
| LogMonitor.LogFilesOfMembers | resource/log_monitoring.py:14-18 | a path is listed iff some walked directory has an accepted name joining to it |
| LogMonitor.FilterExamples | resource/log_monitoring.py:17 | `auth.log`, `syslog.1` and `messages` pass the filter; `dmesg` does not |
| LogMonitor.LogMonitoring.constructor | resource/log_monitoring.py:4-7 | the base directory is kept and the log files are those of its walk |
| LogMonitor.LogMonitoring.ReadLogFile | resource/log_monitoring.py:25-36 | only a listed path is read; an unlisted path gives nothing and prints the not-found line, an unreadable listed one gives nothing and prints the read error with the exception's text |
| LogMonitor.LogMonitoring.AnalyzeLogs | resource/log_monitoring.py:25-46 | the printed lines are, file by file, a reading line, then the read error for an unreadable file, or the first 200 characters and a rule for a non-empty read |
| Text.Take | V2/sec-spot/agent.py:276 | `s[:n]`: the first n elements, or all of them when there are fewer; also the 200-character excerpt of resource/log_monitoring.py |
| LogMonitor.Dashes | resource/log_monitoring.py:46 | `"-" * n` is n dashes |
| LogMonitor.AnalysisOutputLength | resource/log_monitoring.py:25-46 | the output has one line per listed file, one more per unreadable file and two more per non-empty read |
| LogMonitor.Unreadable | resource/log_monitoring.py:29-33 | a file counts as unreadable iff it is listed and cannot be opened |
| LogMonitor.NonEmptyReads | resource/log_monitoring.py:40-46 | a file counts as a non-empty read iff it is listed, readable and non-empty |
| FrameServer.Granted | test.py:16-27 | `recv(n)` returns at most n bytes and at most what remains, and at least one while both are positive |
| FrameServer.BigEndian32 | test.py:19 | an unpacked header is below 2^32 |
| FrameServer.EncodeBigEndian32 | test.py:19 | a packed header has four bytes |
| FrameServer.HeaderRoundTrip | test.py:19 | unpacking a packed length gives the length |
| FrameServer.HeaderRoundTripBytes | test.py:19 | packing an unpacked header gives the header |
| FrameServer.ClientSocket.constructor | test.py:44 | a fresh socket over the given stream, with no reads made |
| FrameServer.ClientSocket.Recv | test.py:16-50 | `recv` returns the next granted bytes of the stream and consumes exactly them |
| FrameServer.ClientSocket.Close | test.py:84 | closing changes nothing but the flag |
| FrameServer.ReceiveSpec | test.py:13-39 | a framed read never adds bytes to the stream and always makes at least one `recv` |
| FrameServer.ReceiveSpecFrame | test.py:13-39 | `receive_data` returns a frame iff the full header arrives and the stream holds the whole payload; the frame is exactly the payload and the rest stays unread; an empty stream gives `None` |
| FrameServer.ReceiveData | test.py:13-39 | the frame, the bytes left and the read counter are those of the framed-read specification; the header read asks for 4 bytes and no later read for more than 1024 |
| FrameServer.ReceivePayload | test.py:22-32 | the loop returns the next n bytes iff the stream holds n, else `None` with the stream used up; the read counter follows the chunk count; the earlier requests are kept and no chunk asks for more than 1024 |
| FrameServer.ReadChunk | test.py:27-32 | one chunk request of `min(1024, remaining)` consumes exactly the granted bytes, and accounts for one read of the loop |
| FrameServer.PayloadConsumes | test.py:24-32 | the payload loop makes at least one read when bytes are wanted and at most one more than the bytes wanted |
| FrameServer.Lookup | test.py:62-65 | `.get(key, default)` gives the default when the key is absent and a value stored under the key when it is present |
| FrameServer.Keys | test.py:68-69 | iterating a dictionary yields its keys in order |
| FrameServer.DispatchOtherLines | test.py:56-77 | a failed receive (`None`) logs the `'NoneType' object has no attribute 'get'` error; an unknown type logs `Unknown data type received.` |
| FrameServer.DispatchResourceLines | test.py:60-65 | a resource message logs its header and its CPU, RAM, ROM and network values with `{}` defaults; a missing `data` logs the header and the `NoneType` `.get` error, a list `data` the header and the `list` `.get` error |
| FrameServer.DispatchTrafficLines | test.py:66-69 | a traffic message logs its header and then every packet, or every key of a dictionary; a missing `data` logs the header and the `'NoneType' object is not iterable` error |
| FrameServer.DispatchUserActivityLines | test.py:70-73 | a user-activity message logs its header and its logged-in users and running processes with `[]` defaults; a missing or list `data` logs the header and the `.get` error |
| FrameServer.ServeStep | test.py:48-56 | a round that is not shut down and whose leading read gets bytes contributes the message of the framed read after those bytes, and the session goes on from where that read stopped |
| FrameServer.ServeBounded | test.py:48-56 | every round consumes at least one byte, so a client gets at most as many rounds as it sent bytes |
| FrameServer.HandleClient | test.py:44-84 | the log is the greeting, the lines of every message the rounds receive from the original stream until shutdown or an empty leading read, and the closing line; the socket ends closed |
| FrameServer.ReceiveRound | test.py:50-56 | a round goes on iff its leading read gets bytes; then its message is the unpickled frame of the framed read that follows, and the socket stands where that read stopped |
| FrameServer.LeadingReadSwallowsFrame | test.py:44-84 | a client that sends one frame, taken whole by the leading 4096-byte read, gets exactly the greeting, the `'NoneType' object has no attribute 'get'` error and the closing line |

## Left out

- Threads, locks, `time.sleep`, signal registration and the `schedule` loops are not modelled. Each method is one atomic step, and the collectors' background loops become callbacks called with what they collected.
- The regular expressions become hand-written matchers over ASCII classes. `\d`, `\s` and `\w` are ASCII only; Unicode digits, spaces and word characters are out of scope.
- Floating point becomes `real`. The square root is a parameter meeting `SqrtSpec`; `round` and the `%.2f` rendering of byte sizes are not modelled.
- Python's `int()` is modelled without underscores between digits and without Unicode white space.
- JSON and pickle serialisation are left out. Messages are datatypes, and unpickling is a parameter function.
- Errors raised by `os.walk`, `open` and `recv` are left out, apart from a missing or unreadable file. That includes `ConnectionResetError` and exceptions raised by a callback or a send.
- `subprocess` calls are left out; their output is an input sequence of lines. The same goes for `platform.uname` and the other fields of `get_system_info`.
- `is_valid_json`, `run_command`, `is_port_open` and `get_file_hash` are left out: each is a thin wrapper over a library call with no logic of its own.
- `main.py`, `resource/trafic_monitoring.py`, `resource/resource_monitoring.py`, `resource/user_activity_monitoring.py`, `collectors/system_metrics.py` and `utils/logger.py` are not part of this model. They are samplers over OS interfaces and logging setup.
- In the V2 agent the security and log collectors' threads are one `collectorsRunning` flag. The network collector's `start`/`stop` are modelled.
- In the test receiver, unpickling yields a dictionary or fails. A message that unpickles to some other object raises a different `.get` error, and that text is not modelled. The `type` entry is `None` when it is missing or not a string, and packets and dictionary values are given as their text.
- `_handle_command` only logs, so only the classification of commands is modelled.
- `last_security_time` of the V2 agent is never read and is left out.
- Orchestrator.Agent.CollectAndAnalyzeMetrics: its link to `MetricsAnalysis.Evaluate` is stated only when the updated histories meet `Evaluable`. That is always so when the update completed, but the ensures keeps the guard.
- Helpers.UnitIndexIsLargestFit: for 0 bytes it only states index 0. The power condition is stated for the other values.
- Reverb.ReverbClient.Connect: with `RETRIES == 0` the loop runs until an attempt succeeds, so the method requires that some later attempt succeeds (`ConnectTerminates`).
- Orchestrator.LogPlan: its own ensures states only the size bound. The full shape is `Orchestrator.LogPlanShape`.
- Transport.WebSocketClient.SendMessage: its ensures does not list the fields that keep their values; only the socket, the flag and the sent messages are described.
- Reverb.ReverbClient.Send: when there was no connection, the ensures does not tie the retry counter and the attempts to what `Connect` would do; it states only whether something was sent.
- Config.ParseInt: Unicode decimal digits, which `int()` accepts, are not accepted; only ASCII digits are.
- SecurityCollection.SecurityCollector.constructor: a file that exists but cannot be read is treated as missing. The source keeps such a file, at position 0.
- Read positions of the log files are counted in characters, not bytes, and universal-newline translation of `\r\n` and `\r` is not modelled.

## Behaviour reproduced as written

These are modelled as the code behaves, not as its comments suggest:

- `SEND_ALL_LOGS` is always true: it is a one-element tuple (settings.py:19). See `Config.SendAllLogsAlwaysOn` and `Orchestrator.EveryLogBatchIsSent`.
- `_check_active_connections` always returns an empty list (security.py:223), so port-scan detection never fires in the running agent. See `SecurityAnalysis.NoPortScanFromCollector`.
- The network anomaly checks compare a delta against a baseline of cumulative counters (metrics_analyzer.py:94-114). See `MetricsAnalysis.DeltaBelowCountersNeverTriggers`.
- A zero RAM or disk total raises part way through `_update_history`, so the histories end up with different lengths. See `MetricsAnalysis.UpdatedHistories`.
- The first agent never awaits `send` (agent.py:41). The subscribe flag is set, but no message leaves.
- With `RETRIES == 0` the first client always drops its connection (reverb.py:49), so its `main` always fails. See `SubscribeOnce.StartAgent`.
- In `SecurityCollection`, the last pattern never tags a line, because an earlier pattern always matches first (`SecurityCollection.PamPatternNeverTags`).
- The test receiver's leading 4096-byte read drops data (test.py:50). See `FrameServer.LeadingReadSwallowsFrame`.

## Findings

| source | as written | input that shows it | evidently intended | confidence | as-written member | corrected member |
|---|---|---|---|---|---|---|
| V2/sec-spot/collectors/network_traffic.py:82-104 | when the callback refuses a batch, the code takes `self.lock` again while already holding it; the lock is a plain `threading.Lock`, so the thread blocks for good and the buffer, already emptied, is never restored | a collector with a callback, `max_packets` = 1, one IP packet and a callback that returns `False` | the refused batch is put back ahead of the buffer and the collector goes on; the collector class follows this | not executed | NetworkTraffic.RefusedBatchIsLost | NetworkTraffic.PutBackKeepsEverything |
