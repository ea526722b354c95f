/**
 * The threat correlation engine (analyzers/security_analyzer.py): per-IP
 * and per-username counters of authentication events, per-IP sets of
 * distinct local ports touched, thresholds on each, and three time windows
 * after which a whole table is cleared. Time is a parameter in seconds.
 */
module SecurityAnalysis {
  import opened Wrappers
  import opened Text
  import SC = SecurityCollection

  /** A detected threat, as the dictionaries the analyzer emits. */
  datatype Threat =
    | BruteForceIp(ip: string, count: nat, threshold: int)
    | BruteForceUser(username: string, count: nat, threshold: int)
    | PortScan(ip: string, ports: set<int>, count: nat, threshold: int)
  {
    /** The fixed `description` text of each kind. */
    function Description(): string {
      match this
      case BruteForceIp(ip, _, _) => "Possible brute force attack from IP " + ip
      case BruteForceUser(u, _, _) => "Possible brute force attack targeting user " + u
      case PortScan(ip, _, _, _) => "Possible port scanning from IP " + ip
    }
  }

  /** The dictionary `analyze` returns. */
  datatype Analysis = Analysis(threats: seq<Threat>, hasThreats: bool, numThreats: nat, analysisTime: real)

  /** The three limits; the agent uses the defaults 5, 3 and 10. */
  datatype Thresholds = Thresholds(ip: int, auth: int, scan: int)

  const DefaultThresholds: Thresholds := Thresholds(5, 3, 10)

  /** The window lengths in seconds: one hour, five minutes, one minute. */
  const IpWindow: real := 3600.0
  const AuthWindow: real := 300.0
  const ScanWindow: real := 60.0

  /** Usernames that are never tracked. */
  const SystemUsers: set<string> := {"root", "nobody", "daemon"}

  /** The analyzer's whole mutable state, as a value. */
  datatype Tracking = Tracking(
    ipActivity: map<string, nat>,
    authFailures: map<string, nat>,
    portScans: map<string, set<int>>,
    lastIpCleanup: real,
    lastAuthCleanup: real,
    lastScanCleanup: real)

  // ---------------------------------------------------------------------
  // The three regular expressions, written out.
  // ---------------------------------------------------------------------

  /** The end of a non-empty run of digits starting at `k`, followed by `groups - 1` more runs each after a `.`. */
  function DottedEnd(s: string, k: nat, groups: nat): (r: Option<nat>)
    requires k <= |s| && groups >= 1
    ensures r.Some? ==> k < r.value <= |s|
    ensures r.Some? ==> forall m :: k <= m < r.value ==> IsDigit(s[m]) || s[m] == '.'
    decreases groups
  {
    var j := Span(s, k, IsDigit);
    if j == k then None
    else if groups == 1 then Some(j)
    else if j < |s| && s[j] == '.' then DottedEnd(s, j + 1, groups - 1)
    else None
  }

  /** `from\s+(\d+\.\d+\.\d+\.\d+)` matched at position `i`: the captured address. */
  function IpAt(s: string, i: nat): (r: Option<string>)
    requires i <= |s|
    ensures r.Some? ==> r.value != [] && Contains(s, r.value)
    ensures r.Some? ==> forall c :: c in r.value ==> IsDigit(c) || c == '.'
  {
    if !HasAt(s, i, "from") then None
    else
      var k := Span(s, i + 4, IsSpace);
      if k == i + 4 then None
      else match DottedEnd(s, k, 4)
        case None => None
        case Some(e) =>
          assert HasAt(s, k, s[k..e]);
          Some(s[k..e])
  }

  /** The leftmost match at or after `i`. */
  function IpFrom(s: string, i: nat): (r: Option<string>)
    requires i <= |s|
    ensures r.Some? ==> r.value != [] && Contains(s, r.value)
    ensures r.Some? ==> forall c :: c in r.value ==> IsDigit(c) || c == '.'
    decreases |s| - i
  {
    match IpAt(s, i)
    case Some(ip) => Some(ip)
    case None => if i == |s| then None else IpFrom(s, i + 1)
  }

  /** `re.search(r'from\s+(\d+\.\d+\.\d+\.\d+)', entry).group(1)`. */
  function ExtractIp(entry: string): Option<string> {
    IpFrom(entry, 0)
  }

  /** `(?:user|for|USER)\s+(\w+)` matched at position `i`: the captured name. */
  function UserAt(s: string, i: nat): (r: Option<string>)
    requires i <= |s|
    ensures r.Some? ==> r.value != [] && Contains(s, r.value)
    ensures r.Some? ==> forall c :: c in r.value ==> IsWordChar(c)
  {
    var kw := if HasAt(s, i, "user") || HasAt(s, i, "USER") then 4 else if HasAt(s, i, "for") then 3 else 0;
    if kw == 0 then None
    else
      var k := Span(s, i + kw, IsSpace);
      if k == i + kw then None
      else
        var e := Span(s, k, IsWordChar);
        if e == k then None
        else
          assert HasAt(s, k, s[k..e]);
          Some(s[k..e])
  }

  function UserFrom(s: string, i: nat): (r: Option<string>)
    requires i <= |s|
    ensures r.Some? ==> r.value != [] && Contains(s, r.value)
    ensures r.Some? ==> forall c :: c in r.value ==> IsWordChar(c)
    decreases |s| - i
  {
    match UserAt(s, i)
    case Some(u) => Some(u)
    case None => if i == |s| then None else UserFrom(s, i + 1)
  }

  /** `re.search(r'(?:user|for|USER)\s+(\w+)', entry).group(1)`. */
  function ExtractUser(entry: string): Option<string> {
    UserFrom(entry, 0)
  }

  /**
   * `int(re.search(r':(\d+)$', local).group(1))`: the digits after the last
   * `:` when they run to the end; `$` also matches before one final newline.
   */
  function LocalPort(local: string): (r: Option<nat>)
    ensures r.Some? ==> ':' in local
  {
    var t := if EndsWith(local, "\n") then local[..|local| - 1] else local;
    match LastIndexOf(t, ':')
    case None => None
    case Some(j) =>
      var digits := t[j + 1..];
      assert local[j] == ':';
      if digits != [] && AllDigits(digits) then Some(DigitsValue(digits)) else None
  }

  // ---------------------------------------------------------------------
  // The specification of one call, step by step.
  // ---------------------------------------------------------------------

  function Count(m: map<string, nat>, k: string): nat {
    if k in m then m[k] else 0
  }

  function Ports(m: map<string, set<int>>, k: string): set<int> {
    if k in m then m[k] else {}
  }

  /** `_cleanup_old_data`: each window is cleared, and its time reset, only when strictly more than its length has passed. */
  function Cleanup(t: Tracking, now: real): (r: Tracking)
    ensures if now - t.lastIpCleanup > IpWindow
      then r.ipActivity == map[] && r.lastIpCleanup == now
      else r.ipActivity == t.ipActivity && r.lastIpCleanup == t.lastIpCleanup
    ensures if now - t.lastAuthCleanup > AuthWindow
      then r.authFailures == map[] && r.lastAuthCleanup == now
      else r.authFailures == t.authFailures && r.lastAuthCleanup == t.lastAuthCleanup
    ensures if now - t.lastScanCleanup > ScanWindow
      then r.portScans == map[] && r.lastScanCleanup == now
      else r.portScans == t.portScans && r.lastScanCleanup == t.lastScanCleanup
  {
    var t1 := if now - t.lastIpCleanup > IpWindow then t.(ipActivity := map[], lastIpCleanup := now) else t;
    var t2 := if now - t1.lastAuthCleanup > AuthWindow then t1.(authFailures := map[], lastAuthCleanup := now) else t1;
    if now - t2.lastScanCleanup > ScanWindow then t2.(portScans := map[], lastScanCleanup := now) else t2
  }

  /** The IP half of one authentication event: the counter of the extracted IP goes up by one, and a threat is due once it reaches the threshold. */
  function IpStep(m: map<string, nat>, entry: string, threshold: int): (r: (map<string, nat>, seq<Threat>))
    ensures ExtractIp(entry).None? ==> r == (m, [])
    ensures ExtractIp(entry).Some? ==>
      var ip := ExtractIp(entry).value;
      && r.0.Keys == m.Keys + {ip}
      && Count(r.0, ip) == Count(m, ip) + 1
      && (forall k :: k != ip ==> Count(r.0, k) == Count(m, k))
      && r.1 == (if Count(r.0, ip) >= threshold then [BruteForceIp(ip, Count(r.0, ip), threshold)] else [])
  {
    match ExtractIp(entry)
    case None => (m, [])
    case Some(ip) =>
      var m' := m[ip := Count(m, ip) + 1];
      (m', if m'[ip] >= threshold then [BruteForceIp(ip, m'[ip], threshold)] else [])
  }

  /** The username half: system accounts are skipped; any other name is counted and reported once it reaches the threshold. */
  function UserStep(m: map<string, nat>, entry: string, threshold: int): (r: (map<string, nat>, seq<Threat>))
    ensures ExtractUser(entry).None? || ExtractUser(entry).value in SystemUsers ==> r == (m, [])
    ensures ExtractUser(entry).Some? && ExtractUser(entry).value !in SystemUsers ==>
      var u := ExtractUser(entry).value;
      && r.0.Keys == m.Keys + {u}
      && Count(r.0, u) == Count(m, u) + 1
      && (forall k :: k != u ==> Count(r.0, k) == Count(m, k))
      && r.1 == (if Count(r.0, u) >= threshold then [BruteForceUser(u, Count(r.0, u), threshold)] else [])
  {
    match ExtractUser(entry)
    case None => (m, [])
    case Some(u) =>
      if u in SystemUsers then (m, [])
      else
        var m' := m[u := Count(m, u) + 1];
        (m', if m'[u] >= threshold then [BruteForceUser(u, m'[u], threshold)] else [])
  }

  /** One authentication event: the IP part, then the username part. */
  function AuthStep(t: Tracking, entry: string, th: Thresholds): (r: (Tracking, seq<Threat>))
    ensures r.0.portScans == t.portScans
    ensures (r.0.lastIpCleanup, r.0.lastAuthCleanup, r.0.lastScanCleanup) == (t.lastIpCleanup, t.lastAuthCleanup, t.lastScanCleanup)
  {
    var ipPart := IpStep(t.ipActivity, entry, th.ip);
    var userPart := UserStep(t.authFailures, entry, th.auth);
    (t.(ipActivity := ipPart.0, authFailures := userPart.0), ipPart.1 + userPart.1)
  }

  /** `_analyze_auth_events` over a batch, in order. */
  function AuthRun(t: Tracking, events: seq<SC.SuspiciousEntry>, th: Thresholds): (r: (Tracking, seq<Threat>))
    ensures r.0.portScans == t.portScans
    ensures (r.0.lastIpCleanup, r.0.lastAuthCleanup, r.0.lastScanCleanup) == (t.lastIpCleanup, t.lastAuthCleanup, t.lastScanCleanup)
    ensures |r.1| <= 2 * |events|
  {
    if events == [] then (t, [])
    else
      var prev := AuthRun(t, events[..|events| - 1], th);
      var step := AuthStep(prev.0, events[|events| - 1].entry, th);
      (step.0, prev.1 + step.1)
  }

  /**
   * One connection: with a remote IP and a local address ending in
   * `:digits`, the port joins that IP's set, and a threat carrying the
   * whole set is due once the set is large enough; otherwise nothing changes.
   */
  function NetStep(m: map<string, set<int>>, conn: SC.Connection, threshold: int): (r: (map<string, set<int>>, seq<Threat>))
    ensures conn.remoteIp == [] || LocalPort(conn.local).None? ==> r == (m, [])
    ensures conn.remoteIp != [] && LocalPort(conn.local).Some? ==>
      var ip := conn.remoteIp;
      var ports := Ports(m, ip) + {LocalPort(conn.local).value};
      && r.0 == m[ip := ports]
      && r.1 == (if |ports| >= threshold then [PortScan(ip, ports, |ports|, threshold)] else [])
  {
    if conn.remoteIp == [] then (m, [])
    else match LocalPort(conn.local)
      case None => (m, [])
      case Some(port) =>
        var m' := m[conn.remoteIp := Ports(m, conn.remoteIp) + {port}];
        var ports := m'[conn.remoteIp];
        (m', if |ports| >= threshold then [PortScan(conn.remoteIp, ports, |ports|, threshold)] else [])
  }

  /** `_analyze_network_events` over a batch, in order; the open-port list is not consulted. */
  function NetRun(t: Tracking, conns: seq<SC.Connection>, th: Thresholds): (r: (Tracking, seq<Threat>))
    ensures r.0 == t.(portScans := r.0.portScans)
    ensures |r.1| <= |conns|
  {
    if conns == [] then (t, [])
    else
      var prev := NetRun(t, conns[..|conns| - 1], th);
      var step := NetStep(prev.0.portScans, conns[|conns| - 1], th.scan);
      (prev.0.(portScans := step.0), prev.1 + step.1)
  }

  /**
   * `analyze`: clean up first, then the authentication, network and
   * process threats in that order (process analysis finds none).
   */
  function AnalyzeSpec(t: Tracking, events: SC.SecurityEvents, now: real, th: Thresholds): (r: (Tracking, Analysis))
    ensures r.1.hasThreats <==> r.1.threats != []
    ensures r.1.numThreats == |r.1.threats|
    ensures r.1.threats ==
      AuthRun(Cleanup(t, now), events.suspiciousLogins, th).1
      + NetRun(AuthRun(Cleanup(t, now), events.suspiciousLogins, th).0, events.activeConnections, th).1
  {
    var auth := AuthRun(Cleanup(t, now), events.suspiciousLogins, th);
    var net := NetRun(auth.0, events.activeConnections, th);
    var threats := auth.1 + net.1 + [];
    (net.0, Analysis(threats, |threats| > 0, |threats|, now))
  }

  // ---------------------------------------------------------------------
  // The analyzer object.
  // ---------------------------------------------------------------------

  class SecurityAnalyzer {
    const ipThreshold: int
    const authThreshold: int
    const scanThreshold: int
    var ipActivity: map<string, nat>
    var authFailures: map<string, nat>
    var portScans: map<string, set<int>>
    var lastIpCleanup: real
    var lastAuthCleanup: real
    var lastScanCleanup: real

    function State(): Tracking
      reads this
    {
      Tracking(ipActivity, authFailures, portScans, lastIpCleanup, lastAuthCleanup, lastScanCleanup)
    }

    function Limits(): Thresholds {
      Thresholds(ipThreshold, authThreshold, scanThreshold)
    }

    /** Empty tables, and all three windows starting at `now`. */
    constructor (ipThreshold: int, authThreshold: int, scanThreshold: int, now: real)
      ensures Limits() == Thresholds(ipThreshold, authThreshold, scanThreshold)
      ensures State() == Tracking(map[], map[], map[], now, now, now)
    {
      this.ipThreshold := ipThreshold;
      this.authThreshold := authThreshold;
      this.scanThreshold := scanThreshold;
      ipActivity := map[];
      authFailures := map[];
      portScans := map[];
      lastIpCleanup := now;
      lastAuthCleanup := now;
      lastScanCleanup := now;
    }

    method Analyze(events: SC.SecurityEvents, now: real) returns (analysis: Analysis)
      modifies this
      ensures (State(), analysis) == AnalyzeSpec(old(State()), events, now, Limits())
    {
      CleanupOldData(now);
      var authThreats := AnalyzeAuthEvents(events.suspiciousLogins);
      var networkThreats := AnalyzeNetworkEvents(events.activeConnections, events.openPorts);
      var processThreats := AnalyzeProcessEvents(events.suspiciousProcesses);
      var all := authThreats + networkThreats + processThreats;
      analysis := Analysis(all, |all| > 0, |all|, now);
    }

    method CleanupOldData(now: real)
      modifies this
      ensures State() == Cleanup(old(State()), now)
    {
      if now - lastIpCleanup > IpWindow {
        ipActivity := map[];
        lastIpCleanup := now;
      }
      if now - lastAuthCleanup > AuthWindow {
        authFailures := map[];
        lastAuthCleanup := now;
      }
      if now - lastScanCleanup > ScanWindow {
        portScans := map[];
        lastScanCleanup := now;
      }
    }

    method AnalyzeAuthEvents(events: seq<SC.SuspiciousEntry>) returns (threats: seq<Threat>)
      modifies this
      ensures (State(), threats) == AuthRun(old(State()), events, Limits())
    {
      threats := [];
      var i := 0;
      while i < |events|
        invariant 0 <= i <= |events|
        invariant (State(), threats) == AuthRun(old(State()), events[..i], Limits())
      {
        assert events[..i + 1][..i] == events[..i];
        var found := TrackAuthEvent(events[i].entry);
        threats := threats + found;
        i := i + 1;
      }
      assert events[..i] == events;
    }

    /** The body of the loop over authentication events: the IP counter, then the username counter. */
    method TrackAuthEvent(entry: string) returns (found: seq<Threat>)
      modifies this
      ensures (State(), found) == AuthStep(old(State()), entry, Limits())
    {
      found := [];
      var ip := ExtractIp(entry);
      if ip.Some? {
        ipActivity := ipActivity[ip.value := Count(ipActivity, ip.value) + 1];
        if ipActivity[ip.value] >= ipThreshold {
          found := [BruteForceIp(ip.value, ipActivity[ip.value], ipThreshold)];
        }
      }
      assert (ipActivity, found) == IpStep(old(ipActivity), entry, ipThreshold);
      ghost var ipFound := found;
      var user := ExtractUser(entry);
      if user.Some? && user.value !in SystemUsers {
        authFailures := authFailures[user.value := Count(authFailures, user.value) + 1];
        if authFailures[user.value] >= authThreshold {
          found := found + [BruteForceUser(user.value, authFailures[user.value], authThreshold)];
        }
      }
      assert authFailures == UserStep(old(authFailures), entry, authThreshold).0;
      assert found == ipFound + UserStep(old(authFailures), entry, authThreshold).1;
    }

    method AnalyzeNetworkEvents(conns: seq<SC.Connection>, openPorts: seq<SC.OpenPort>) returns (threats: seq<Threat>)
      modifies this
      ensures (State(), threats) == NetRun(old(State()), conns, Limits())
    {
      threats := [];
      var i := 0;
      while i < |conns|
        invariant 0 <= i <= |conns|
        invariant (State(), threats) == NetRun(old(State()), conns[..i], Limits())
      {
        assert conns[..i + 1][..i] == conns[..i];
        var found := TrackConnection(conns[i]);
        threats := threats + found;
        i := i + 1;
      }
      assert conns[..i] == conns;
    }

    /** The body of the loop over connections: record the local port against the remote address. */
    method TrackConnection(conn: SC.Connection) returns (found: seq<Threat>)
      modifies this
      ensures (portScans, found) == NetStep(old(portScans), conn, scanThreshold)
      ensures State() == old(State()).(portScans := portScans)
    {
      found := [];
      var remoteIp := conn.remoteIp;
      if remoteIp != [] {
        var port := LocalPort(conn.local);
        if port.Some? {
          portScans := portScans[remoteIp := Ports(portScans, remoteIp) + {port.value}];
          if |portScans[remoteIp]| >= scanThreshold {
            found := [PortScan(remoteIp, portScans[remoteIp], |portScans[remoteIp]|, scanThreshold)];
          }
        }
      }
    }

    /** `_analyze_process_events` is an unimplemented extension point. */
    method AnalyzeProcessEvents(procs: seq<SC.ProcessRecord>) returns (threats: seq<Threat>)
      ensures threats == []
    {
      threats := [];
    }
  }

  // ---------------------------------------------------------------------
  // Properties.
  // ---------------------------------------------------------------------

  /** The number of events whose entry names `ip` after `from`. */
  function IpHits(events: seq<SC.SuspiciousEntry>, ip: string): nat {
    if events == [] then 0
    else IpHits(events[..|events| - 1], ip) + (if ExtractIp(events[|events| - 1].entry) == Some(ip) then 1 else 0)
  }

  /** Each event naming `ip` adds exactly one to its counter, and nothing else does. */
  lemma {:induction false} IpCounterCountsEvents(t: Tracking, events: seq<SC.SuspiciousEntry>, th: Thresholds, ip: string)
    ensures Count(AuthRun(t, events, th).0.ipActivity, ip) == Count(t.ipActivity, ip) + IpHits(events, ip)
  {
    if events != [] {
      IpCounterCountsEvents(t, events[..|events| - 1], th, ip);
    }
  }

  /** `root`, `nobody` and `daemon` are never counted and never reported. */
  lemma {:induction false} SystemUsersIgnored(t: Tracking, events: seq<SC.SuspiciousEntry>, th: Thresholds)
    ensures forall u :: u in SystemUsers ==> Count(AuthRun(t, events, th).0.authFailures, u) == Count(t.authFailures, u)
    ensures forall x :: x in AuthRun(t, events, th).1 && x.BruteForceUser? ==> x.username !in SystemUsers
  {
    if events != [] {
      var init := events[..|events| - 1];
      SystemUsersIgnored(t, init, th);
      AuthStepIgnoresSystemUsers(AuthRun(t, init, th).0, events[|events| - 1].entry, th);
    }
  }

  lemma AuthStepIgnoresSystemUsers(t: Tracking, entry: string, th: Thresholds)
    ensures forall u :: u in SystemUsers ==> Count(AuthStep(t, entry, th).0.authFailures, u) == Count(t.authFailures, u)
    ensures forall x :: x in AuthStep(t, entry, th).1 && x.BruteForceUser? ==> x.username !in SystemUsers
  {
  }

  /** Every threat of the authentication pass met its threshold and reports the counter of its actor at that moment. */
  lemma {:induction false} AuthThreatsMeetThresholds(t: Tracking, events: seq<SC.SuspiciousEntry>, th: Thresholds)
    ensures forall x :: x in AuthRun(t, events, th).1 ==>
      (x.BruteForceIp? && x.count >= th.ip && x.threshold == th.ip && x.count <= Count(AuthRun(t, events, th).0.ipActivity, x.ip))
      || (x.BruteForceUser? && x.count >= th.auth && x.threshold == th.auth && x.count <= Count(AuthRun(t, events, th).0.authFailures, x.username))
  {
    if events != [] {
      var init := events[..|events| - 1];
      AuthThreatsMeetThresholds(t, init, th);
      var prev := AuthRun(t, init, th);
      AuthGrows(prev.0, events[|events| - 1].entry, th);
    }
  }

  /** One authentication event never lowers a counter. */
  lemma AuthGrows(t: Tracking, entry: string, th: Thresholds)
    ensures Grows(t, AuthStep(t, entry, th).0)
    ensures forall k :: Count(t.ipActivity, k) <= Count(AuthStep(t, entry, th).0.ipActivity, k)
    ensures forall k :: Count(t.authFailures, k) <= Count(AuthStep(t, entry, th).0.authFailures, k)
  {
  }

  /** `b` holds every key of `a` with at least its count, and every port set of `a` as a subset. */
  ghost predicate Grows(a: Tracking, b: Tracking) {
    && (forall k :: k in a.ipActivity ==> k in b.ipActivity && a.ipActivity[k] <= b.ipActivity[k])
    && (forall k :: k in a.authFailures ==> k in b.authFailures && a.authFailures[k] <= b.authFailures[k])
    && (forall k :: k in a.portScans ==> k in b.portScans && a.portScans[k] <= b.portScans[k])
  }

  lemma GrowsTransitive(a: Tracking, b: Tracking, c: Tracking)
    requires Grows(a, b) && Grows(b, c)
    ensures Grows(a, c)
  {
  }

  /** Between clears, the authentication pass only grows the tables: nothing is lowered or removed. */
  lemma {:induction false} AuthRunGrows(t: Tracking, events: seq<SC.SuspiciousEntry>, th: Thresholds)
    ensures Grows(t, AuthRun(t, events, th).0)
  {
    if events != [] {
      var prev := AuthRun(t, events[..|events| - 1], th);
      AuthRunGrows(t, events[..|events| - 1], th);
      AuthGrows(prev.0, events[|events| - 1].entry, th);
      GrowsTransitive(t, prev.0, AuthRun(t, events, th).0);
    }
  }

  /** One connection never removes a port from a set. */
  lemma NetGrows(t: Tracking, conn: SC.Connection, th: Thresholds)
    ensures Grows(t, t.(portScans := NetStep(t.portScans, conn, th.scan).0))
  {
  }

  /** Between clears, the network pass only grows the port sets. */
  lemma {:induction false} NetRunGrows(t: Tracking, conns: seq<SC.Connection>, th: Thresholds)
    ensures Grows(t, NetRun(t, conns, th).0)
  {
    if conns != [] {
      var prev := NetRun(t, conns[..|conns| - 1], th);
      NetRunGrows(t, conns[..|conns| - 1], th);
      NetGrows(prev.0, conns[|conns| - 1], th);
      GrowsTransitive(t, prev.0, NetRun(t, conns, th).0);
    }
  }

  /**
   * Every port-scan threat reports as its count the size of the distinct
   * port set it carries, which has reached the threshold and is contained
   * in the set tracked for that IP at the end.
   */
  lemma {:induction false} PortScanCountIsDistinctPorts(t: Tracking, conns: seq<SC.Connection>, th: Thresholds)
    ensures forall x :: x in NetRun(t, conns, th).1 ==>
      x.PortScan? && x.count == |x.ports| && x.count >= th.scan && x.ports <= Ports(NetRun(t, conns, th).0.portScans, x.ip)
  {
    if conns != [] {
      var init := conns[..|conns| - 1];
      PortScanCountIsDistinctPorts(t, init, th);
      var prev := NetRun(t, init, th);
      NetGrows(prev.0, conns[|conns| - 1], th);
    }
  }

  /** Touching a port already in an IP's set changes nothing, so the reported count stays the same. */
  lemma RevisitedPortAddsNothing(m: map<string, set<int>>, conn: SC.Connection, threshold: int)
    requires conn.remoteIp != [] && LocalPort(conn.local).Some?
    requires LocalPort(conn.local).value in Ports(m, conn.remoteIp)
    ensures NetStep(m, conn, threshold).0 == m
    ensures forall x :: x in NetStep(m, conn, threshold).1 ==> x.count == |Ports(m, conn.remoteIp)|
  {
    assert Ports(m, conn.remoteIp) + {LocalPort(conn.local).value} == Ports(m, conn.remoteIp);
    assert conn.remoteIp in m;
  }

  /** The collector never reports an active connection, so in the running agent port-scan detection never fires. */
  lemma NoPortScanFromCollector(t: Tracking, events: SC.SecurityEvents, now: real, th: Thresholds)
    requires events.activeConnections == []
    ensures forall x :: x in AnalyzeSpec(t, events, now, th).1.threats ==> !x.PortScan?
    ensures AnalyzeSpec(t, events, now, th).0.portScans == Cleanup(t, now).portScans
  {
    AuthThreatsMeetThresholds(Cleanup(t, now), events.suspiciousLogins, th);
    assert NetRun(AuthRun(Cleanup(t, now), events.suspiciousLogins, th).0, [], th).1 == [];
  }

  // ---------------------------------------------------------------------
  // Worked examples.
  // ---------------------------------------------------------------------

  /** A match of `t` begins with `t`'s first character. */
  lemma HasAtFirst(s: string, i: nat, t: string)
    requires t != []
    ensures HasAt(s, i, t) ==> s[i] == t[0]
  {
    if HasAt(s, i, t) {
      assert s[i..i + |t|][0] == s[i];
    }
  }

  /** No match can start where there is no `f`, so the search passes over such a stretch. */
  lemma {:induction false} IpFromSkips(s: string, i: nat, j: nat)
    requires i <= j <= |s|
    requires 'f' !in s[i..j]
    ensures IpFrom(s, i) == IpFrom(s, j)
    decreases j - i
  {
    if i < j {
      assert s[i..j][0] == s[i] && s[i + 1..j] == s[i..j][1..];
      HasAtFirst(s, i, "from");
      IpFromSkips(s, i + 1, j);
    }
  }

  /** No user match can start where there is no `u`, `U` or `f`, so the search passes over such a stretch. */
  lemma {:induction false} UserFromSkips(s: string, i: nat, j: nat)
    requires i <= j <= |s|
    requires 'u' !in s[i..j] && 'U' !in s[i..j] && 'f' !in s[i..j]
    ensures UserFrom(s, i) == UserFrom(s, j)
    decreases j - i
  {
    if i < j {
      assert s[i..j][0] == s[i] && s[i + 1..j] == s[i..j][1..];
      HasAtFirst(s, i, "user");
      HasAtFirst(s, i, "USER");
      HasAtFirst(s, i, "for");
      UserFromSkips(s, i + 1, j);
    }
  }

  // ---------------------------------------------------------------------
  // What the searches find on an sshd line.
  // ---------------------------------------------------------------------

  function Moved(r: Option<nat>, d: nat): Option<nat> {
    if r.Some? then Some(r.value + d) else None
  }

  /** The dotted scan after a prefix is the scan of the rest, moved by the prefix's length. */
  lemma {:induction false} DottedPrefix(a: string, b: string, k: nat, groups: nat)
    requires k <= |b| && groups >= 1
    ensures DottedEnd(a + b, |a| + k, groups) == Moved(DottedEnd(b, k, groups), |a|)
    decreases groups
  {
    SpanPrefix(a, b, k, IsDigit);
    var j := Span(b, k, IsDigit);
    if j != k && groups > 1 && j < |b| {
      assert (a + b)[|a| + j] == b[j];
      if b[j] == '.' {
        DottedPrefix(a, b, j + 1, groups - 1);
      }
    }
  }

  /** A dotted run that fills `b` is not extended by text that does not start with a digit. */
  lemma {:induction false} DottedSuffix(b: string, c: string, k: nat, groups: nat)
    requires k <= |b| && groups >= 1
    requires DottedEnd(b, k, groups) == Some(|b|)
    requires c == [] || !IsDigit(c[0])
    ensures DottedEnd(b + c, k, groups) == Some(|b|)
    decreases groups
  {
    SpanSuffix(b, c, k, IsDigit);
    if groups > 1 {
      var j := Span(b, k, IsDigit);
      assert (b + c)[j] == b[j];
      DottedSuffix(b, c, j + 1, groups - 1);
    }
  }

  /** The user pattern matches at `i` when `user`, some white space and a run of word characters follow one another there. */
  lemma UserAtFinds(s: string, i: nat, k: nat, e: nat)
    requires i <= |s| && HasAt(s, i, "user")
    requires i + 4 < k && Span(s, i + 4, IsSpace) == k
    requires k < e && Span(s, k, IsWordChar) == e
    ensures UserAt(s, i) == Some(s[k..e])
  {
  }

  /**
   * On an sshd line `Invalid user <name> from <ip>…`, the address search
   * finds the dotted address after `from` and the user search the name
   * after `user` (a name without `f`, so that no earlier `from` can start in it).
   */
  lemma InvalidUserLine(name: string, ip: string, rest: string)
    requires name != [] && forall c :: c in name ==> IsWordChar(c) && c != 'f'
    requires DottedEnd(ip, 0, 4) == Some(|ip|)
    requires rest == [] || !IsDigit(rest[0])
    ensures ExtractIp("Invalid user " + name + " from " + ip + rest) == Some(ip)
    ensures ExtractUser("Invalid user " + name + " from " + ip + rest) == Some(name)
  {
    InvalidUserIp(name, ip, rest);
    InvalidUserName(name, ip, rest);
  }

  lemma InvalidUserIp(name: string, ip: string, rest: string)
    requires forall c :: c in name ==> c != 'f'
    requires DottedEnd(ip, 0, 4) == Some(|ip|)
    requires rest == [] || !IsDigit(rest[0])
    ensures ExtractIp("Invalid user " + name + " from " + ip + rest) == Some(ip)
  {
    var x := "Invalid user " + name + " ";
    Regroup("Invalid user ", name, ip, rest);
    LineParts(x, "from ", ip, rest);
    NoLetterF(name);
    IpFromFound((x + "from ") + (ip + rest), |x|, ip);
  }

  lemma Regroup(a: string, n: string, ip: string, r: string)
    ensures a + n + " from " + ip + r == (a + n + " " + "from ") + (ip + r)
  {
  }

  lemma NoLetterF(name: string)
    requires forall c :: c in name ==> c != 'f'
    ensures 'f' !in "Invalid user " + name + " "
  {
    assert 'f' !in "Invalid user ";
  }

  /** Where the pieces of `x + kw + m + rest` sit, for a five-character keyword `kw`. */
  lemma LineParts(x: string, kw: string, m: string, rest: string)
    requires |kw| == 5
    ensures var line := (x + kw) + (m + rest);
      && |line| == |x| + 5 + |m| + |rest|
      && line[..|x|] == x
      && line[|x|..|x| + 5] == kw
      && line[|x| + 5..|x| + 5 + |m|] == m
      && (|x| + 5 + |m| < |line| ==> line[|x| + 5 + |m|] == rest[0])
  {
    var line := (x + kw) + (m + rest);
    assert line[..|x|] == x;
    assert line[|x|..|x| + 5] == kw;
    assert line[|x| + 5..|x| + 5 + |m|] == m;
  }


  /** No `f` before `from ` at `i` and a dotted address after it: that address is the first one found. */
  lemma IpFromFound(s: string, i: nat, ip: string)
    requires i + 5 + |ip| <= |s| && 'f' !in s[..i] && s[i..i + 5] == "from "
    requires s[i + 5..i + 5 + |ip|] == ip && DottedEnd(ip, 0, 4) == Some(|ip|)
    requires i + 5 + |ip| == |s| || !IsDigit(s[i + 5 + |ip|])
    ensures IpFrom(s, 0) == Some(ip)
  {
    AddressFound(s, i, i + 5, ip);
    assert s[0..i] == s[..i];
    IpFromSkips(s, 0, i);
  }

  /** `from ` at `i`, then a dotted address not followed by a digit: the IP pattern captures the address. */
  lemma AddressFound(s: string, i: nat, k: nat, ip: string)
    requires i + 5 == k && k + |ip| <= |s| && s[i..k] == "from "
    requires s[k..k + |ip|] == ip && DottedEnd(ip, 0, 4) == Some(|ip|)
    requires k + |ip| == |s| || !IsDigit(s[k + |ip|])
    ensures IpAt(s, i) == Some(ip)
  {
    DottedAt(s, k, ip, 4);
    AddressAt(s, i, k, ip);
  }

  /** `from ` at `i`, then a dotted address at `k` ending where the scan stops: the IP pattern captures it. */
  lemma AddressAt(s: string, i: nat, k: nat, ip: string)
    requires i + 5 == k && k + |ip| <= |s| && s[i..k] == "from "
    requires s[k..k + |ip|] == ip
    requires DottedEnd(s, k, 4) == Some(k + |ip|)
    ensures IpAt(s, i) == Some(ip)
  {
    assert s[i..i + 4] == s[i..k][..4];
    assert s[i + 4] == s[i..k][4];
    SpanOne(s, i + 4, IsSpace);
    IpAtFinds(s, i, k, k + |ip|);
  }

  /** A dotted address at `k` not followed by a digit is scanned to its end. */
  lemma DottedAt(s: string, k: nat, ip: string, groups: nat)
    requires k + |ip| <= |s| && s[k..k + |ip|] == ip
    requires groups >= 1 && DottedEnd(ip, 0, groups) == Some(|ip|)
    requires k + |ip| == |s| || !IsDigit(s[k + |ip|])
    ensures DottedEnd(s, k, groups) == Some(k + |ip|)
  {
    var rest := s[k + |ip|..];
    var p := s[..k];
    assert rest == [] || rest[0] == s[k + |ip|];
    assert s == p + (ip + rest);
    DottedAfter(p, ip, rest, groups);
    assert |p| == k;
  }

  /** The IP pattern matches at `i` when `from`, some white space and a dotted address follow one another there. */
  lemma IpAtFinds(s: string, i: nat, k: nat, e: nat)
    requires i <= |s| && HasAt(s, i, "from")
    requires i + 4 < k && Span(s, i + 4, IsSpace) == k
    requires DottedEnd(s, k, 4) == Some(e)
    ensures IpAt(s, i) == Some(s[k..e])
  {
  }

  /** A dotted address after a prefix and before a non-digit is scanned to its end. */
  lemma DottedAfter(p: string, ip: string, rest: string, groups: nat)
    requires groups >= 1 && DottedEnd(ip, 0, groups) == Some(|ip|)
    requires rest == [] || !IsDigit(rest[0])
    ensures DottedEnd(p + (ip + rest), |p|, groups) == Some(|p| + |ip|)
  {
    DottedSuffix(ip, rest, 0, groups);
    DottedPrefix(p, ip + rest, 0, groups);
  }

  lemma InvalidUserName(name: string, ip: string, rest: string)
    requires name != [] && forall c :: c in name ==> IsWordChar(c)
    ensures ExtractUser("Invalid user " + name + " from " + ip + rest) == Some(name)
  {
    var r := " from " + ip + rest;
    RegroupUser(name, ip, rest);
    LineParts("Invalid ", "user ", name, r);
    assert 'u' !in "Invalid " && 'U' !in "Invalid " && 'f' !in "Invalid ";
    UserFromFound(("Invalid " + "user ") + (name + r), |"Invalid "|, name);
  }

  lemma RegroupUser(name: string, ip: string, rest: string)
    ensures "Invalid user " + name + " from " + ip + rest == ("Invalid " + "user ") + (name + (" from " + ip + rest))
  {
  }

  /** No `u`, `U` or `f` before `user ` at `i` and a word after it: that word is the first user found. */
  lemma UserFromFound(s: string, i: nat, name: string)
    requires i + 5 + |name| <= |s| && s[i..i + 5] == "user "
    requires 'u' !in s[..i] && 'U' !in s[..i] && 'f' !in s[..i]
    requires s[i + 5..i + 5 + |name|] == name && name != [] && forall c :: c in name ==> IsWordChar(c)
    requires i + 5 + |name| == |s| || !IsWordChar(s[i + 5 + |name|])
    ensures UserFrom(s, 0) == Some(name)
  {
    NameFound(s, i, name);
    assert s[0..i] == s[..i];
    UserFromSkips(s, 0, i);
  }

  /** `user ` at `i`, then a run of word characters not followed by one: the user pattern captures the run. */
  lemma NameFound(s: string, i: nat, name: string)
    requires i + 5 + |name| <= |s| && s[i..i + 5] == "user "
    requires s[i + 5..i + 5 + |name|] == name && name != [] && forall c :: c in name ==> IsWordChar(c)
    requires i + 5 + |name| == |s| || !IsWordChar(s[i + 5 + |name|])
    ensures UserAt(s, i) == Some(name)
  {
    assert s[i..i + 4] == s[i..i + 5][..4];
    assert s[i + 4] == s[i..i + 5][4];
    assert name[0] in name && s[i + 5] == name[0];
    SpanOne(s, i + 4, IsSpace);
    WordSpan(s, i + 5, name);
    UserAtFinds(s, i, i + 5, i + 5 + |name|);
  }

  /** A run of word characters at `k` not followed by one is scanned to its end. */
  lemma WordSpan(s: string, k: nat, t: string)
    requires k + |t| <= |s| && s[k..k + |t|] == t && forall c :: c in t ==> IsWordChar(c)
    requires k + |t| == |s| || !IsWordChar(s[k + |t|])
    ensures Span(s, k, IsWordChar) == k + |t|
  {
    var p := s[..k];
    var r := s[k + |t|..];
    assert r == [] || r[0] == s[k + |t|];
    assert s == p + (t + r);
    assert Span(t, 0, IsWordChar) == |t|;
    SpanSuffix(t, r, 0, IsWordChar);
    SpanPrefix(p, t + r, 0, IsWordChar);
    assert |p| == k;
  }

  /** The IP after `from` and the name after `user` on a typical sshd line. */
  lemma ExtractionExample()
    ensures ExtractIp("Invalid user " + "alice" + " from " + "10.0.0.7" + " port 22") == Some("10.0.0.7")
    ensures ExtractUser("Invalid user " + "alice" + " from " + "10.0.0.7" + " port 22") == Some("alice")
  {
    DottedExample();
    assert " port 22"[0] == ' ';
    InvalidUserLine("alice", "10.0.0.7", " port 22");
  }

  lemma DottedExample()
    ensures DottedEnd("10.0.0.7", 0, 4) == Some(8)
  {
    var s := "10.0.0.7";
    assert Span(s, 0, IsDigit) == 2;
    assert Span(s, 3, IsDigit) == 4;
    assert Span(s, 5, IsDigit) == 6;
    assert Span(s, 7, IsDigit) == 8;
  }
}
