/**
 * The security collector (collectors/security.py): incremental scanning of
 * authentication logs for suspicious lines, and the parsing of `netstat`
 * and `ps` output. Log files are a map from path to text; a path that is
 * missing stands for a file that does not exist or cannot be read. Command
 * output is given as its lines, or `None` when the command failed.
 */
module SecurityCollection {
  import opened Wrappers
  import opened Text

  /** One suspicious log line, tagged with the text of the pattern that matched it. */
  datatype SuspiciousEntry = SuspiciousEntry(logFile: string, entry: string, pattern: string)

  /** One listening socket reported by `netstat -tulpn`. */
  datatype OpenPort = OpenPort(port: string, address: string, program: string)

  /** One established connection reported by `netstat -tn`. */
  datatype Connection = Connection(local: string, remote: string, remoteIp: string)

  /** A suspicious process; the collector never reports one. */
  datatype ProcessRecord = ProcessRecord(line: string)

  /** The dictionary `check_security` returns. */
  datatype SecurityEvents = SecurityEvents(
    timestamp: string,
    suspiciousLogins: seq<SuspiciousEntry>,
    openPorts: seq<OpenPort>,
    activeConnections: seq<Connection>,
    suspiciousProcesses: seq<ProcessRecord>,
    totalSuspicious: nat)

  /** The log files the collector looks for, in order. */
  const CandidateLogFiles: seq<string> := ["/var/log/auth.log", "/var/log/secure", "/var/log/syslog", "/var/log/messages"]

  /** The pattern texts, in the order they are tried. */
  const SuspiciousPatterns: seq<string> := [
    "Failed password for .* from",
    "Invalid user .* from",
    "authentication failure",
    "POSSIBLE BREAK-IN ATTEMPT",
    "refused connect from",
    "pam_unix\\(sshd:auth\\): authentication failure"
  ]

  /** `a.*b` found with `a` at `i` and `b` at `j`: the gap holds no newline, as `.` does not match one. */
  predicate GapAt(s: string, i: nat, j: nat, a: string, b: string) {
    HasAt(s, i, a) && i + |a| <= j && HasAt(s, j, b) && '\n' !in s[i + |a|..j]
  }

  /** `re.search("a.*b", s)` for literal `a` and `b`. */
  predicate GapMatch(s: string, a: string, b: string) {
    exists i: nat, j: nat | i <= j <= |s| :: GapAt(s, i, j, a, b)
  }

  /** Whether the pattern at index `k` of `SuspiciousPatterns` matches `line`. */
  predicate PatternMatches(k: nat, line: string)
    requires k < |SuspiciousPatterns|
  {
    match k
    case 0 => GapMatch(line, "Failed password for ", " from")
    case 1 => GapMatch(line, "Invalid user ", " from")
    case 2 => Contains(line, "authentication failure")
    case 3 => Contains(line, "POSSIBLE BREAK-IN ATTEMPT")
    case 4 => Contains(line, "refused connect from")
    // the PAM prefix followed by the text of pattern 2
    case _ => Contains(line, "pam_unix(sshd:auth): " + "authentication failure")
  }

  /** The index of the first pattern, from `k` on, that matches `line`. */
  function FirstMatchFrom(line: string, k: nat): (r: Option<nat>)
    requires k <= |SuspiciousPatterns|
    ensures r.Some? ==> k <= r.value < |SuspiciousPatterns| && PatternMatches(r.value, line)
    ensures r.Some? ==> forall j :: k <= j < r.value ==> !PatternMatches(j, line)
    ensures r.None? ==> forall j :: k <= j < |SuspiciousPatterns| ==> !PatternMatches(j, line)
    decreases |SuspiciousPatterns| - k
  {
    if k == |SuspiciousPatterns| then None
    else if PatternMatches(k, line) then Some(k)
    else FirstMatchFrom(line, k + 1)
  }

  function FirstMatch(line: string): Option<nat> {
    FirstMatchFrom(line, 0)
  }

  /** The last pattern is subsumed by the third: it never tags a line. */
  lemma PamPatternNeverTags(line: string)
    ensures FirstMatch(line) != Some(5)
  {
    if PatternMatches(5, line) {
      var i: nat :| i <= |line| && HasAt(line, i, "pam_unix(sshd:auth): " + "authentication failure");
      HasAtConcat(line, i, "pam_unix(sshd:auth): ", "authentication failure");
      assert PatternMatches(2, line);
    }
  }

  lemma HasAtConcat(s: string, i: nat, a: string, b: string)
    requires HasAt(s, i, a + b)
    ensures HasAt(s, i + |a|, b)
  {
    assert s[i + |a|..i + |a| + |b|] == s[i..i + |a| + |b|][|a|..];
  }

  /** What the scan of one file's new lines contributes: one entry per line that matches some pattern. */
  function TagLines(path: string, lines: seq<string>): (r: seq<SuspiciousEntry>)
    ensures |r| <= |lines|
  {
    if lines == [] then []
    else
      var rest := TagLines(path, lines[..|lines| - 1]);
      var line := lines[|lines| - 1];
      match FirstMatch(line)
      case None => rest
      case Some(k) => rest + [SuspiciousEntry(path, Strip(line), SuspiciousPatterns[k])]
  }

  function Position(p: map<string, nat>, f: string): nat {
    if f in p then p[f] else 0
  }

  /** The entries and read positions after scanning `files` in order. */
  function ScanFiles(files: seq<string>, pos: map<string, nat>, fs: map<string, string>): (r: (seq<SuspiciousEntry>, map<string, nat>))
  {
    if files == [] then ([], pos)
    else ScanFile(ScanFiles(files[..|files| - 1], pos, fs), files[|files| - 1], fs)
  }

  /** Scanning one more file `f`: a file that cannot be read is skipped and keeps its position. */
  function ScanFile(acc: (seq<SuspiciousEntry>, map<string, nat>), f: string, fs: map<string, string>): (seq<SuspiciousEntry>, map<string, nat>)
  {
    if f !in fs then acc
    else
      var content := fs[f];
      var pos := Position(acc.1, f);
      (acc.0 + TagLines(f, UnreadLines(content, pos)), acc.1[f := PositionAfterRead(content, pos)])
  }

  /** The inner loop of `_check_auth_logs` over one file's new lines. */
  method TagNewLines(path: string, lines: seq<string>) returns (tagged: seq<SuspiciousEntry>)
    ensures tagged == TagLines(path, lines)
  {
    tagged := [];
    var j := 0;
    while j < |lines|
      invariant 0 <= j <= |lines|
      invariant tagged == TagLines(path, lines[..j])
    {
      assert lines[..j + 1][..j] == lines[..j];
      var k := FirstMatch(lines[j]);
      if k.Some? {
        tagged := tagged + [SuspiciousEntry(path, Strip(lines[j]), SuspiciousPatterns[k.value])];
      }
      j := j + 1;
    }
    assert lines[..j] == lines;
  }

  /** The open-port record a `netstat -tulpn` line yields, if any. */
  function OpenPortOf(line: string): (r: Option<OpenPort>)
    ensures r.Some? ==> Contains(line, "LISTEN") && |Fields(line)| >= 7
    ensures r.Some? ==> r.value.address == Fields(line)[3] && r.value.port == LastPiece(Fields(line)[3], ':')
    ensures r.Some? ==> r.value.program == (if '/' in Fields(line)[6] then SecondPiece(Fields(line)[6], '/') else Fields(line)[6])
    ensures Contains(line, "LISTEN") && |Fields(line)| >= 7 ==> r.Some?
  {
    if Contains(line, "LISTEN") then
      var parts := Fields(line);
      if |parts| >= 7 then
        var address := parts[3];
        var program := if '/' in parts[6] then SecondPiece(parts[6], '/') else parts[6];
        Some(OpenPort(LastPiece(address, ':'), address, program))
      else None
    else None
  }

  /** The records of all lines, in order. */
  function OpenPortsOf(lines: seq<string>): seq<OpenPort> {
    if lines == [] then []
    else
      var rest := OpenPortsOf(lines[..|lines| - 1]);
      match OpenPortOf(lines[|lines| - 1])
      case None => rest
      case Some(p) => rest + [p]
  }

  /** The connection record a `netstat -tn` line yields, if any. */
  function ConnectionOf(line: string): (r: Option<Connection>)
    ensures r.Some? <==> Contains(line, "ESTABLISHED") && |Fields(line)| >= 5
    ensures r.Some? ==> r.value.local == Fields(line)[3] && r.value.remote == Fields(line)[4]
    ensures r.Some? ==> ':' !in r.value.remoteIp && StartsWith(r.value.remote, r.value.remoteIp)
    ensures r.Some? && ':' !in r.value.remote ==> r.value.remoteIp == r.value.remote
    ensures r.Some? && ':' in r.value.remote ==>
      |r.value.remoteIp| < |r.value.remote| && r.value.remote[|r.value.remoteIp|] == ':'
  {
    if Contains(line, "ESTABLISHED") then
      var parts := Fields(line);
      if |parts| >= 5 then
        Some(Connection(parts[3], parts[4], FirstPiece(parts[4], ':')))
      else None
    else None
  }

  function ConnectionsOf(lines: seq<string>): seq<Connection> {
    if lines == [] then []
    else
      var rest := ConnectionsOf(lines[..|lines| - 1]);
      match ConnectionOf(lines[|lines| - 1])
      case None => rest
      case Some(c) => rest + [c]
  }

  /** `total_suspicious`: the lengths of the four lists added up; the timestamp is not a list and does not count. */
  function TotalSuspicious(
    logins: seq<SuspiciousEntry>, ports: seq<OpenPort>, conns: seq<Connection>, procs: seq<ProcessRecord>): nat
  {
    |logins| + |ports| + |conns| + |procs|
  }

  /** `_check_open_ports`: a failed command yields no records. */
  method CheckOpenPorts(output: Option<seq<string>>) returns (ports: seq<OpenPort>)
    ensures output.None? ==> ports == []
    ensures output.Some? ==> ports == OpenPortsOf(output.value)
  {
    ports := [];
    if output.None? {
      return;
    }
    var lines := output.value;
    var i := 0;
    while i < |lines|
      invariant 0 <= i <= |lines|
      invariant ports == OpenPortsOf(lines[..i])
    {
      assert lines[..i + 1][..i] == lines[..i];
      var rec := OpenPortOf(lines[i]);
      if rec.Some? {
        ports := ports + [rec.value];
      }
      i := i + 1;
    }
    assert lines[..i] == lines;
  }

  /** The parsing loop of `_check_active_connections`. */
  method ParseConnections(lines: seq<string>) returns (conns: seq<Connection>)
    ensures conns == ConnectionsOf(lines)
  {
    conns := [];
    var i := 0;
    while i < |lines|
      invariant 0 <= i <= |lines|
      invariant conns == ConnectionsOf(lines[..i])
    {
      assert lines[..i + 1][..i] == lines[..i];
      var rec := ConnectionOf(lines[i]);
      if rec.Some? {
        conns := conns + [rec.value];
      }
      i := i + 1;
    }
    assert lines[..i] == lines;
  }

  /** `_check_active_connections`: the connections are parsed and then dropped; the result is always empty. */
  method CheckActiveConnections(output: Option<seq<string>>) returns (suspicious: seq<Connection>)
    ensures suspicious == []
  {
    suspicious := [];
    if output.Some? {
      var connections := ParseConnections(output.value);
    }
  }

  /** `_check_suspicious_processes`: the listing is taken and nothing is ever reported. */
  method CheckSuspiciousProcesses(output: Option<seq<string>>) returns (procs: seq<ProcessRecord>)
    ensures procs == []
  {
    procs := [];
  }

  class SecurityCollector {
    /** The candidate log files that existed when the collector was built, in candidate order. */
    const logFiles: seq<string>
    /** The read position of each log file, in characters. */
    var positions: map<string, nat>

    ghost predicate Valid()
      reads this
    {
      forall f :: f in logFiles ==> f in positions
    }

    constructor (fs: map<string, string>)
      ensures Valid()
      ensures logFiles == FilterExisting(CandidateLogFiles, fs)
      ensures forall f :: f in logFiles ==> positions[f] == 0
    {
      logFiles := FilterExisting(CandidateLogFiles, fs);
      positions := map f | f in FilterExisting(CandidateLogFiles, fs) :: 0;
    }

    /** The start of `_monitor_security`: every readable file's position is put at its end. */
    method SeedPositions(fs: map<string, string>)
      requires Valid()
      modifies this
      ensures Valid()
      ensures forall f :: f in logFiles ==> positions[f] == if f in fs then |fs[f]| else old(positions[f])
    {
      var i := 0;
      while i < |logFiles|
        invariant 0 <= i <= |logFiles|
        invariant Valid()
        invariant forall f :: f in logFiles && f !in logFiles[..i] ==> positions[f] == old(positions[f])
        invariant forall f :: f in logFiles[..i] ==> positions[f] == if f in fs then |fs[f]| else old(positions[f])
      {
        var f := logFiles[i];
        if f in fs {
          positions := positions[f := |fs[f]|];
        }
        assert logFiles[..i + 1] == logFiles[..i] + [f];
        i := i + 1;
      }
      assert logFiles[..i] == logFiles;
    }

    /** `_check_auth_logs`: scan each file from its position, tag suspicious lines, advance the positions. */
    method CheckAuthLogs(fs: map<string, string>) returns (entries: seq<SuspiciousEntry>)
      requires Valid()
      modifies this
      ensures Valid()
      ensures (entries, positions) == ScanFiles(logFiles, old(positions), fs)
    {
      entries := [];
      ghost var pos0 := positions;
      var i := 0;
      while i < |logFiles|
        invariant 0 <= i <= |logFiles|
        invariant (entries, positions) == ScanFiles(logFiles[..i], pos0, fs)
        invariant forall f :: f in logFiles ==> f in positions
      {
        assert logFiles[..i + 1][..i] == logFiles[..i];
        entries := CheckAuthLog(logFiles[i], fs, entries);
        i := i + 1;
      }
      assert logFiles[..i] == logFiles;
    }

    /** One file of `_check_auth_logs`: if it can be read, tag its lines from its position to its end. */
    method CheckAuthLog(f: string, fs: map<string, string>, entries0: seq<SuspiciousEntry>) returns (entries: seq<SuspiciousEntry>)
      requires f in positions
      modifies this
      ensures (entries, positions) == ScanFile((entries0, old(positions)), f, fs)
      ensures positions.Keys == old(positions).Keys + (if f in fs then {f} else {})
    {
      entries := entries0;
      if f in fs {
        var content := fs[f];
        var pos := positions[f];
        var tagged := TagNewLines(f, UnreadLines(content, pos));
        entries := entries + tagged;
        positions := positions[f := PositionAfterRead(content, pos)];
      }
    }

    /**
     * `check_security`: the four checks in order and their total. The
     * outputs of `netstat -tulpn`, `netstat -tn` and `ps aux` are inputs.
     */
    method CheckSecurity(fs: map<string, string>, listening: Option<seq<string>>,
                         established: Option<seq<string>>, processes: Option<seq<string>>,
                         timestamp: string)
      returns (ev: SecurityEvents)
      requires Valid()
      modifies this
      ensures Valid()
      ensures (ev.suspiciousLogins, positions) == ScanFiles(logFiles, old(positions), fs)
      ensures ev.openPorts == (if listening.None? then [] else OpenPortsOf(listening.value))
      ensures ev.activeConnections == [] && ev.suspiciousProcesses == []
      ensures ev.totalSuspicious == |ev.suspiciousLogins| + |ev.openPorts|
      ensures ev.timestamp == timestamp
    {
      var logins := CheckAuthLogs(fs);
      var ports := CheckOpenPorts(listening);
      var conns := CheckActiveConnections(established);
      var procs := CheckSuspiciousProcesses(processes);
      ev := SecurityEvents(timestamp, logins, ports, conns, procs, TotalSuspicious(logins, ports, conns, procs));
    }
  }

  /** `[f for f in files if os.path.exists(f)]`. */
  function FilterExisting(files: seq<string>, fs: map<string, string>): (r: seq<string>)
    ensures forall f :: f in r <==> f in files && f in fs
  {
    if files == [] then []
    else (if files[0] in fs then [files[0]] else []) + FilterExisting(files[1..], fs)
  }

  /**
   * Every entry names the file it came from and one of the first five
   * patterns: the last pattern never wins the first-match search.
   */
  lemma {:induction false} TaggedPatterns(path: string, lines: seq<string>)
    ensures forall e :: e in TagLines(path, lines) ==> e.logFile == path && e.pattern in SuspiciousPatterns[..5]
  {
    if lines != [] {
      TaggedPatterns(path, lines[..|lines| - 1]);
      var line := lines[|lines| - 1];
      PamPatternNeverTags(line);
    }
  }

  /** Every file of `files` that can be read has its position at its end and recorded. */
  ghost predicate AtEnd(p: map<string, nat>, files: seq<string>, fs: map<string, string>) {
    forall f :: f in files && f in fs ==> f in p && UnreadLines(fs[f], p[f]) == []
  }

  /** After a scan, every readable file has been read to its end. */
  lemma {:induction false} ScanReachesEnd(files: seq<string>, pos: map<string, nat>, fs: map<string, string>)
    ensures AtEnd(ScanFiles(files, pos, fs).1, files, fs)
  {
    if files != [] {
      var init := files[..|files| - 1];
      ScanReachesEnd(init, pos, fs);
      assert forall g :: g in files ==> g in init || g == files[|files| - 1];
    }
  }

  /** A scan of files that are all at their end adds nothing and moves nothing. */
  lemma {:induction false} ScanAtEndIsIdle(files: seq<string>, p: map<string, nat>, fs: map<string, string>)
    requires AtEnd(p, files, fs)
    ensures ScanFiles(files, p, fs) == ([], p)
  {
    if files != [] {
      var init := files[..|files| - 1];
      assert forall g :: g in init ==> g in files;
      ScanAtEndIsIdle(init, p, fs);
      var f := files[|files| - 1];
      if f in fs {
        assert f in p && Position(p, f) == p[f];
        assert UnreadLines(fs[f], p[f]) == [];
        assert TagLines(f, UnreadLines(fs[f], p[f])) == [];
        assert PositionAfterRead(fs[f], p[f]) == p[f];
        assert p[f := p[f]] == p;
        var acc: (seq<SuspiciousEntry>, map<string, nat>) := ([], p);
        assert ScanFile(acc, f, fs).0 == [] + TagLines(f, UnreadLines(fs[f], p[f]));
        assert ScanFile(acc, f, fs).1 == p[f := PositionAfterRead(fs[f], p[f])];
      }
      assert ScanFiles(files, p, fs) == ScanFile(ScanFiles(init, p, fs), f, fs);
    }
  }

  /** A second scan with no text appended in between finds nothing new and leaves the positions where they are. */
  lemma RescanFindsNothing(files: seq<string>, pos: map<string, nat>, fs: map<string, string>)
    ensures var p := ScanFiles(files, pos, fs).1;
      ScanFiles(files, p, fs) == ([], p)
  {
    ScanReachesEnd(files, pos, fs);
    ScanAtEndIsIdle(files, ScanFiles(files, pos, fs).1, fs);
  }
}
