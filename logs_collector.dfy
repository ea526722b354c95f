/**
 * The log collector (collectors/logs.py): incremental reads of a fixed
 * list of log files from remembered positions, a severity for each new
 * line, and per-batch statistics and importance.
 *
 * The file system is a map from path to text; a path that is missing
 * stands for a file that does not exist or cannot be read, which the
 * source skips (the second via its exception handler).
 */
module LogCollection {
  import opened Wrappers
  import opened Text

  datatype Severity = Error | Warning | Info
  {
    function Name(): string {
      match this
      case Error => "error"
      case Warning => "warning"
      case Info => "info"
    }
  }

  datatype Importance = High | Medium | Low

  /** A monitored file and the type it is reported under. */
  datatype LogFile = LogFile(path: string, logType: string)

  datatype LogEntry = LogEntry(file: string, logType: string, severity: Severity, content: string)

  /**
   * The counters of a batch. The per-key counts are association lists in
   * first-seen order, as the dictionaries serialise.
   */
  datatype LogStats = LogStats(total: nat, byType: seq<(string, nat)>, bySeverity: seq<(Severity, nat)>)

  /** The dictionary `collect` returns when it read something. */
  datatype LogBatch = LogBatch(
    timestamp: string,
    entries: seq<LogEntry>,
    stats: LogStats,
    hasErrors: bool,
    hasWarnings: bool,
    importance: Importance)

  /** The files the collector looks for, with their types. */
  const CandidateLogFiles: seq<LogFile> := [
    LogFile("/var/log/syslog", "system"),
    LogFile("/var/log/auth.log", "auth"),
    LogFile("/var/log/secure", "auth"),
    LogFile("/var/log/apache2/access.log", "web"),
    LogFile("/var/log/apache2/error.log", "web"),
    LogFile("/var/log/nginx/access.log", "web"),
    LogFile("/var/log/nginx/error.log", "web"),
    LogFile("/var/log/mysql/error.log", "database"),
    LogFile("/var/log/postgresql/postgresql.log", "database")
  ]

  // ---------------------------------------------------------------------
  // Severity.
  // ---------------------------------------------------------------------

  /** The words of the error patterns: `\berror\b`, `\bfail(ed|ure)\b`, `\bcritical\b`, `\bemergency\b`, `\balert\b`. */
  const ErrorWords: seq<string> := ["error", "failed", "failure", "critical", "emergency", "alert"]

  /** The words of the warning patterns: `\bwarn(ing)?\b`, `\bnotice\b`, `\btimeout\b`. */
  const WarningWords: seq<string> := ["warn", "warning", "notice", "timeout"]

  /** Some word of `words` occurs in `s` as a whole word. */
  predicate AnyWord(s: string, words: seq<string>) {
    exists k :: 0 <= k < |words| && ContainsWord(s, words[k])
  }

  /**
   * `_determine_severity`: on the lower-cased line, error if an error
   * pattern matches, else warning if a warning pattern matches, else info
   * (the info patterns lead to the same answer as the default).
   */
  function DetermineSeverity(line: string): (r: Severity)
    ensures r == Error <==> AnyWord(Lower(line), ErrorWords)
    ensures r == Warning <==> !AnyWord(Lower(line), ErrorWords) && AnyWord(Lower(line), WarningWords)
    ensures r == Info <==> !AnyWord(Lower(line), ErrorWords) && !AnyWord(Lower(line), WarningWords)
  {
    var lowered := Lower(line);
    if AnyWord(lowered, ErrorWords) then Error
    else if AnyWord(lowered, WarningWords) then Warning
    else Info
  }

  /** Lower-casing twice is lower-casing once. */
  lemma LowerIdempotent(s: string)
    ensures Lower(Lower(s)) == Lower(s)
  {
    assert forall i :: 0 <= i < |s| ==> LowerChar(LowerChar(s[i])) == LowerChar(s[i]);
  }

  /** Severity ignores case: a line and its lower-cased form get the same severity. */
  lemma SeverityIgnoresCase(line: string)
    ensures DetermineSeverity(Lower(line)) == DetermineSeverity(line)
  {
    LowerIdempotent(line);
  }

  /** Error beats warning: a line with an error word and a warning word is an error. */
  lemma ErrorWinsOverWarning(line: string)
    requires AnyWord(Lower(line), ErrorWords) && AnyWord(Lower(line), WarningWords)
    ensures DetermineSeverity(line) == Error
  {
  }

  // ---------------------------------------------------------------------
  // Counters as association lists.
  // ---------------------------------------------------------------------

  /** The count recorded for `k`, zero when it has none. */
  function CountOf<K(==)>(l: seq<(K, nat)>, k: K): nat {
    if l == [] then 0
    else if l[0].0 == k then l[0].1
    else CountOf(l[1..], k)
  }

  function SumCounts<K>(l: seq<(K, nat)>): nat {
    if l == [] then 0 else l[0].1 + SumCounts(l[1..])
  }

  predicate HasKey<K(==)>(l: seq<(K, nat)>, k: K) {
    exists i :: 0 <= i < |l| && l[i].0 == k
  }

  /** A key is present in a non-empty list when it heads it or is present in the rest. */
  lemma HasKeyCons<K>(l: seq<(K, nat)>, k: K)
    requires l != []
    ensures HasKey(l, k) <==> l[0].0 == k || HasKey(l[1..], k)
  {
    if HasKey(l[1..], k) {
      var i :| 0 <= i < |l[1..]| && l[1..][i].0 == k;
      assert l[i + 1].0 == k;
    }
    if HasKey(l, k) && l[0].0 != k {
      var i :| 0 <= i < |l| && l[i].0 == k;
      assert l[1..][i - 1].0 == k;
    }
  }

  /** `counts[k] += 1` on a `defaultdict(int)`: a new key goes last with count 1. */
  function Bump<K(==)>(l: seq<(K, nat)>, k: K): (r: seq<(K, nat)>)
    ensures |r| == |l| + (if HasKey(l, k) then 0 else 1)
  {
    if l == [] then [(k, 1)]
    else if l[0].0 == k then [(k, l[0].1 + 1)] + l[1..]
    else
      HasKeyCons(l, k);
      [l[0]] + Bump(l[1..], k)
  }

  /** `counts[k]` read on a `defaultdict(int)`: a missing key is inserted with count 0. */
  function Touch<K(==)>(l: seq<(K, nat)>, k: K): seq<(K, nat)> {
    if HasKey(l, k) then l else l + [(k, 0)]
  }

  /** Bumping adds one to the key's count, one to the sum, and leaves every other count alone. */
  lemma {:induction false} BumpCounts<K>(l: seq<(K, nat)>, k: K)
    ensures CountOf(Bump(l, k), k) == CountOf(l, k) + 1
    ensures forall j :: j != k ==> CountOf(Bump(l, k), j) == CountOf(l, j)
    ensures SumCounts(Bump(l, k)) == SumCounts(l) + 1
  {
    if l != [] && l[0].0 != k {
      BumpCounts(l[1..], k);
      assert Bump(l, k)[1..] == Bump(l[1..], k);
    }
  }

  /** Touching a key changes no count and no sum, and leaves the key present. */
  lemma TouchCounts<K>(l: seq<(K, nat)>, k: K)
    ensures forall j :: CountOf(Touch(l, k), j) == CountOf(l, j)
    ensures SumCounts(Touch(l, k)) == SumCounts(l)
    ensures HasKey(Touch(l, k), k)
  {
    if !HasKey(l, k) {
      AppendZero(l, k);
      assert Touch(l, k)[|l|].0 == k;
    }
  }

  /** A key appended with count 0 after the others changes no count and no sum. */
  lemma {:induction false} AppendZero<K>(l: seq<(K, nat)>, k: K)
    ensures forall j :: CountOf(l + [(k, 0)], j) == CountOf(l, j)
    ensures SumCounts(l + [(k, 0)]) == SumCounts(l)
  {
    if l != [] {
      assert (l + [(k, 0)])[1..] == l[1..] + [(k, 0)];
      AppendZero(l[1..], k);
    }
  }

  // ---------------------------------------------------------------------
  // A batch, as a function of the files and positions.
  // ---------------------------------------------------------------------

  /** The entry of one new line: its severity is judged on the line as read, its content is the stripped line. */
  function EntryOf(lf: LogFile, line: string): LogEntry {
    LogEntry(lf.path, lf.logType, DetermineSeverity(line), Strip(line))
  }

  /** The entries of a file's new lines, in line order. */
  function EntriesOf(lf: LogFile, lines: seq<string>): (r: seq<LogEntry>)
    ensures |r| == |lines|
    ensures forall i :: 0 <= i < |lines| ==> r[i] == EntryOf(lf, lines[i])
  {
    if lines == [] then [] else EntriesOf(lf, lines[..|lines| - 1]) + [EntryOf(lf, lines[|lines| - 1])]
  }

  /** The counters after one more entry. */
  function StatStep(s: LogStats, e: LogEntry): LogStats {
    LogStats(s.total + 1, Bump(s.byType, e.logType), Bump(s.bySeverity, e.severity))
  }

  /** The counters of a sequence of entries, counted one at a time. */
  function StatsOf(es: seq<LogEntry>): LogStats {
    if es == [] then LogStats(0, [], [])
    else StatStep(StatsOf(es[..|es| - 1]), es[|es| - 1])
  }

  function Position(p: map<string, nat>, f: string): nat {
    if f in p then p[f] else 0
  }

  /** One file of `collect`: skipped when unreadable, else its unread lines become entries and its position moves to the end. */
  function ScanLogFile(acc: (seq<LogEntry>, map<string, nat>), lf: LogFile, fs: map<string, string>): (seq<LogEntry>, map<string, nat>)
  {
    if lf.path !in fs then acc
    else
      var content := fs[lf.path];
      var pos := Position(acc.1, lf.path);
      (acc.0 + EntriesOf(lf, UnreadLines(content, pos)), acc.1[lf.path := PositionAfterRead(content, pos)])
  }

  /** The files of `collect`, in list order. */
  function ScanLogFiles(files: seq<LogFile>, pos: map<string, nat>, fs: map<string, string>): (seq<LogEntry>, map<string, nat>)
  {
    if files == [] then ([], pos)
    else ScanLogFile(ScanLogFiles(files[..|files| - 1], pos, fs), files[|files| - 1], fs)
  }

  /** The importance of a batch. */
  function ImportanceOf(hasErrors: bool, hasWarnings: bool): (r: Importance)
    ensures r == High <==> hasErrors
    ensures r == Medium <==> !hasErrors && hasWarnings
    ensures r == Low <==> !hasErrors && !hasWarnings
  {
    if hasErrors then High else if hasWarnings then Medium else Low
  }

  /**
   * The end of `collect`: reading the error and warning counts inserts
   * those keys; nothing is returned when no line was read.
   */
  function Summarize(timestamp: string, entries: seq<LogEntry>): (r: Option<LogBatch>)
  {
    var stats := StatsOf(entries);
    var bySeverity := Touch(Touch(stats.bySeverity, Error), Warning);
    var hasErrors := CountOf(bySeverity, Error) > 0;
    var hasWarnings := CountOf(bySeverity, Warning) > 0;
    if stats.total > 0 then
      Some(LogBatch(timestamp, entries, stats.(bySeverity := bySeverity), hasErrors, hasWarnings, ImportanceOf(hasErrors, hasWarnings)))
    else None
  }

  // ---------------------------------------------------------------------
  // The collector object.
  // ---------------------------------------------------------------------

  class LogCollector {
    /** The candidate files that existed when the collector was built, in candidate order. */
    const logFiles: seq<LogFile>
    var positions: map<string, nat>

    ghost predicate Valid()
      reads this
    {
      forall i :: 0 <= i < |logFiles| ==> logFiles[i].path in positions
    }

    constructor (fs: map<string, string>)
      ensures Valid()
      ensures logFiles == ExistingLogFiles(CandidateLogFiles, fs)
      ensures forall i :: 0 <= i < |logFiles| ==> positions[logFiles[i].path] == 0
    {
      logFiles := ExistingLogFiles(CandidateLogFiles, fs);
      positions := map i | 0 <= i < |ExistingLogFiles(CandidateLogFiles, fs)| :: ExistingLogFiles(CandidateLogFiles, fs)[i].path := 0;
    }

    /** The start of `_collect_logs`: every readable file's position is put at its end. */
    method SeedPositions(fs: map<string, string>)
      requires Valid()
      modifies this
      ensures Valid()
      ensures forall f :: f in positions <==> f in old(positions)
      ensures forall f :: f in positions ==> positions[f] == if f in fs && IsListed(f, logFiles) then |fs[f]| else old(positions[f])
    {
      var i := 0;
      while i < |logFiles|
        invariant 0 <= i <= |logFiles|
        invariant Valid()
        invariant forall f :: f in positions <==> f in old(positions)
        invariant forall f :: f in positions ==>
          positions[f] == if f in fs && IsListed(f, logFiles[..i]) then |fs[f]| else old(positions[f])
      {
        var path := logFiles[i].path;
        if path in fs {
          positions := positions[path := |fs[path]|];
        }
        assert forall f :: IsListed(f, logFiles[..i + 1]) <==> IsListed(f, logFiles[..i]) || f == path by {
          forall f
            ensures IsListed(f, logFiles[..i + 1]) <==> IsListed(f, logFiles[..i]) || f == path
          {
            if IsListed(f, logFiles[..i + 1]) {
              var j :| 0 <= j < i + 1 && logFiles[..i + 1][j].path == f;
              if j < i {
                assert logFiles[..i][j].path == f;
              }
            }
            if IsListed(f, logFiles[..i]) {
              var j :| 0 <= j < i && logFiles[..i][j].path == f;
              assert logFiles[..i + 1][j].path == f;
            }
            if f == path {
              assert logFiles[..i + 1][i].path == f;
            }
          }
        }
        i := i + 1;
      }
      assert logFiles[..i] == logFiles;
    }

    /** One file of `collect`: if it can be read, read it from its position to its end. */
    method CollectFile(lf: LogFile, fs: map<string, string>, entries0: seq<LogEntry>, stats0: LogStats)
      returns (entries: seq<LogEntry>, stats: LogStats)
      requires Valid() && lf in logFiles
      requires stats0 == StatsOf(entries0)
      modifies this
      ensures Valid()
      ensures (entries, positions) == ScanLogFile((entries0, old(positions)), lf, fs)
      ensures stats == StatsOf(entries)
    {
      entries, stats := entries0, stats0;
      if lf.path in fs {
        var content := fs[lf.path];
        var pos := positions[lf.path];
        var newLines := UnreadLines(content, pos);
        positions := positions[lf.path := PositionAfterRead(content, pos)];
        entries, stats := ProcessLines(lf, newLines, entries, stats);
      }
    }

    /** `collect`: read every readable file from its position, judge each new line, count, and summarise. */
    method Collect(fs: map<string, string>, timestamp: string) returns (batch: Option<LogBatch>)
      requires Valid()
      modifies this
      ensures Valid()
      ensures positions == ScanLogFiles(logFiles, old(positions), fs).1
      ensures batch == Summarize(timestamp, ScanLogFiles(logFiles, old(positions), fs).0)
    {
      var entries: seq<LogEntry> := [];
      var stats := LogStats(0, [], []);
      ghost var pos0 := positions;
      var i := 0;
      while i < |logFiles|
        invariant 0 <= i <= |logFiles|
        invariant (entries, positions) == ScanLogFiles(logFiles[..i], pos0, fs)
        invariant stats == StatsOf(entries)
        invariant Valid()
      {
        assert logFiles[..i + 1][..i] == logFiles[..i];
        entries, stats := CollectFile(logFiles[i], fs, entries, stats);
        i := i + 1;
      }
      assert logFiles[..i] == logFiles;
      var bySeverity := Touch(Touch(stats.bySeverity, Error), Warning);
      var hasErrors := CountOf(bySeverity, Error) > 0;
      var hasWarnings := CountOf(bySeverity, Warning) > 0;
      var importance := if hasErrors then High else if hasWarnings then Medium else Low;
      if stats.total > 0 {
        batch := Some(LogBatch(timestamp, entries, stats.(bySeverity := bySeverity), hasErrors, hasWarnings, importance));
      } else {
        batch := None;
      }
    }
  }

  /** The inner loop of `collect`: one entry per line, counted as it is appended. */
  method ProcessLines(lf: LogFile, lines: seq<string>, entries0: seq<LogEntry>, stats0: LogStats)
    returns (entries: seq<LogEntry>, stats: LogStats)
    requires stats0 == StatsOf(entries0)
    ensures entries == entries0 + EntriesOf(lf, lines)
    ensures stats == StatsOf(entries)
  {
    entries, stats := entries0, stats0;
    var i := 0;
    while i < |lines|
      invariant 0 <= i <= |lines|
      invariant entries == entries0 + EntriesOf(lf, lines[..i])
      invariant stats == StatsOf(entries)
    {
      var line := lines[i];
      var severity := DetermineSeverity(line);
      var entry := LogEntry(lf.path, lf.logType, severity, Strip(line));
      EntriesSnoc(lf, lines, i);
      StatsSnoc(entries, entry);
      AppendAssoc(entries0, EntriesOf(lf, lines[..i]), [entry]);
      stats := LogStats(stats.total + 1, Bump(stats.byType, lf.logType), Bump(stats.bySeverity, severity));
      entries := entries + [entry];
      i := i + 1;
    }
    assert lines[..i] == lines;
  }

  lemma EntriesSnoc(lf: LogFile, lines: seq<string>, i: nat)
    requires i < |lines|
    ensures EntriesOf(lf, lines[..i + 1]) == EntriesOf(lf, lines[..i]) + [EntryOf(lf, lines[i])]
  {
    assert lines[..i + 1][..i] == lines[..i];
  }

  lemma StatsSnoc(es: seq<LogEntry>, e: LogEntry)
    ensures StatsOf(es + [e]) == StatStep(StatsOf(es), e)
  {
    assert (es + [e])[..|es|] == es;
  }

  lemma AppendAssoc(a: seq<LogEntry>, b: seq<LogEntry>, c: seq<LogEntry>)
    ensures (a + b) + c == a + (b + c)
  {
  }

  /** Some listed file has path `f`. */
  predicate IsListed(f: string, files: seq<LogFile>) {
    exists i :: 0 <= i < |files| && files[i].path == f
  }

  /** `[log for log in self.log_files if os.path.exists(log['path'])]`. */
  function ExistingLogFiles(files: seq<LogFile>, fs: map<string, string>): (r: seq<LogFile>)
    ensures forall lf :: lf in r <==> lf in files && lf.path in fs
  {
    if files == [] then []
    else (if files[0].path in fs then [files[0]] else []) + ExistingLogFiles(files[1..], fs)
  }

  // ---------------------------------------------------------------------
  // Properties.
  // ---------------------------------------------------------------------

  /** The counters agree: total, the sum by type and the sum by severity all equal the number of entries. */
  lemma {:induction false} StatsAddUp(es: seq<LogEntry>)
    ensures StatsOf(es).total == |es|
    ensures SumCounts(StatsOf(es).byType) == |es|
    ensures SumCounts(StatsOf(es).bySeverity) == |es|
  {
    if es != [] {
      StatsAddUp(es[..|es| - 1]);
      BumpCounts(StatsOf(es[..|es| - 1]).byType, es[|es| - 1].logType);
      BumpCounts(StatsOf(es[..|es| - 1]).bySeverity, es[|es| - 1].severity);
    }
  }

  /** The count of a severity is the number of entries that have it. */
  lemma {:induction false} SeverityCountIsNumberOfEntries(es: seq<LogEntry>, s: Severity)
    ensures CountOf(StatsOf(es).bySeverity, s) == |EntriesWith(es, s)|
  {
    if es != [] {
      SeverityCountIsNumberOfEntries(es[..|es| - 1], s);
      BumpCounts(StatsOf(es[..|es| - 1]).bySeverity, es[|es| - 1].severity);
    }
  }

  /** The entries of a given severity, in order. */
  function EntriesWith(es: seq<LogEntry>, s: Severity): (r: seq<LogEntry>)
    ensures |r| <= |es|
    ensures forall e :: e in r <==> e in es && e.severity == s
  {
    if es == [] then []
    else EntriesWith(es[..|es| - 1], s) + (if es[|es| - 1].severity == s then [es[|es| - 1]] else [])
  }

  /** The severity counts after `collect` reads the error and warning keys. */
  function SeverityCounts(es: seq<LogEntry>): seq<(Severity, nat)> {
    Touch(Touch(StatsOf(es).bySeverity, Error), Warning)
  }

  /** The error and warning counts are positive exactly when such an entry was read, and the counts still add up. */
  lemma FlagsSayWhatWasRead(es: seq<LogEntry>)
    ensures CountOf(SeverityCounts(es), Error) > 0 <==> exists e :: e in es && e.severity == Error
    ensures CountOf(SeverityCounts(es), Warning) > 0 <==> exists e :: e in es && e.severity == Warning
    ensures SumCounts(SeverityCounts(es)) == |es|
  {
    StatsAddUp(es);
    TouchCounts(StatsOf(es).bySeverity, Error);
    TouchCounts(Touch(StatsOf(es).bySeverity, Error), Warning);
    SeverityCountIsNumberOfEntries(es, Error);
    SeverityCountIsNumberOfEntries(es, Warning);
    assert SeverityCounts(es) == Touch(Touch(StatsOf(es).bySeverity, Error), Warning);
    if |EntriesWith(es, Error)| > 0 {
      assert EntriesWith(es, Error)[0] in EntriesWith(es, Error);
    }
    if |EntriesWith(es, Warning)| > 0 {
      assert EntriesWith(es, Warning)[0] in EntriesWith(es, Warning);
    }
    if exists e :: e in es && e.severity == Error {
      var e :| e in es && e.severity == Error;
      assert e in EntriesWith(es, Error);
    }
    if exists e :: e in es && e.severity == Warning {
      var e :| e in es && e.severity == Warning;
      assert e in EntriesWith(es, Warning);
    }
  }

  /**
   * What a batch says: `None` exactly when nothing was read; otherwise all
   * entries, totals that add up, error and warning flags that say whether
   * such an entry exists, and the importance they imply.
   */
  lemma SummaryIsFaithful(timestamp: string, es: seq<LogEntry>)
    ensures Summarize(timestamp, es).None? <==> es == []
    ensures Summarize(timestamp, es).Some? ==>
      var b := Summarize(timestamp, es).value;
      && b.entries == es
      && b.stats.total == |es| && SumCounts(b.stats.byType) == |es| && SumCounts(b.stats.bySeverity) == |es|
      && (b.hasErrors <==> exists e :: e in es && e.severity == Error)
      && (b.hasWarnings <==> exists e :: e in es && e.severity == Warning)
      && b.importance == ImportanceOf(b.hasErrors, b.hasWarnings)
  {
    StatsAddUp(es);
    FlagsSayWhatWasRead(es);
    assert Touch(Touch(StatsOf(es).bySeverity, Error), Warning) == SeverityCounts(es);
  }

  /** Every readable log file has its position recorded at its end. */
  ghost predicate AtEnd(p: map<string, nat>, files: seq<LogFile>, fs: map<string, string>) {
    forall i :: 0 <= i < |files| && files[i].path in fs ==> files[i].path in p && UnreadLines(fs[files[i].path], p[files[i].path]) == []
  }

  /** After `collect`, every readable file has been read to its end. */
  lemma {:induction false} CollectReachesEnd(files: seq<LogFile>, pos: map<string, nat>, fs: map<string, string>)
    ensures AtEnd(ScanLogFiles(files, pos, fs).1, files, fs)
  {
    if files != [] {
      var init := files[..|files| - 1];
      CollectReachesEnd(init, pos, fs);
      forall i | 0 <= i < |files| - 1
        ensures files[i] == init[i]
      {
      }
    }
  }

  /** A `collect` over files all read to their end reads nothing and moves nothing. */
  lemma {:induction false} CollectAtEndIsIdle(files: seq<LogFile>, p: map<string, nat>, fs: map<string, string>)
    requires AtEnd(p, files, fs)
    ensures ScanLogFiles(files, p, fs) == ([], p)
  {
    if files != [] {
      var init := files[..|files| - 1];
      assert AtEnd(p, init, fs) by {
        forall i | 0 <= i < |init| ensures init[i] == files[i] {}
      }
      CollectAtEndIsIdle(init, p, fs);
      var lf := files[|files| - 1];
      if lf.path in fs {
        assert lf.path in p && Position(p, lf.path) == p[lf.path];
        assert UnreadLines(fs[lf.path], p[lf.path]) == [];
        assert EntriesOf(lf, UnreadLines(fs[lf.path], p[lf.path])) == [];
        assert PositionAfterRead(fs[lf.path], p[lf.path]) == p[lf.path];
        assert p[lf.path := p[lf.path]] == p;
        var none: seq<LogEntry> := [];
        assert none + EntriesOf(lf, UnreadLines(fs[lf.path], p[lf.path])) == none;
      }
      assert ScanLogFiles(files, p, fs) == ScanLogFile(([], p), lf, fs);
    }
  }

  /** Hence a second `collect` with nothing appended returns nothing. */
  lemma SecondCollectIsEmpty(files: seq<LogFile>, pos: map<string, nat>, fs: map<string, string>, timestamp: string)
    ensures Summarize(timestamp, ScanLogFiles(files, ScanLogFiles(files, pos, fs).1, fs).0) == None
  {
    CollectReachesEnd(files, pos, fs);
    CollectAtEndIsIdle(files, ScanLogFiles(files, pos, fs).1, fs);
    SummaryIsFaithful(timestamp, []);
  }
}
