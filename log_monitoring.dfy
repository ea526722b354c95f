/**
 * The first agent's log browser (resource/log_monitoring.py): the log
 * files found under a base directory, reads restricted to those files,
 * and a pass that shows the start of each non-empty one.
 *
 * The directory walk is given as the sequence of triples `os.walk`
 * yields, the file system as a map from path to text (a missing path is
 * a file that cannot be opened), and the printed lines are returned as a
 * sequence.
 */
module LogMonitor {
  import opened Wrappers
  import opened Text

  /** One `(root, dirs, files)` triple of `os.walk`. */
  datatype WalkEntry = WalkEntry(root: string, dirs: seq<string>, files: seq<string>)

  /** A name that is typically a log file. */
  predicate IsLogFileName(name: string) {
    EndsWith(name, ".log") || EndsWith(name, ".gz") || StartsWith(name, "syslog") || StartsWith(name, "messages")
  }

  /** `os.path.join(root, name)`. */
  function Join(root: string, name: string): string {
    if StartsWith(name, "/") then name
    else if root == "" || EndsWith(root, "/") then root + name
    else root + "/" + name
  }

  /** The accepted paths of one directory, in listing order. */
  function AcceptedIn(root: string, files: seq<string>): seq<string> {
    if files == [] then []
    else
      var n := |files| - 1;
      AcceptedIn(root, files[..n]) + (if IsLogFileName(files[n]) then [Join(root, files[n])] else [])
  }

  /** The accepted paths of the whole walk, in walk order. */
  function LogFilesOf(walk: seq<WalkEntry>): seq<string> {
    if walk == [] then []
    else
      var n := |walk| - 1;
      LogFilesOf(walk[..n]) + AcceptedIn(walk[n].root, walk[n].files)
  }

  /** `get_all_log_files`: the nested loops over the walk. */
  method GetAllLogFiles(walk: seq<WalkEntry>) returns (logFiles: seq<string>)
    ensures logFiles == LogFilesOf(walk)
  {
    logFiles := [];
    var i := 0;
    while i < |walk|
      invariant 0 <= i <= |walk|
      invariant logFiles == LogFilesOf(walk[..i])
    {
      assert walk[..i + 1][..i] == walk[..i];
      var entry := walk[i];
      ghost var before := logFiles;
      var j := 0;
      while j < |entry.files|
        invariant 0 <= j <= |entry.files|
        invariant logFiles == before + AcceptedIn(entry.root, entry.files[..j])
      {
        assert entry.files[..j + 1][..j] == entry.files[..j];
        var file := entry.files[j];
        if IsLogFileName(file) {
          logFiles := logFiles + [Join(entry.root, file)];
        }
        j := j + 1;
      }
      assert entry.files[..j] == entry.files;
      i := i + 1;
    }
    assert walk[..i] == walk;
  }

  /** A name of the listing in `files`, accepted, whose joined path is `p`. */
  ghost predicate AcceptedAs(root: string, files: seq<string>, p: string) {
    exists j :: 0 <= j < |files| && IsLogFileName(files[j]) && Join(root, files[j]) == p
  }

  /** A path is accepted in a directory exactly when one of its names passes the filter and joins to it. */
  lemma {:induction false} AcceptedInMembers(root: string, files: seq<string>, p: string)
    ensures p in AcceptedIn(root, files) <==> AcceptedAs(root, files, p)
  {
    if files != [] {
      var n := |files| - 1;
      AcceptedInMembers(root, files[..n], p);
      if AcceptedAs(root, files[..n], p) {
        var j :| 0 <= j < n && IsLogFileName(files[..n][j]) && Join(root, files[..n][j]) == p;
        assert files[j] == files[..n][j];
      }
      if AcceptedAs(root, files, p) && !(IsLogFileName(files[n]) && Join(root, files[n]) == p) {
        var j :| 0 <= j < |files| && IsLogFileName(files[j]) && Join(root, files[j]) == p;
        assert files[..n][j] == files[j];
      }
    }
  }

  /** Some walked directory has an accepted name joining to `p`. */
  ghost predicate ListedIn(walk: seq<WalkEntry>, p: string) {
    exists i :: 0 <= i < |walk| && AcceptedAs(walk[i].root, walk[i].files, p)
  }

  /** A walk with one more directory lists `p` iff the shorter walk or the new directory does. */
  lemma ListedInSnoc(walk: seq<WalkEntry>, p: string)
    requires walk != []
    ensures ListedIn(walk, p) <==>
      ListedIn(walk[..|walk| - 1], p) || AcceptedAs(walk[|walk| - 1].root, walk[|walk| - 1].files, p)
  {
    var n := |walk| - 1;
    if ListedIn(walk[..n], p) {
      ListedInShorter(walk, n, p);
    }
    if ListedIn(walk, p) {
      var i :| 0 <= i < |walk| && AcceptedAs(walk[i].root, walk[i].files, p);
      if i < n {
        ListedAt(walk[..n], i, p);
      }
    }
  }

  /** What a prefix of the walk lists, the walk lists. */
  lemma ListedInShorter(walk: seq<WalkEntry>, n: nat, p: string)
    requires n <= |walk| && ListedIn(walk[..n], p)
    ensures ListedIn(walk, p)
  {
    var i :| 0 <= i < n && AcceptedAs(walk[..n][i].root, walk[..n][i].files, p);
    ListedAt(walk, i, p);
  }

  /** A directory of the walk that accepts `p` makes the walk list it. */
  lemma ListedAt(walk: seq<WalkEntry>, i: nat, p: string)
    requires i < |walk| && AcceptedAs(walk[i].root, walk[i].files, p)
    ensures ListedIn(walk, p)
  {
  }

  /** A name is only ever listed when it passes the filter, and every walked name that passes is listed. */
  lemma {:induction false} LogFilesOfMembers(walk: seq<WalkEntry>, p: string)
    ensures p in LogFilesOf(walk) <==> ListedIn(walk, p)
  {
    if walk != [] {
      var n := |walk| - 1;
      assert LogFilesOf(walk) == LogFilesOf(walk[..n]) + AcceptedIn(walk[n].root, walk[n].files);
      LogFilesOfMembers(walk[..n], p);
      AcceptedInMembers(walk[n].root, walk[n].files, p);
      ListedInSnoc(walk, p);
    }
  }

  /** The filter on concrete names: `auth.log`, `syslog.1` and `messages` pass, `dmesg` does not. */
  lemma FilterExamples()
    ensures IsLogFileName("auth.log") && IsLogFileName("syslog.1") && IsLogFileName("messages")
    ensures !IsLogFileName("dmesg")
  {
    assert HasAt("auth.log", 4, ".log");
    assert HasAt("syslog.1", 0, "syslog");
    assert HasAt("messages", 0, "messages");
    assert "dmesg"[1] != '.' && "dmesg"[2] != '.';
  }

  class LogMonitoring {
    const logBaseDirectory: string
    const logFiles: seq<string>

    /** The walk is the one of `logBaseDirectory`, which defaults to `/var/log`. */
    constructor (walk: seq<WalkEntry>, logBaseDirectory: string := "/var/log")
      ensures this.logBaseDirectory == logBaseDirectory
      ensures logFiles == LogFilesOf(walk)
    {
      this.logBaseDirectory := logBaseDirectory;
      var found := GetAllLogFiles(walk);
      logFiles := found;
    }

    /**
     * `read_log_file`: only a listed path is read. An unlisted path and an unreadable listed one
     * give `None` and print a line; `error(path)` is the text of the exception opening `path` raises.
     */
    method ReadLogFile(path: string, fs: map<string, string>, error: string -> string)
      returns (content: Option<string>, printed: seq<string>)
      ensures path !in logFiles ==> content == None && printed == [NotFoundLine(path)]
      ensures path in logFiles && path in fs ==> content == Some(fs[path]) && printed == []
      ensures path in logFiles && path !in fs ==> content == None && printed == [ReadErrorLine(path, error(path))]
    {
      if path in logFiles {
        if path in fs {
          return Some(fs[path]), [];
        }
        return None, [ReadErrorLine(path, error(path))];
      }
      return None, [NotFoundLine(path)];
    }

    /** `analyze_logs`: the lines it prints, file by file. */
    method AnalyzeLogs(fs: map<string, string>, error: string -> string) returns (printed: seq<string>)
      ensures printed == AnalysisOutput(logFiles, fs, error)
    {
      printed := [];
      var i := 0;
      while i < |logFiles|
        invariant 0 <= i <= |logFiles|
        invariant printed == AnalysisOutput(logFiles[..i], fs, error)
      {
        assert logFiles[..i + 1][..i] == logFiles[..i];
        var logFile := logFiles[i];
        printed := printed + ["Reading " + logFile + "..."];
        var content, lines := ReadLogFile(logFile, fs, error);
        printed := printed + lines;
        if content.Some? && content.value != "" {
          printed := printed + [Take(content.value, 200), Dashes(40)];
        }
        i := i + 1;
      }
      assert logFiles[..i] == logFiles;
    }
  }

  /** The line `read_log_file` prints for a path it was not given. */
  function NotFoundLine(path: string): string {
    "File " + path + " not found in the log directories."
  }

  /** The line `read_log_file` prints when opening a listed path raises `e`. */
  function ReadErrorLine(path: string, e: string): string {
    "Error reading file " + path + ": " + e
  }

  /** `"-" * n`. */
  function Dashes(n: nat): (r: string)
    ensures |r| == n && forall i :: 0 <= i < n ==> r[i] == '-'
  {
    if n == 0 then [] else Dashes(n - 1) + "-"
  }

  /**
   * What `analyze_logs` prints for the listed files, when each is readable exactly when it is in `fs`
   * and `error(f)` is the text of the exception an unreadable `f` raises.
   */
  function AnalysisOutput(files: seq<string>, fs: map<string, string>, error: string -> string): seq<string> {
    if files == [] then []
    else
      var n := |files| - 1;
      var f := files[n];
      AnalysisOutput(files[..n], fs, error)
        + ["Reading " + f + "..."]
        + (if f !in fs then [ReadErrorLine(f, error(f))] else [])
        + (if f in fs && fs[f] != "" then [Take(fs[f], 200), Dashes(40)] else [])
  }

  /**
   * Every listed file gets its "Reading" line; an unreadable one adds its error line and a non-empty
   * readable one adds its first 200 characters and a rule.
   */
  lemma {:induction false} AnalysisOutputLength(files: seq<string>, fs: map<string, string>, error: string -> string)
    ensures |AnalysisOutput(files, fs, error)| == |files| + |Unreadable(files, fs)| + 2 * |NonEmptyReads(files, fs)|
  {
    if files != [] {
      AnalysisOutputLength(files[..|files| - 1], fs, error);
    }
  }

  /** The listed files that cannot be read, in order. */
  function Unreadable(files: seq<string>, fs: map<string, string>): (r: seq<string>)
    ensures forall f :: f in r <==> f in files && f !in fs
  {
    if files == [] then []
    else
      var n := |files| - 1;
      Unreadable(files[..n], fs) + (if files[n] !in fs then [files[n]] else [])
  }

  /** The listed files whose read gives non-empty text, in order. */
  function NonEmptyReads(files: seq<string>, fs: map<string, string>): (r: seq<string>)
    ensures forall f :: f in r <==> f in files && f in fs && fs[f] != ""
  {
    if files == [] then []
    else
      var n := |files| - 1;
      NonEmptyReads(files[..n], fs) + (if files[n] in fs && fs[files[n]] != "" then [files[n]] else [])
  }
}
