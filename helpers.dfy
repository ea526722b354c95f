/**
 * Two helpers of the V2 agent (utils/helpers.py): the unit chosen by
 * `bytes_to_human_readable`, and the parsing of `/etc/os-release` inside
 * `get_system_info`.
 */
module Helpers {
  import opened Wrappers
  import opened Text

  // ---------------------------------------------------------------------
  // bytes_to_human_readable
  // ---------------------------------------------------------------------

  const Units: seq<string> := ["B", "KB", "MB", "GB", "TB", "PB"]

  function Pow1024(k: nat): (p: nat)
    ensures p >= 1
  {
    if k == 0 then 1 else 1024 * Pow1024(k - 1)
  }

  /** The value a string renders: `"0 B"` for a refused or negative input, else an amount and a unit (its two-decimal formatting is not modelled). */
  datatype HumanSize = ZeroBytes | Scaled(amount: real, unit: string)

  /** The unit index for `v` bytes: step up from `k` while another step stays at or above 1024 and a larger unit exists. */
  function UnitIndexFrom(v: nat, k: nat): nat
    requires k <= 5
    decreases 5 - k
  {
    if k < 5 && v >= Pow1024(k + 1) then UnitIndexFrom(v, k + 1) else k
  }

  /** The unit index for `v` bytes. */
  function UnitIndex(v: nat): nat {
    UnitIndexFrom(v, 0)
  }

  lemma {:induction false} UnitIndexFromBounds(v: nat, k: nat)
    requires k <= 5 && (k == 0 || Pow1024(k) <= v)
    ensures var u := UnitIndexFrom(v, k);
      && k <= u <= 5
      && (u == 0 || Pow1024(u) <= v)
      && (u < 5 ==> v < Pow1024(u + 1))
    decreases 5 - k
  {
    if k < 5 && v >= Pow1024(k + 1) {
      UnitIndexFromBounds(v, k + 1);
    }
  }

  lemma PowMonotone(i: nat, j: nat)
    requires i <= j
    ensures Pow1024(i) <= Pow1024(j)
    decreases j
  {
    if i < j {
      PowMonotone(i, j - 1);
    }
  }

  /**
   * The unit index is the largest `k` in 0..5 with `v >= 1024^k`: values
   * below 1024 stay in bytes, and nothing goes past petabytes.
   */
  lemma UnitIndexIsLargestFit(v: nat)
    ensures UnitIndex(v) <= 5
    ensures UnitIndex(v) == 0 || v >= Pow1024(UnitIndex(v))
    ensures forall k :: UnitIndex(v) < k <= 5 ==> v < Pow1024(k)
    ensures v < 1024 ==> UnitIndex(v) == 0
  {
    UnitIndexFromBounds(v, 0);
    var u := UnitIndex(v);
    forall k | u < k <= 5
      ensures v < Pow1024(k)
    {
      PowMonotone(u + 1, k);
    }
  }

  /**
   * `bytes_to_human_readable`; `None` stands for a value `int()` refuses.
   * The value is divided by 1024 while it is at least 1024 and a larger
   * unit remains.
   */
  method BytesToHumanReadable(input: Option<int>) returns (r: HumanSize)
    ensures input.None? || input.value < 0 ==> r == ZeroBytes
    ensures input.Some? && input.value >= 0 ==>
      && r == Scaled(input.value as real / Pow1024(UnitIndex(input.value)) as real, Units[UnitIndex(input.value)])
  {
    if input.None? || input.value < 0 {
      return ZeroBytes;
    }
    var amount, unitIndex := Scale(input.value);
    r := Scaled(amount, Units[unitIndex]);
  }

  /** The loop of `bytes_to_human_readable`: divide by 1024 while the amount is at least 1024 and a larger unit remains. */
  method Scale(v: nat) returns (amount: real, unitIndex: nat)
    ensures unitIndex == UnitIndex(v) && unitIndex <= 5
    ensures amount == v as real / Pow1024(unitIndex) as real
  {
    amount := v as real;
    unitIndex := 0;
    ghost var p: nat := 1;
    while amount >= 1024.0 && unitIndex < |Units| - 1
      invariant 0 <= unitIndex <= 5
      invariant p == Pow1024(unitIndex) && p >= 1
      invariant amount * p as real == v as real
      invariant UnitIndex(v) == UnitIndexFrom(v, unitIndex)
      decreases 5 - unitIndex
    {
      ScaleStep(amount, p, v);
      amount := amount / 1024.0;
      unitIndex := unitIndex + 1;
      p := 1024 * p;
    }
    if unitIndex < 5 {
      ScaleStep(amount, p, v);
    }
    ScaleResult(amount, p, v);
  }

  /** Dividing the amount by 1024 moves one unit up: the amount reaches 1024 exactly when the value reaches the next power. */
  lemma ScaleStep(amount: real, p: nat, v: nat)
    requires p >= 1 && amount * p as real == v as real
    ensures amount >= 1024.0 <==> v >= 1024 * p
    ensures (amount / 1024.0) * (1024 * p) as real == v as real
  {
    var q := p as real;
    if amount >= 1024.0 {
      MulMonotone(amount, 1024.0, q);
    } else {
      MulMonotone(1024.0, amount, q);
    }
    var scaled := amount / 1024.0;
    assert amount == 1024.0 * scaled;
    assert (1024 * p) as real == 1024.0 * q;
    assert scaled * (1024.0 * q) == (1024.0 * scaled) * q;
  }

  lemma MulMonotone(a: real, b: real, c: real)
    requires a >= b && c > 0.0
    ensures a * c >= b * c
    ensures a > b ==> a * c > b * c
  {
    assert a * c - b * c == (a - b) * c;
  }

  lemma ScaleResult(amount: real, p: nat, v: nat)
    requires p >= 1 && amount * p as real == v as real
    ensures amount == v as real / p as real
  {
  }

  // ---------------------------------------------------------------------
  // /etc/os-release
  // ---------------------------------------------------------------------

  function IsQuote(c: char): bool {
    c == '"'
  }

  /** The key and value of one line that holds `=`: split the stripped line at its first `=` and strip quotes off the value. */
  function ReleaseItem(line: string): (r: Option<(string, string)>)
    ensures r.None? <==> '=' !in line
    ensures r.Some? ==> '=' !in r.value.0
  {
    if '=' !in line then None
    else
      EqualsSurvivesStrip(line);
      var kv := SplitOnce(Strip(line), '=').value;
      Some((kv.0, StripWith(kv.1, IsQuote)))
  }

  lemma EqualsSurvivesStrip(line: string)
    requires '=' in line
    ensures '=' in Strip(line)
  {
    var i :| 0 <= i < |line| && line[i] == '=';
    StripKeepsNonSpace(line, i);
  }

  /** A character that is not white space survives a strip. */
  lemma StripKeepsNonSpace(s: string, i: nat)
    requires i < |s| && !IsSpace(s[i])
    ensures s[i] in Strip(s)
  {
    var l := StripLeft(s, IsSpace);
    assert l == s[|s| - |l|..];
    StripLeftKeeps(s, i);
    var j := i - (|s| - |l|);
    assert l[j] == s[i];
    StripRightKeeps(l, j);
  }

  lemma {:induction false} StripLeftKeeps(s: string, i: nat)
    requires i < |s| && !IsSpace(s[i])
    ensures |s| - |StripLeft(s, IsSpace)| <= i
  {
    if s != [] && IsSpace(s[0]) {
      StripLeftKeeps(s[1..], i - 1);
    }
  }

  lemma {:induction false} StripRightKeeps(s: string, i: nat)
    requires i < |s| && !IsSpace(s[i])
    ensures i < |StripRight(s, IsSpace)|
  {
    if s != [] && IsSpace(s[|s| - 1]) {
      StripRightKeeps(s[..|s| - 1], i);
    }
  }

  /** The dictionary the lines fill, line by line; a later key overwrites an earlier one. */
  function ReleaseOf(lines: seq<string>): map<string, string> {
    if lines == [] then map[]
    else
      var before := ReleaseOf(lines[..|lines| - 1]);
      match ReleaseItem(lines[|lines| - 1])
      case None => before
      case Some(kv) => before[kv.0 := kv.1]
  }

  lemma ReleaseOfSnoc(lines: seq<string>, line: string)
    ensures ReleaseOf(lines + [line]) == match ReleaseItem(line) case None => ReleaseOf(lines) case Some(kv) => ReleaseOf(lines)[kv.0 := kv.1]
  {
    assert (lines + [line])[..|lines|] == lines;
  }

  /** The `for line in f` loop over `/etc/os-release`. */
  method ParseOsRelease(content: string) returns (release: map<string, string>)
    ensures release == ReleaseOf(ReadLines(content))
  {
    var lines := ReadLines(content);
    release := map[];
    var i := 0;
    while i < |lines|
      invariant 0 <= i <= |lines|
      invariant release == ReleaseOf(lines[..i])
    {
      var line := lines[i];
      var item := ReleaseItem(line);
      if item.Some? {
        release := release[item.value.0 := item.value.1];
      }
      assert lines[..i + 1] == lines[..i] + [line];
      ReleaseOfSnoc(lines[..i], line);
      i := i + 1;
    }
    assert lines[..i] == lines;
  }

  /** Some line holds `=` and has key `k`. */
  ghost predicate KeyedLine(lines: seq<string>, k: string) {
    exists i :: 0 <= i < |lines| && KeysLine(lines[i], k)
  }

  /** The line holds `=` and has key `k`. */
  ghost predicate KeysLine(line: string, k: string) {
    ReleaseItem(line).Some? && ReleaseItem(line).value.0 == k
  }

  lemma KeyedLineSnoc(lines: seq<string>, k: string)
    requires lines != []
    ensures KeyedLine(lines, k) <==> KeyedLine(lines[..|lines| - 1], k) || KeysLine(lines[|lines| - 1], k)
  {
    if KeyedLine(lines[..|lines| - 1], k) {
      KeyedLineOfInit(lines, k);
    }
    if KeysLine(lines[|lines| - 1], k) {
      KeyedLineOfLast(lines, k);
    }
    if KeyedLine(lines, k) && !KeysLine(lines[|lines| - 1], k) {
      KeyedLineSplits(lines, k);
    }
  }

  lemma KeyedLineOfInit(lines: seq<string>, k: string)
    requires lines != [] && KeyedLine(lines[..|lines| - 1], k)
    ensures KeyedLine(lines, k)
  {
    var init := lines[..|lines| - 1];
    var i :| 0 <= i < |init| && KeysLine(init[i], k);
    assert lines[i] == init[i];
  }

  lemma KeyedLineOfLast(lines: seq<string>, k: string)
    requires lines != [] && KeysLine(lines[|lines| - 1], k)
    ensures KeyedLine(lines, k)
  {
  }

  lemma KeyedLineSplits(lines: seq<string>, k: string)
    requires lines != [] && KeyedLine(lines, k) && !KeysLine(lines[|lines| - 1], k)
    ensures KeyedLine(lines[..|lines| - 1], k)
  {
    var init := lines[..|lines| - 1];
    var i :| 0 <= i < |lines| && KeysLine(lines[i], k);
    assert init[i] == lines[i];
  }

  /** Only lines holding `=` contribute: a key is present exactly when some such line has it. */
  lemma {:induction false} ReleaseKeys(lines: seq<string>, k: string)
    ensures k in ReleaseOf(lines) <==> KeyedLine(lines, k)
  {
    if lines != [] {
      var init := lines[..|lines| - 1];
      ReleaseKeys(init, k);
      KeyedLineSnoc(lines, k);
      assert k in ReleaseOf(lines) <==> k in ReleaseOf(init) || KeysLine(lines[|lines| - 1], k);
    }
  }

  /** The last line with a key decides its value. */
  lemma LaterDuplicateWins(lines: seq<string>, line: string)
    requires '=' in line
    ensures var kv := ReleaseItem(line).value;
      kv.0 in ReleaseOf(lines + [line]) && ReleaseOf(lines + [line])[kv.0] == kv.1
  {
    ReleaseOfSnoc(lines, line);
  }

  /** A line without `=` changes nothing. */
  lemma LineWithoutEqualsIgnored(lines: seq<string>, line: string)
    requires '=' !in line
    ensures ReleaseOf(lines + [line]) == ReleaseOf(lines)
  {
    assert (lines + [line])[..|lines|] == lines;
  }

  /** The distribution fields `get_system_info` adds: each only when its key was found. */
  datatype Distribution = Distribution(name: Option<string>, versionId: Option<string>)

  function DistributionOf(release: map<string, string>): (d: Distribution)
    ensures d.name.Some? <==> "NAME" in release
    ensures d.versionId.Some? <==> "VERSION_ID" in release
    ensures d.name.Some? ==> d.name.value == release["NAME"]
    ensures d.versionId.Some? ==> d.versionId.value == release["VERSION_ID"]
  {
    Distribution(
      if "NAME" in release then Some(release["NAME"]) else None,
      if "VERSION_ID" in release then Some(release["VERSION_ID"]) else None)
  }
}
