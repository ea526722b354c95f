/**
 * String helpers standing in for the Python string methods and the simple
 * regular-expression classes the source uses (`\s`, `\d`, `\w`, `\b`).
 * Character classes cover the ASCII range only.
 */
module Text {
  import opened Wrappers

  /** `str.isspace` on ASCII: tab, newline, vertical tab, form feed, carriage return, 0x1c-0x1f and space. */
  predicate IsSpace(c: char) {
    (9 <= c as int <= 13) || (28 <= c as int <= 32)
  }

  /** The regex class `\d`. */
  predicate IsDigit(c: char) {
    '0' <= c <= '9'
  }

  /** The regex class `\w`: letters, digits and underscore. */
  predicate IsWordChar(c: char) {
    ('a' <= c <= 'z') || ('A' <= c <= 'Z') || IsDigit(c) || c == '_'
  }

  predicate AllDigits(s: string) {
    forall i :: 0 <= i < |s| ==> IsDigit(s[i])
  }

  function LowerChar(c: char): char {
    if 'A' <= c <= 'Z' then (c as int + 32) as char else c
  }

  /** `str.lower()`. */
  function Lower(s: string): (r: string)
    ensures |r| == |s|
    ensures forall i :: 0 <= i < |s| ==> r[i] == LowerChar(s[i])
  {
    if s == [] then [] else [LowerChar(s[0])] + Lower(s[1..])
  }

  /** `in` on strings: `t` occurs in `s` as a contiguous piece. */
  predicate Contains(s: string, t: string) {
    exists i: nat | i <= |s| :: HasAt(s, i, t)
  }

  predicate StartsWith(s: string, p: string) {
    |p| <= |s| && s[..|p|] == p
  }

  predicate EndsWith(s: string, p: string) {
    |p| <= |s| && s[|s| - |p|..] == p
  }

  /** `s` has `t` at position `i`. */
  predicate HasAt(s: string, i: nat, t: string) {
    i + |t| <= |s| && s[i..i + |t|] == t
  }

  /**
   * `\bw\b` for a word `w` made of word characters: an occurrence of `w`
   * preceded and followed by a non-word character or an end of the string.
   */
  predicate ContainsWord(s: string, w: string) {
    exists i: nat | i <= |s| :: WordAt(s, i, w)
  }

  /** `w` occurs at `i` with a word boundary on each side. */
  predicate WordAt(s: string, i: nat, w: string) {
    HasAt(s, i, w)
    && (i == 0 || !IsWordChar(s[i - 1]))
    && (i + |w| == |s| || !IsWordChar(s[i + |w|]))
  }

  /** The first index at or after `i` whose character does not satisfy `p`. */
  function Span(s: string, i: nat, p: char -> bool): (j: nat)
    requires i <= |s|
    ensures i <= j <= |s|
    ensures forall k :: i <= k < j ==> p(s[k])
    ensures j < |s| ==> !p(s[j])
    decreases |s| - i
  {
    if i < |s| && p(s[i]) then Span(s, i + 1, p) else i
  }

  /** A span scanned after a prefix is the span of the rest, moved by the prefix's length. */
  lemma {:induction false} SpanPrefix(a: string, b: string, i: nat, p: char -> bool)
    requires i <= |b|
    ensures Span(a + b, |a| + i, p) == |a| + Span(b, i, p)
    decreases |b| - i
  {
    if i < |b| {
      assert (a + b)[|a| + i] == b[i];
      if p(b[i]) {
        SpanPrefix(a, b, i + 1, p);
      }
    }
  }

  /** Text appended after the point where a span stops does not change it. */
  lemma {:induction false} SpanSuffix(b: string, c: string, i: nat, p: char -> bool)
    requires i <= |b|
    requires Span(b, i, p) < |b| || c == [] || !p(c[0])
    ensures Span(b + c, i, p) == Span(b, i, p)
    decreases |b| - i
  {
    if i < |b| {
      assert (b + c)[i] == b[i];
      if p(b[i]) {
        SpanSuffix(b, c, i + 1, p);
      }
    } else if c != [] {
      assert (b + c)[i] == c[0];
    }
  }

  /** A span of exactly one character. */
  lemma SpanOne(s: string, i: nat, p: char -> bool)
    requires i + 1 < |s| && p(s[i]) && !p(s[i + 1])
    ensures Span(s, i, p) == i + 1
  {
  }

  /** The index of the first `c` in `s`. */
  function IndexOf(s: string, c: char): (r: Option<nat>)
    ensures r.None? <==> c !in s
    ensures r.Some? ==> r.value < |s| && s[r.value] == c && c !in s[..r.value]
  {
    if s == [] then None
    else if s[0] == c then Some(0)
    else match IndexOf(s[1..], c)
      case None => None
      case Some(k) =>
        assert s[..k + 1] == [s[0]] + s[1..][..k];
        Some(k + 1)
  }

  /** The index of the last `c` in `s`. */
  function LastIndexOf(s: string, c: char): (r: Option<nat>)
    ensures r.None? <==> c !in s
    ensures r.Some? ==> r.value < |s| && s[r.value] == c && c !in s[r.value + 1..]
  {
    if s == [] then None
    else if s[|s| - 1] == c then Some(|s| - 1)
    else
      assert s == s[..|s| - 1] + [s[|s| - 1]];
      match LastIndexOf(s[..|s| - 1], c)
      case None => None
      case Some(k) =>
        assert s[k + 1..] == s[..|s| - 1][k + 1..] + [s[|s| - 1]];
        Some(k)
  }

  /** `str.strip()`: `s` without its leading and trailing white space. */
  function Strip(s: string): (r: string)
    ensures |r| <= |s|
    ensures r != [] ==> !IsSpace(r[0]) && !IsSpace(r[|r| - 1])
  {
    StripWith(s, IsSpace)
  }

  /** `str.strip(chars)` for the characters that satisfy `p`. */
  function StripWith(s: string, p: char -> bool): (r: string)
    ensures |r| <= |s|
    ensures r != [] ==> !p(r[0]) && !p(r[|r| - 1])
  {
    StripRight(StripLeft(s, p), p)
  }

  function StripLeft(s: string, p: char -> bool): (r: string)
    ensures |r| <= |s| && (r != [] ==> !p(r[0]))
    ensures r == s[|s| - |r|..]
  {
    if s != [] && p(s[0]) then StripLeft(s[1..], p) else s
  }

  function StripRight(s: string, p: char -> bool): (r: string)
    ensures |r| <= |s| && (r != [] ==> !p(r[|r| - 1]))
    ensures r == s[..|r|]
  {
    if s != [] && p(s[|s| - 1]) then StripRight(s[..|s| - 1], p) else s
  }

  /**
   * `str.split()` with no separator: the maximal runs of non-space
   * characters, in order. `cur` is the run being built.
   */
  function FieldsFrom(s: string, cur: string): (r: seq<string>)
    ensures forall k :: 0 <= k < |r| ==> r[k] != []
  {
    if s == [] then (if cur == [] then [] else [cur])
    else if IsSpace(s[0]) then (if cur == [] then FieldsFrom(s[1..], []) else [cur] + FieldsFrom(s[1..], []))
    else FieldsFrom(s[1..], cur + [s[0]])
  }

  function Fields(s: string): seq<string> {
    FieldsFrom(s, [])
  }

  /** `s.split(c, 1)` when `c` occurs in `s`: the text before the first `c` and the rest. */
  function SplitOnce(s: string, c: char): (r: Option<(string, string)>)
    ensures r.None? <==> c !in s
    ensures r.Some? ==> c !in r.value.0 && s == r.value.0 + [c] + r.value.1
  {
    match IndexOf(s, c)
    case None => None
    case Some(i) =>
      assert s == s[..i] + [c] + s[i + 1..];
      Some((s[..i], s[i + 1..]))
  }

  /** `s.split(c)[0]`: the text before the first `c`, or all of `s`. */
  function FirstPiece(s: string, c: char): (r: string)
    ensures c !in r
    ensures c !in s ==> r == s
    ensures c in s ==> |r| < |s| && s[|r|] == c
    ensures StartsWith(s, r)
  {
    match IndexOf(s, c)
    case None => s
    case Some(i) => s[..i]
  }

  /** `s.split(c)[1]` when `c` occurs in `s`: the text between the first and the second `c`. */
  function SecondPiece(s: string, c: char): (r: string)
    requires c in s
    ensures c !in r
  {
    var rest := SplitOnce(s, c).value.1;
    match IndexOf(rest, c)
    case None => rest
    case Some(j) => rest[..j]
  }

  /** `s.split(c)[-1]`: the text after the last `c`, or all of `s`. */
  function LastPiece(s: string, c: char): (r: string)
    ensures c !in r
    ensures c !in s ==> r == s
    ensures EndsWith(s, r)
  {
    match LastIndexOf(s, c)
    case None => s
    case Some(j) => s[j + 1..]
  }

  /** `s[:n]`: the first `n` elements, or all of `s` when it is shorter. */
  function Take<T>(s: seq<T>, n: nat): (r: seq<T>)
    ensures |r| == if |s| < n then |s| else n
    ensures r == s[..|r|]
  {
    if |s| <= n then s else s[..n]
  }

  /**
   * `file.readlines()` on the unread text `s`: pieces that each end just
   * after a newline, except possibly the last.
   */
  function ReadLines(s: string): (r: seq<string>)
    ensures r == [] <==> s == []
    decreases |s|
  {
    if s == [] then []
    else match IndexOf(s, '\n')
      case None => [s]
      case Some(i) => [s[..i + 1]] + ReadLines(s[i + 1..])
  }

  /** The lines of `ReadLines`, put back together, are the text that was read. */
  lemma {:induction false} ReadLinesConcat(s: string)
    ensures Concat(ReadLines(s)) == s
    decreases |s|
  {
    if s != [] {
      match IndexOf(s, '\n')
      case None =>
      case Some(i) =>
        ReadLinesConcat(s[i + 1..]);
        assert s == s[..i + 1] + s[i + 1..];
    }
  }

  function Concat(ls: seq<string>): string {
    if ls == [] then [] else ls[0] + Concat(ls[1..])
  }

  /** The value of a string of decimal digits. */
  function DigitsValue(s: string): (n: nat)
    requires AllDigits(s)
  {
    if s == [] then 0 else DigitsValue(s[..|s| - 1]) * 10 + (s[|s| - 1] as int - '0' as int)
  }

  /** `f.seek(pos); f.readlines()` on a file whose text is `content`; a position past the end reads nothing. */
  function UnreadLines(content: string, pos: nat): seq<string> {
    if pos <= |content| then ReadLines(content[pos..]) else []
  }

  /** `f.tell()` after that read: the end of the file, or `pos` when it lay past the end. */
  function PositionAfterRead(content: string, pos: nat): (r: nat)
    ensures pos <= r
    ensures UnreadLines(content, r) == []
    ensures (UnreadLines(content, pos) == []) <==> r == pos
  {
    if pos <= |content| then |content| else pos
  }

  /** Text appended after a read is exactly what the next read returns. */
  lemma AppendedTextIsReadNext(content: string, more: string, pos: nat)
    requires pos <= |content|
    ensures UnreadLines(content + more, PositionAfterRead(content, pos)) == ReadLines(more)
  {
    assert (content + more)[|content|..] == more;
  }
}
