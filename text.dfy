/**
 * The string operations of the Python and TypeScript standard libraries that
 * the application relies on: `str.join`, `str.strip` (and `String.trim`),
 * `str.lower`, `os.path.splitext`, `os.path.basename`, the replacement of one
 * character by another, concatenation of chunks, and the decimal rendering of
 * a natural number inside an f-string or a template literal.
 */
module Text {

  /** `s` occurs verbatim somewhere in `t`. */
  ghost predicate IsInfix(s: string, t: string) {
    exists i :: InfixAt(s, t, i)
  }

  /** `s` occurs in `t` starting at index `i`. */
  predicate InfixAt(s: string, t: string, i: int) {
    0 <= i <= |t| - |s| && t[i..i + |s|] == s
  }

  /** `s` is a prefix of `t`. */
  predicate IsPrefix(s: string, t: string) {
    |s| <= |t| && t[..|s|] == s
  }

  /** `s` is a suffix of `t`. */
  predicate IsSuffix(s: string, t: string) {
    |s| <= |t| && t[|t| - |s|..] == s
  }

  // ---------------------------------------------------------------------------
  // Joining

  /** `sep.join(parts)`: the parts in order with one `sep` between neighbours. */
  function Join(parts: seq<string>, sep: string): string
    decreases |parts|
  {
    if |parts| == 0 then ""
    else if |parts| == 1 then parts[0]
    else Join(parts[..|parts| - 1], sep) + sep + parts[|parts| - 1]
  }

  /** `"".join(parts)`, or the running `+=` of a sequence of chunks. */
  function Concat(parts: seq<string>): string
    decreases |parts|
  {
    if |parts| == 0 then "" else Concat(parts[..|parts| - 1]) + parts[|parts| - 1]
  }

  /** The total length of the parts. */
  function SumLengths(parts: seq<string>): nat
    decreases |parts|
  {
    if |parts| == 0 then 0 else SumLengths(parts[..|parts| - 1]) + |parts[|parts| - 1]|
  }

  lemma JoinSnoc(parts: seq<string>, sep: string, x: string)
    requires |parts| > 0
    ensures Join(parts + [x], sep) == Join(parts, sep) + sep + x
  {
    assert (parts + [x])[..|parts|] == parts;
  }

  lemma ConcatSnoc(parts: seq<string>, x: string)
    ensures Concat(parts + [x]) == Concat(parts) + x
  {
    assert (parts + [x])[..|parts|] == parts;
  }

  /** Joining two non-empty lists puts exactly one separator at the seam. */
  lemma {:induction false} JoinAppend(xs: seq<string>, ys: seq<string>, sep: string)
    requires |xs| > 0 && |ys| > 0
    ensures Join(xs + ys, sep) == Join(xs, sep) + sep + Join(ys, sep)
    decreases |ys|
  {
    if |ys| == 1 {
      assert ys == [ys[0]];
      JoinSnoc(xs, sep, ys[0]);
    } else {
      var init, last := ys[..|ys| - 1], ys[|ys| - 1];
      assert ys == init + [last];
      assert xs + ys == (xs + init) + [last];
      JoinAppend(xs, init, sep);
      JoinSnoc(xs + init, sep, last);
      JoinSnoc(init, sep, last);
    }
  }

  /** n non-empty parts are separated by exactly n - 1 separators. */
  lemma {:induction false} JoinLength(parts: seq<string>, sep: string)
    requires |parts| > 0
    ensures |Join(parts, sep)| == SumLengths(parts) + (|parts| - 1) * |sep|
    decreases |parts|
  {
    if |parts| > 1 {
      var n := |parts|;
      JoinLength(parts[..n - 1], sep);
      assert (n - 1) * |sep| == (n - 2) * |sep| + |sep|;
    }
  }

  /** A non-empty join starts with its first part. */
  lemma {:induction false} JoinStartsWith(parts: seq<string>, sep: string)
    requires |parts| > 0
    ensures IsPrefix(parts[0], Join(parts, sep))
    decreases |parts|
  {
    if |parts| > 1 {
      JoinStartsWith(parts[..|parts| - 1], sep);
    }
  }

  /** Every part occurs verbatim in the join. */
  lemma {:induction false} JoinContains(parts: seq<string>, sep: string, k: nat)
    requires k < |parts|
    ensures IsInfix(parts[k], Join(parts, sep))
  {
    var front := parts[..k + 1];
    var joined := Join(front, sep);
    assert IsSuffix(parts[k], joined) by {
      if k > 0 {
        assert front[..k] == parts[..k];
      }
    }
    if k + 1 == |parts| {
      assert front == parts;
    } else {
      assert front + parts[k + 1..] == parts;
      JoinAppend(front, parts[k + 1..], sep);
    }
    var i := |joined| - |parts[k]|;
    assert Join(parts, sep)[i..i + |parts[k]|] == joined[i..] == parts[k];
    assert InfixAt(parts[k], Join(parts, sep), i);
  }

  // ---------------------------------------------------------------------------
  // Whitespace

  /**
   * Whose notion of whitespace a strip follows: the backend strips with
   * Python's `str.strip()`, the frontend with JavaScript's `String.trim()`.
   */
  datatype Runtime = Python | JavaScript

  /** Whitespace to both runtimes: the Unicode space separators and line breaks they share. */
  predicate IsCommonSpace(c: char) {
    ('\t' <= c <= '\r') || c == ' ' || c == '\U{A0}' || c == '\U{1680}'
    || ('\U{2000}' <= c <= '\U{200A}') || c == '\U{2028}' || c == '\U{2029}'
    || c == '\U{202F}' || c == '\U{205F}' || c == '\U{3000}'
  }

  /**
   * `c.isspace()` in Python, which adds the information separators
   * U+001C..U+001F and U+0085; JavaScript's white space instead adds the
   * byte order mark U+FEFF.
   */
  predicate IsSpace(rt: Runtime, c: char) {
    IsCommonSpace(c)
    || (rt == Python && (('\U{1C}' <= c <= '\U{1F}') || c == '\U{85}'))
    || (rt == JavaScript && c == '\U{FEFF}')
  }

  predicate AllSpace(rt: Runtime, s: string) {
    forall i :: 0 <= i < |s| ==> IsSpace(rt, s[i])
  }

  /** `s` is `r` with a run of whitespace before it and another after it. */
  predicate SpaceAround(rt: Runtime, s: string, r: string) {
    exists k :: 0 <= k <= |s| - |r| && s[k..k + |r|] == r
      && AllSpace(rt, s[..k]) && AllSpace(rt, s[k + |r|..])
  }

  /** The number of whitespace characters at the start of `s`. */
  function LeadingSpaces(rt: Runtime, s: string): (n: nat)
    ensures n <= |s|
    ensures forall i :: 0 <= i < n ==> IsSpace(rt, s[i])
    ensures n < |s| ==> !IsSpace(rt, s[n])
    decreases |s|
  {
    if |s| > 0 && IsSpace(rt, s[0]) then 1 + LeadingSpaces(rt, s[1..]) else 0
  }

  /** The number of whitespace characters at the end of `s`. */
  function TrailingSpaces(rt: Runtime, s: string): (n: nat)
    ensures n <= |s|
    ensures forall i :: |s| - n <= i < |s| ==> IsSpace(rt, s[i])
    ensures n < |s| ==> !IsSpace(rt, s[|s| - n - 1])
    decreases |s|
  {
    if |s| > 0 && IsSpace(rt, s[|s| - 1]) then 1 + TrailingSpaces(rt, s[..|s| - 1]) else 0
  }

  /**
   * `s.strip()` in Python (`rt == Python`) and `s.trim()` in TypeScript
   * (`rt == JavaScript`).
   */
  function Strip(rt: Runtime, s: string): (r: string)
    ensures IsInfix(r, s)
    ensures r == "" <==> AllSpace(rt, s)
    ensures r != "" ==> !IsSpace(rt, r[0]) && !IsSpace(rt, r[|r| - 1])
  {
    var lead := LeadingSpaces(rt, s);
    var t := s[lead..];
    var trail := TrailingSpaces(rt, t);
    assert s[lead..lead + (|t| - trail)] == t[..|t| - trail];
    assert InfixAt(t[..|t| - trail], s, lead);
    assert AllSpace(rt, s) ==> lead == |s|;
    assert trail == |t| ==> lead == |s|;
    t[..|t| - trail]
  }

  /** `s.strip()` is truthy: some character of `s` is not whitespace. */
  predicate HasText(rt: Runtime, s: string)
    decreases |s|
  {
    |s| > 0 && (!IsSpace(rt, s[0]) || HasText(rt, s[1..]))
  }

  /** Truthiness of the stripped text is exactly `HasText`. */
  lemma {:induction false} HasTextIffStripped(rt: Runtime, s: string)
    ensures HasText(rt, s) <==> Strip(rt, s) != ""
    decreases |s|
  {
    if |s| > 0 {
      HasTextIffStripped(rt, s[1..]);
      if AllSpace(rt, s) {
        assert AllSpace(rt, s[1..]);
      } else if IsSpace(rt, s[0]) {
        assert !AllSpace(rt, s[1..]) by {
          if AllSpace(rt, s[1..]) {
            forall i | 0 <= i < |s| ensures IsSpace(rt, s[i]) {
              if i > 0 { assert s[i] == s[1..][i - 1]; }
            }
          }
        }
      }
    }
  }

  /** What strip removes is whitespace on either side and nothing else. */
  lemma StripSpaceAround(rt: Runtime, s: string)
    ensures SpaceAround(rt, s, Strip(rt, s))
  {
    var lead := LeadingSpaces(rt, s);
    var t := s[lead..];
    var trail := TrailingSpaces(rt, t);
    var r := Strip(rt, s);
    assert r == t[..|t| - trail];
    assert s[lead..lead + |r|] == r;
    assert AllSpace(rt, s[..lead]);
    assert s[lead + |r|..] == t[|t| - trail..];
  }

  // ---------------------------------------------------------------------------
  // Case, search and replacement

  /** `c.lower()` on ASCII letters. */
  function LowerChar(c: char): char {
    if 'A' <= c <= 'Z' then (c as int - 'A' as int + 'a' as int) as char else c
  }

  /** `s.lower()`, letter by letter. */
  function Lower(s: string): (r: string)
    ensures |r| == |s|
  {
    seq(|s|, i requires 0 <= i < |s| => LowerChar(s[i]))
  }

  /** `s.rfind(c)`: the last index of `c` in `s`, or -1. */
  function LastIndexOf(s: string, c: char): (r: int)
    ensures -1 <= r < |s|
    ensures r >= 0 ==> s[r] == c
    ensures forall j :: r < j < |s| ==> s[j] != c
    decreases |s|
  {
    if |s| == 0 then -1
    else if s[|s| - 1] == c then |s| - 1
    else LastIndexOf(s[..|s| - 1], c)
  }

  /** The text after the last `c`, or the whole of `s` when `c` does not occur. */
  function AfterLast(s: string, c: char): (r: string)
    ensures c !in r
    ensures IsSuffix(r, s)
    ensures |r| < |s| ==> s[|s| - |r| - 1] == c
  {
    s[LastIndexOf(s, c) + 1..]
  }

  /** `os.path.basename(p)` with `/` as the separator. */
  function Basename(p: string): string {
    AfterLast(p, '/')
  }

  /** Some character of `p[lo..hi]` is not a dot. */
  predicate HasNonDot(p: string, lo: int, hi: int)
    requires -1 <= lo && hi <= |p|
  {
    exists k :: lo <= k < hi && 0 <= k && p[k] != '.'
  }

  /**
   * `os.path.splitext(p)` with `/` as the separator: the extension runs from
   * the last dot of the final path component, unless only dots precede that
   * dot in the component (so `.bashrc` has no extension).
   */
  function SplitExt(p: string): (r: (string, string))
    ensures r.0 + r.1 == p
    ensures r.1 != "" ==> r.1[0] == '.' && '.' !in r.1[1..] && '/' !in r.1
    ensures r.1 != "" ==> HasNonDot(p, LastIndexOf(p, '/') + 1, |r.0|)
  {
    var sepIndex := LastIndexOf(p, '/');
    var dotIndex := LastIndexOf(p, '.');
    if sepIndex < dotIndex && HasNonDot(p, sepIndex + 1, dotIndex) then
      (p[..dotIndex], p[dotIndex..])
    else
      (p, "")
  }

  /** Some dot of `p` at or after `lo` has a non-dot before it, also at or after `lo`. */
  predicate DotAfterNonDot(p: string, lo: nat) {
    exists k, i :: lo <= k < i < |p| && p[k] != '.' && p[i] == '.'
  }

  /**
   * There is no extension exactly when no dot of the final component has a
   * non-dot before it in that component.
   */
  lemma SplitExtEmpty(p: string)
    ensures SplitExt(p).1 == "" <==> !DotAfterNonDot(p, LastIndexOf(p, '/') + 1)
  {
    var sepIndex, dotIndex := LastIndexOf(p, '/'), LastIndexOf(p, '.');
    if sepIndex < dotIndex && HasNonDot(p, sepIndex + 1, dotIndex) {
      assert SplitExt(p).1 != "" by {
        assert SplitExt(p).1 == p[dotIndex..];
      }
      assert DotAfterNonDot(p, sepIndex + 1) by {
        var k :| sepIndex + 1 <= k < dotIndex && 0 <= k && p[k] != '.';
        assert p[dotIndex] == '.';
      }
    } else {
      assert SplitExt(p).1 == "";
      assert !DotAfterNonDot(p, sepIndex + 1) by {
        forall k, i | sepIndex + 1 <= k < i < |p| && p[i] == '.'
          ensures p[k] == '.'
        {
          assert i <= dotIndex;
        }
      }
    }
  }

  /** `s.replace(target, replacement)` for single characters. */
  function ReplaceChar(s: string, target: char, replacement: char): (r: string)
    ensures |r| == |s|
    ensures forall i :: 0 <= i < |s| && s[i] == target ==> r[i] == replacement
    ensures forall i :: 0 <= i < |s| && s[i] != target ==> r[i] == s[i]
    ensures target != replacement ==> target !in r
  {
    seq(|s|, i requires 0 <= i < |s| => if s[i] == target then replacement else s[i])
  }

  // ---------------------------------------------------------------------------
  // Numbers

  function DigitChar(d: nat): (c: char)
    requires d < 10
    ensures '0' <= c <= '9'
  {
    ('0' as int + d) as char
  }

  /** The decimal digits of `n`, as `str(n)` or `f"{n}"` prints them. */
  function NatToString(n: nat): (r: string)
    ensures |r| > 0
    ensures forall i :: 0 <= i < |r| ==> '0' <= r[i] <= '9'
    ensures n < 10 <==> |r| == 1
  {
    if n < 10 then [DigitChar(n)] else NatToString(n / 10) + [DigitChar(n % 10)]
  }

  /** Different numbers print differently. */
  lemma {:induction false} NatToStringInjective(a: nat, b: nat)
    requires NatToString(a) == NatToString(b)
    ensures a == b
  {
    if a >= 10 {
      var sa, sb := NatToString(a), NatToString(b);
      assert sa[..|sa| - 1] == NatToString(a / 10);
      assert sb[..|sb| - 1] == NatToString(b / 10);
      NatToStringInjective(a / 10, b / 10);
      assert DigitChar(a % 10) == sa[|sa| - 1] == sb[|sb| - 1] == DigitChar(b % 10);
    }
  }
}
