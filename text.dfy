/**
 * The string operations the Python source relies on, over `string` (= `seq<char>`):
 * `str.lower`, `str.strip`/`rstrip`, `in`, `find`/`rfind`, `split`, `join`, `startswith`,
 * `endswith`, slicing with Python's clamping rules, and rendering of integers.
 */
module Text {
  import opened Optional

  // ---------------------------------------------------------------- case folding

  /** Lower-case mapping of one character: ASCII A-Z, Cyrillic А-Я and Ё; everything else is kept. */
  function LowerChar(c: char): char {
    if 'A' <= c <= 'Z' then (c as int + 32) as char
    else if 0x410 <= c as int <= 0x42F then (c as int + 32) as char
    else if c as int == 0x401 then 0x451 as char
    else c
  }

  /** `s.lower()`, character by character. */
  function Lower(s: string): (r: string)
    ensures |r| == |s|
    ensures forall i :: 0 <= i < |s| ==> r[i] == LowerChar(s[i])
  {
    if s == [] then [] else [LowerChar(s[0])] + Lower(s[1..])
  }

  // ---------------------------------------------------------------- whitespace

  /**
   * The characters `str.isspace()` accepts, which are those `str.strip()` and `str.rstrip()`
   * remove: \t \n \v \f \r, the separators U+001C-U+001F, the space, U+0085, the no-break
   * space U+00A0, and the Unicode spaces U+1680, U+2000-U+200A, U+2028, U+2029, U+202F, U+205F
   * and U+3000.
   */
  predicate IsSpace(c: char) {
    var n := c as int;
    || 0x09 <= n <= 0x0D
    || 0x1C <= n <= 0x20
    || n == 0x85 || n == 0xA0 || n == 0x1680
    || 0x2000 <= n <= 0x200A
    || n == 0x2028 || n == 0x2029 || n == 0x202F || n == 0x205F || n == 0x3000
  }

  /** All characters of `s` are whitespace. */
  ghost predicate AllSpace(s: string) {
    forall i :: 0 <= i < |s| ==> IsSpace(s[i])
  }

  /** `s.rstrip()`: the longest prefix of `s` that does not end in whitespace. */
  function RStrip(s: string): (r: string)
    ensures |r| <= |s| && r == s[..|r|]
    ensures r == [] || !IsSpace(r[|r| - 1])
    ensures AllSpace(s[|r|..])
  {
    if |s| > 0 && IsSpace(s[|s| - 1]) then
      var r := RStrip(s[..|s| - 1]);
      assert s[|r|..] == s[..|s| - 1][|r|..] + [s[|s| - 1]];
      r
    else s
  }

  /** `s.lstrip()`: the longest suffix of `s` that does not start with whitespace. */
  function LStrip(s: string): (r: string)
    ensures |r| <= |s| && r == s[|s| - |r|..]
    ensures r == [] || !IsSpace(r[0])
    ensures AllSpace(s[..|s| - |r|])
  {
    if |s| > 0 && IsSpace(s[0]) then
      var r := LStrip(s[1..]);
      assert s[..|s| - |r|] == [s[0]] + s[1..][..|s| - 1 - |r|];
      r
    else s
  }

  /** `s.strip()`. */
  function Strip(s: string): string {
    LStrip(RStrip(s))
  }

  /** A text is blank (`not s.strip()`) exactly when every character is whitespace. */
  lemma StripEmptyIffAllSpace(s: string)
    ensures Strip(s) == [] <==> AllSpace(s)
  {
    var r := RStrip(s);
    assert r[..|r|] == r;
    assert r != [] ==> r[|r| - 1] == s[|r| - 1];
    if Strip(s) == [] {
      forall i | 0 <= i < |s| ensures IsSpace(s[i]) {
        if i >= |r| {
          assert s[i] == s[|r|..][i - |r|];
        }
      }
    }
  }

  // ---------------------------------------------------------------- searching

  predicate StartsWith(s: string, p: string) {
    |p| <= |s| && s[..|p|] == p
  }

  predicate EndsWith(s: string, p: string) {
    |p| <= |s| && s[|s| - |p|..] == p
  }

  /** `p` occurs in `s` at index `j`. */
  predicate MatchAt(s: string, p: string, j: nat) {
    j + |p| <= |s| && s[j..j + |p|] == p
  }

  function IndexFrom(s: string, p: string, j: nat): (r: Option<nat>)
    ensures r.Some? ==> j <= r.value && MatchAt(s, p, r.value)
    ensures r.Some? ==> forall k :: j <= k < r.value ==> !MatchAt(s, p, k)
    ensures r.None? ==> forall k :: j <= k ==> !MatchAt(s, p, k)
    decreases |s| - j
  {
    if j + |p| > |s| then None
    else if s[j..j + |p|] == p then Some(j)
    else IndexFrom(s, p, j + 1)
  }

  /** `s.find(p)`: the first index at which `p` occurs, or None for Python's -1. */
  function IndexOf(s: string, p: string): (r: Option<nat>)
    ensures r.Some? ==> MatchAt(s, p, r.value) && forall k :: 0 <= k < r.value ==> !MatchAt(s, p, k)
    ensures r.None? ==> forall k: nat :: !MatchAt(s, p, k)
  {
    IndexFrom(s, p, 0)
  }

  /** Python's `p in s`. */
  predicate Contains(s: string, p: string) {
    IndexOf(s, p).Some?
  }

  lemma ContainsAt(s: string, p: string, j: nat)
    requires MatchAt(s, p, j)
    ensures Contains(s, p)
  {
  }

  lemma ContainsSelf(s: string)
    ensures Contains(s, s)
  {
    assert MatchAt(s, s, 0);
  }

  /** The substring test is monotone: what occurs in a part occurs in the whole. */
  lemma ContainsInSlice(s: string, i: nat, j: nat, p: string)
    requires i <= j <= |s| && Contains(s[i..j], p)
    ensures Contains(s, p)
  {
    var k := IndexOf(s[i..j], p).value;
    assert s[i + k..i + k + |p|] == s[i..j][k..k + |p|];
    ContainsAt(s, p, i + k);
  }

  /** `s.rfind(c)` for a single character: the last index holding `c`. */
  function LastIndexOfChar(s: string, c: char): (r: Option<nat>)
    ensures r.Some? ==> r.value < |s| && s[r.value] == c && forall k :: r.value < k < |s| ==> s[k] != c
    ensures r.None? ==> forall k :: 0 <= k < |s| ==> s[k] != c
  {
    if s == [] then None
    else if s[|s| - 1] == c then Some(|s| - 1)
    else LastIndexOfChar(s[..|s| - 1], c)
  }

  /** `s.find(c)` for a single character. */
  function IndexOfChar(s: string, c: char): (r: Option<nat>)
    ensures r.Some? ==> r.value < |s| && s[r.value] == c && forall k :: 0 <= k < r.value ==> s[k] != c
    ensures r.None? ==> forall k :: 0 <= k < |s| ==> s[k] != c
  {
    if s == [] then None
    else if s[0] == c then Some(0)
    else match IndexOfChar(s[1..], c)
      case None => None
      case Some(k) => Some(k + 1)
  }

  /** `s.count(p)` for a two-character `p` whose characters differ, so that occurrences never overlap. */
  function CountPair(s: string, a: char, b: char): nat
    decreases |s|
  {
    if |s| < 2 then 0
    else if s[0] == a && s[1] == b then 1 + CountPair(s[2..], a, b)
    else CountPair(s[1..], a, b)
  }

  /** Every occurrence of the pair is counted: one occurrence gives a count of at least one. */
  lemma {:induction false} CountPairPositive(s: string, a: char, b: char, j: nat)
    requires a != b && MatchAt(s, [a, b], j)
    ensures CountPair(s, a, b) >= 1
    decreases |s|
  {
    assert s[j..j + 2][0] == s[j] && s[j..j + 2][1] == s[j + 1];
    if !(s[0] == a && s[1] == b) {
      assert s[1..][j - 1..j + 1] == s[j..j + 2];
      CountPairPositive(s[1..], a, b, j - 1);
    }
  }

  /** Two occurrences of the pair at different positions give a count of at least two. */
  lemma {:induction false} CountPairTwo(s: string, a: char, b: char, j: nat, k: nat)
    requires a != b && j < k && MatchAt(s, [a, b], j) && MatchAt(s, [a, b], k)
    ensures CountPair(s, a, b) >= 2
    decreases |s|
  {
    assert s[j..j + 2][0] == s[j] && s[j..j + 2][1] == s[j + 1];
    assert s[k..k + 2][0] == s[k] && s[k..k + 2][1] == s[k + 1];
    if s[0] == a && s[1] == b {
      if j == 0 {
        assert s[2..][k - 2..k] == s[k..k + 2];
        CountPairPositive(s[2..], a, b, k - 2);
      } else {
        assert s[2..][j - 2..j] == s[j..j + 2];
        assert s[2..][k - 2..k] == s[k..k + 2];
        CountPairTwo(s[2..], a, b, j - 2, k - 2);
      }
    } else {
      assert s[1..][j - 1..j + 1] == s[j..j + 2];
      assert s[1..][k - 1..k + 1] == s[k..k + 2];
      CountPairTwo(s[1..], a, b, j - 1, k - 1);
    }
  }

  // ---------------------------------------------------------------- slicing

  /** `s[:n]` with Python's rules: a negative `n` counts from the end, and the bounds are clamped. */
  function PySliceTo<T>(s: seq<T>, n: int): (r: seq<T>)
    ensures |r| <= |s| && r == s[..|r|]
    ensures n >= 0 ==> |r| == if n < |s| then n else |s|
    ensures n < 0 ==> |r| == if |s| + n > 0 then |s| + n else 0
  {
    if n >= 0 then (if n < |s| then s[..n] else s)
    else (if |s| + n > 0 then s[..|s| + n] else [])
  }

  /** `s[:n]` for a non-negative `n`. */
  function Take<T>(s: seq<T>, n: nat): (r: seq<T>)
    ensures |r| == if n < |s| then n else |s|
    ensures r == s[..|r|]
  {
    if n < |s| then s[..n] else s
  }

  // ---------------------------------------------------------------- split and join

  /** `s.split(sep)` for a non-empty separator: the pieces between leftmost non-overlapping occurrences. */
  function Split(s: string, sep: string): (r: seq<string>)
    requires |sep| > 0
    ensures |r| >= 1
    decreases |s|
  {
    match IndexOf(s, sep)
    case None => [s]
    case Some(i) => [s[..i]] + Split(s[i + |sep|..], sep)
  }

  /** `sep.join(parts)`. */
  function Join(parts: seq<string>, sep: string): string
  {
    if |parts| == 0 then ""
    else if |parts| == 1 then parts[0]
    else parts[0] + sep + Join(parts[1..], sep)
  }

  /** `''.join(parts)`, the text `writelines` produces. */
  function Concat(parts: seq<string>): string
  {
    if parts == [] then "" else parts[0] + Concat(parts[1..])
  }

  lemma ConcatAppend(a: seq<string>, b: seq<string>)
    ensures Concat(a + b) == Concat(a) + Concat(b)
  {
    if a == [] {
      assert a + b == b;
    } else {
      assert (a + b)[0] == a[0];
      assert (a + b)[1..] == a[1..] + b;
      ConcatAppend(a[1..], b);
    }
  }

  /** `s.replace(pattern, with)` for a non-empty `pattern`: every non-overlapping occurrence, left to right. */
  function Replace(s: string, pattern: string, with: string): string
    requires |pattern| > 0
  {
    Join(Split(s, pattern), with)
  }

  /** With a single occurrence of `pattern`, at `k`, `replace` splices `with` in its place. */
  lemma ReplaceOnce(s: string, pattern: string, with: string, k: nat)
    requires |pattern| > 0 && MatchAt(s, pattern, k)
    requires forall j: nat :: j != k ==> !MatchAt(s, pattern, j)
    ensures Replace(s, pattern, with) == s[..k] + with + s[k + |pattern|..]
  {
    var rest := s[k + |pattern|..];
    forall j: nat ensures !MatchAt(rest, pattern, j) {
      assert !MatchAt(s, pattern, k + |pattern| + j);
      if j + |pattern| <= |rest| {
        assert s[k + |pattern| + j..k + |pattern| + j + |pattern|] == rest[j..j + |pattern|];
      }
    }
    assert IndexOf(s, pattern) == Some(k);
    assert IndexOf(rest, pattern) == None;
    assert Split(rest, pattern) == [rest];
    assert Split(s, pattern) == [s[..k], rest];
    assert Join([s[..k], rest], with) == s[..k] + with + Join([rest], with);
  }

  /** `' ' * n`. */
  function Spaces(n: nat): (r: string)
    ensures |r| == n && forall i :: 0 <= i < n ==> r[i] == ' '
  {
    if n == 0 then "" else Spaces(n - 1) + " "
  }

  /** Joining the pieces of a split gives the original text back. */
  lemma {:induction false} JoinSplit(s: string, sep: string)
    requires |sep| > 0
    ensures Join(Split(s, sep), sep) == s
    decreases |s|
  {
    var o := IndexOf(s, sep);
    if o.Some? {
      var i := o.value;
      var rest := s[i + |sep|..];
      JoinSplit(rest, sep);
      SplitAt(s, sep, i);
      JoinCons(s[..i], Split(rest, sep), sep);
      PiecesAt(s, sep, i);
    }
  }

  /** The split at the first occurrence `i`. */
  lemma SplitAt(s: string, sep: string, i: nat)
    requires |sep| > 0 && IndexOf(s, sep) == Some(i)
    ensures Split(s, sep) == [s[..i]] + Split(s[i + |sep|..], sep)
  {
  }

  lemma JoinCons(p: string, tail: seq<string>, sep: string)
    requires |tail| >= 1
    ensures Join([p] + tail, sep) == p + sep + Join(tail, sep)
  {
    var parts := [p] + tail;
    assert parts[0] == p && parts[1..] == tail;
  }

  lemma PiecesAt(s: string, sep: string, i: nat)
    requires MatchAt(s, sep, i)
    ensures s == s[..i] + sep + s[i + |sep|..]
  {
    assert s == s[..i] + s[i..i + |sep|] + s[i + |sep|..];
  }

  /** A split yields more than one piece exactly when the separator occurs. */
  lemma SplitManyIffContains(s: string, sep: string)
    requires |sep| > 0
    ensures |Split(s, sep)| > 1 <==> Contains(s, sep)
  {
  }

  /** Joining with a separator that the parts do not contain, then splitting, gives the parts back. */
  lemma {:induction false} SplitJoin(parts: seq<string>, c: char, d: char)
    requires |parts| >= 1
    requires forall k, i :: 0 <= k < |parts| && 0 <= i < |parts[k]| ==> parts[k][i] != c
    ensures Split(Join(parts, [c, d]), [c, d]) == parts
  {
    var sep := [c, d];
    var s := Join(parts, sep);
    if |parts| == 1 {
      NoMatchWithout(parts[0], c, d, |parts[0]|);
    } else {
      var rest := Join(parts[1..], sep);
      assert s == parts[0] + sep + rest;
      var p := parts[0];
      forall j | 0 <= j < |p| ensures s[j] != c {
        assert s[j] == p[j];
      }
      NoMatchWithout(s, c, d, |p|);
      assert MatchAt(s, sep, |p|) by {
        assert s[|p|..|p| + 2] == sep;
      }
      assert IndexOf(s, sep) == Some(|p|);
      assert s[|p| + 2..] == rest;
      assert s[..|p|] == p;
      SplitJoin(parts[1..], c, d);
      assert Split(s, sep) == [p] + Split(rest, sep);
      assert parts == [p] + parts[1..];
    }
  }

  /** `[c, d]` cannot occur before the first `c`. */
  lemma NoMatchWithout(s: string, c: char, d: char, upTo: nat)
    requires forall j :: 0 <= j < |s| && j < upTo ==> s[j] != c
    ensures forall k :: 0 <= k < upTo ==> !MatchAt(s, [c, d], k)
  {
    forall k | 0 <= k < upTo ensures !MatchAt(s, [c, d], k) {
      if k + 2 <= |s| {
        assert s[k..k + 2][0] == s[k];
      }
    }
  }

  // ---------------------------------------------------------------- integers as text

  function DigitChar(d: nat): char
    requires d < 10
  {
    ('0' as int + d) as char
  }

  /** `str(n)` for a natural number, most significant digit first. */
  function NatToString(n: nat): (r: string)
    ensures |r| >= 1
    ensures forall i :: 0 <= i < |r| ==> '0' <= r[i] <= '9'
    decreases n
  {
    if n < 10 then [DigitChar(n)] else NatToString(n / 10) + [DigitChar(n % 10)]
  }

  /** The value of a string of decimal digits. */
  function DigitsValue(s: string): nat
    requires forall i :: 0 <= i < |s| ==> '0' <= s[i] <= '9'
  {
    if s == [] then 0 else DigitsValue(s[..|s| - 1]) * 10 + (s[|s| - 1] as int - '0' as int)
  }

  /** Rendering a natural number and reading its digits back gives the number. */
  lemma {:induction false} NatToStringValue(n: nat)
    ensures DigitsValue(NatToString(n)) == n
    decreases n
  {
    if n >= 10 {
      NatToStringValue(n / 10);
      var r := NatToString(n);
      assert r[..|r| - 1] == NatToString(n / 10);
    }
  }
}
