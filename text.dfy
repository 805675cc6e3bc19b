/**
 * The parts of .NET's `System.String` that the providers rely on, over
 * strings of Unicode scalar values: ordinal and ASCII case-insensitive
 * comparison, `IndexOf` and `Replace`, `Char.IsWhiteSpace` and `Trim`,
 * `Split` and `Join` on one separator, and the decimal rendering of integers.
 */
module Text {

  // ---------------------------------------------------------------------------
  // Case folding (the invariant culture, restricted to ASCII letters)
  // ---------------------------------------------------------------------------

  function ToLowerAscii(c: char): char {
    if 'A' <= c <= 'Z' then (c as int + 32) as char else c
  }

  function ToUpperAscii(c: char): char {
    if 'a' <= c <= 'z' then (c as int - 32) as char else c
  }

  /** `String.ToUpperInvariant`, for ASCII letters. */
  function ToUpperInvariant(s: string): (r: string)
    ensures |r| == |s|
    ensures forall i :: 0 <= i < |s| ==> r[i] == ToUpperAscii(s[i])
  {
    if s == [] then [] else [ToUpperAscii(s[0])] + ToUpperInvariant(s[1..])
  }

  predicate EqualsIgnoreCase(a: string, b: string) {
    |a| == |b| && forall i :: 0 <= i < |a| ==> ToLowerAscii(a[i]) == ToLowerAscii(b[i])
  }

  /** `s.StartsWith(p, StringComparison.InvariantCultureIgnoreCase)`. */
  predicate StartsWithIgnoreCase(s: string, p: string) {
    |p| <= |s| && EqualsIgnoreCase(s[..|p|], p)
  }

  /** `s.EndsWith(p, StringComparison.InvariantCultureIgnoreCase)`. */
  predicate EndsWithIgnoreCase(s: string, p: string) {
    |p| <= |s| && EqualsIgnoreCase(s[|s| - |p|..], p)
  }

  // ---------------------------------------------------------------------------
  // Ordinal search
  // ---------------------------------------------------------------------------

  predicate StartsWith(s: string, p: string) {
    |p| <= |s| && s[..|p|] == p
  }

  predicate EndsWith(s: string, p: string) {
    |p| <= |s| && s[|s| - |p|..] == p
  }

  /** `p` occurs in `s` at index `i`. */
  predicate OccursAt(s: string, p: string, i: int) {
    0 <= i && i + |p| <= |s| && s[i..i + |p|] == p
  }

  predicate Contains(s: string, p: string) {
    exists i | 0 <= i <= |s| - |p| :: OccursAt(s, p, i)
  }

  function IndexOfFrom(s: string, p: string, from: nat): (r: int)
    decreases |s| - from
    ensures r == -1 || (from <= r && OccursAt(s, p, r))
    ensures r == -1 ==> forall j :: from <= j ==> !OccursAt(s, p, j)
    ensures r != -1 ==> forall j :: from <= j < r ==> !OccursAt(s, p, j)
  {
    if from + |p| > |s| then -1
    else if s[from..from + |p|] == p then from
    else IndexOfFrom(s, p, from + 1)
  }

  /** `s.IndexOf(p)`: the first index at which `p` occurs, or -1. */
  function IndexOf(s: string, p: string): (r: int)
    ensures r == -1 || OccursAt(s, p, r)
    ensures r == -1 <==> !Contains(s, p)
    ensures forall j :: 0 <= j < r ==> !OccursAt(s, p, j)
  {
    IndexOfFrom(s, p, 0)
  }

  /** `s.Replace(pattern, replacement)`: every occurrence, left to right, without overlap. */
  function ReplaceAll(s: string, pattern: string, replacement: string): string
    requires pattern != []
    decreases |s|
  {
    if |s| < |pattern| then s
    else if s[..|pattern|] == pattern then replacement + ReplaceAll(s[|pattern|..], pattern, replacement)
    else [s[0]] + ReplaceAll(s[1..], pattern, replacement)
  }

  /** Text without the pattern is left as it is. */
  lemma {:induction false} ReplaceAllWithout(s: string, pattern: string, replacement: string)
    requires pattern != [] && !Contains(s, pattern)
    ensures ReplaceAll(s, pattern, replacement) == s
    decreases |s|
  {
    if |pattern| <= |s| {
      assert !OccursAt(s, pattern, 0);
      assert forall i :: OccursAt(s[1..], pattern, i) ==> OccursAt(s, pattern, i + 1);
      ReplaceAllWithout(s[1..], pattern, replacement);
    }
  }

  /** `p` occurs at `k` and nowhere before. */
  predicate FirstAt(s: string, p: string, k: int) {
    OccursAt(s, p, k) && forall j :: 0 <= j < k ==> !OccursAt(s, p, j)
  }

  /**
   * Replacing keeps the text before the first occurrence, puts the
   * replacement in its place and goes on after it.
   */
  lemma ReplaceAllAtFirst(s: string, pattern: string, replacement: string)
    requires pattern != [] && Contains(s, pattern)
    ensures var k := IndexOf(s, pattern);
      ReplaceAll(s, pattern, replacement) == s[..k] + replacement + ReplaceAll(s[k + |pattern|..], pattern, replacement)
  {
    var k := IndexOf(s, pattern);
    FirstAtNoneBefore(s, pattern, k);
    ReplaceAllAt(s, pattern, replacement, k);
    assert ReplacedAt(s, pattern, replacement, k);
  }

  /** No occurrence of `p` starts before `k`, stated one position at a time. */
  predicate NoneBefore(s: string, p: string, k: int)
    decreases k
  {
    k <= 0 || (|p| <= |s| && s[..|p|] != p && NoneBefore(s[1..], p, k - 1))
  }

  lemma {:induction false} FirstAtNoneBefore(s: string, p: string, k: int)
    requires p != [] && FirstAt(s, p, k)
    ensures NoneBefore(s, p, k)
    decreases k
  {
    if k > 0 {
      FirstAtTail(s, p, k);
      FirstAtNoneBefore(s[1..], p, k - 1);
    }
  }

  /** Replacing in `s` keeps `s[..k]`, replaces the occurrence at `k` and goes on after it. */
  predicate ReplacedAt(s: string, pattern: string, replacement: string, k: int)
    requires pattern != []
  {
    0 <= k && k + |pattern| <= |s|
    && ReplaceAll(s, pattern, replacement) == s[..k] + replacement + ReplaceAll(s[k + |pattern|..], pattern, replacement)
  }

  lemma {:induction false} ReplaceAllAt(s: string, pattern: string, replacement: string, k: int)
    requires pattern != [] && OccursAt(s, pattern, k) && NoneBefore(s, pattern, k)
    ensures ReplacedAt(s, pattern, replacement, k)
    decreases k
  {
    if k == 0 {
      ReplaceAllAtStart(s, pattern, replacement);
    } else {
      OccursShift(s, pattern, k - 1);
      ReplaceAllAt(s[1..], pattern, replacement, k - 1);
      ReplaceAllStepBack(s, pattern, replacement, k);
    }
  }

  /** An occurrence in the tail of `s` is an occurrence in `s` one place on. */
  lemma OccursShift(s: string, p: string, j: int)
    requires s != [] && 0 <= j
    ensures OccursAt(s[1..], p, j) <==> OccursAt(s, p, j + 1)
  {
    if j + 1 + |p| <= |s| {
      assert s[1..][j..j + |p|] == s[j + 1..j + 1 + |p|];
    }
  }

  /** An occurrence found in the tail, after a head that starts none, is found one place on in `s`. */
  lemma ReplaceAllStepBack(s: string, pattern: string, replacement: string, k: int)
    requires pattern != [] && 1 <= k && k + |pattern| <= |s| && s[..|pattern|] != pattern
    requires ReplacedAt(s[1..], pattern, replacement, k - 1)
    ensures ReplacedAt(s, pattern, replacement, k)
  {
    var t := s[1..];
    TailSlices(s, k, |pattern|);
    ReplaceAllKeepsHead(s, pattern, replacement);
    var rest := ReplaceAll(s[k + |pattern|..], pattern, replacement);
    Regroup(s[0], t[..k - 1], s[..k], replacement, rest,
            ReplaceAll(s, pattern, replacement), ReplaceAll(t, pattern, replacement));
  }

  lemma ReplaceAllAtStart(s: string, pattern: string, replacement: string)
    requires pattern != [] && OccursAt(s, pattern, 0)
    ensures ReplacedAt(s, pattern, replacement, 0)
  {
    assert s[..0] + replacement == replacement;
  }

  lemma Regroup(c: char, a: string, b: string, x: string, y: string, whole: string, tail: string)
    requires [c] + a == b && whole == [c] + tail && tail == a + x + y
    ensures whole == b + x + y
  {
  }

  /** Without an occurrence at 0, the first occurrence in the tail is one place earlier. */
  lemma FirstAtTail(s: string, p: string, k: int)
    requires p != [] && FirstAt(s, p, k) && k >= 1
    ensures |p| <= |s| && s[..|p|] != p
    ensures FirstAt(s[1..], p, k - 1)
  {
    assert !OccursAt(s, p, 0);
    OccursShift(s, p, k - 1);
    forall j | 0 <= j < k - 1
      ensures !OccursAt(s[1..], p, j)
    {
      OccursShift(s, p, j);
    }
  }

  lemma ReplaceAllKeepsHead(s: string, pattern: string, replacement: string)
    requires pattern != [] && |pattern| <= |s| && s[..|pattern|] != pattern
    ensures ReplaceAll(s, pattern, replacement) == [s[0]] + ReplaceAll(s[1..], pattern, replacement)
  {
  }

  lemma TailSlices(s: string, k: int, n: nat)
    requires 1 <= k && k + n <= |s|
    ensures [s[0]] + s[1..][..k - 1] == s[..k]
    ensures s[1..][k - 1 + n..] == s[k + n..]
  {
  }

  // ---------------------------------------------------------------------------
  // White space and Trim
  // ---------------------------------------------------------------------------

  /** `Char.IsWhiteSpace`: the Unicode White_Space characters. */
  predicate IsWhiteSpace(c: char) {
    || '\t' <= c <= '\r'
    || c == ' '
    || c == '\U{85}'
    || c == '\U{A0}'
    || c == '\U{1680}'
    || '\U{2000}' <= c <= '\U{200A}'
    || c == '\U{2028}'
    || c == '\U{2029}'
    || c == '\U{202F}'
    || c == '\U{205F}'
    || c == '\U{3000}'
  }

  /** `String.IsNullOrWhiteSpace` for a non-null string. */
  predicate IsBlank(s: string) {
    forall i :: 0 <= i < |s| ==> IsWhiteSpace(s[i])
  }

  /** Neither the first nor the last character is white space. */
  predicate IsTrimmed(s: string) {
    s == [] || (!IsWhiteSpace(s[0]) && !IsWhiteSpace(s[|s| - 1]))
  }

  function TrimLeading(s: string): (r: string)
    ensures |r| <= |s| && r == s[|s| - |r|..]
    ensures r == [] || !IsWhiteSpace(r[0])
    ensures forall i :: 0 <= i < |s| - |r| ==> IsWhiteSpace(s[i])
  {
    if s != [] && IsWhiteSpace(s[0]) then TrimLeading(s[1..]) else s
  }

  function TrimTrailing(s: string): (r: string)
    ensures |r| <= |s| && r == s[..|r|]
    ensures r == [] || !IsWhiteSpace(r[|r| - 1])
    ensures forall i :: |r| <= i < |s| ==> IsWhiteSpace(s[i])
  {
    if s != [] && IsWhiteSpace(s[|s| - 1]) then TrimTrailing(s[..|s| - 1]) else s
  }

  /** `r` is `s[i..j]`, and what is cut away on either side is white space. */
  predicate IsCut(s: string, r: string, i: int, j: int) {
    0 <= i <= j <= |s| && r == s[i..j] && IsBlank(s[..i]) && IsBlank(s[j..])
  }

  /** `String.Trim()`: white space removed from both ends. */
  function Trim(s: string): (r: string)
    ensures IsTrimmed(r)
    ensures exists i, j :: IsCut(s, r, i, j)
    ensures forall c :: c in r ==> c in s
    ensures !IsBlank(s) ==> r != []
    ensures IsTrimmed(s) ==> r == s
  {
    TrimmedEnds(s);
    TrimKeepsChars(s);
    TrimKeepsNonBlank(s);
    var l := TrimLeading(s);
    LeadingCut(s);
    TrailingCut(l);
    TwoSidedCut(s, l, TrimTrailing(l));
    TrimTrailing(l)
  }

  lemma LeadingCut(s: string)
    ensures IsBlank(s[..|s| - |TrimLeading(s)|])
  {
    var n := |s| - |TrimLeading(s)|;
    assert forall k :: 0 <= k < n ==> s[..n][k] == s[k];
  }

  lemma TrailingCut(l: string)
    ensures IsBlank(l[|TrimTrailing(l)|..])
  {
    var n := |TrimTrailing(l)|;
    assert forall k :: 0 <= k < |l| - n ==> l[n..][k] == l[n + k];
  }

  /** A white-space head cut from `s`, then a white-space tail cut from the rest, is a cut. */
  lemma TwoSidedCut(s: string, l: string, r: string)
    requires |l| <= |s| && l == s[|s| - |l|..] && IsBlank(s[..|s| - |l|])
    requires |r| <= |l| && r == l[..|r|] && IsBlank(l[|r|..])
    ensures IsCut(s, r, |s| - |l|, |s| - |l| + |r|)
  {
    var i, j := |s| - |l|, |s| - |l| + |r|;
    assert s[i..j] == l[..|r|];
    assert s[j..] == l[|r|..];
  }

  /**
   * Trimming is the only cut with blank ends whose result is trimmed:
   * any such slice of `s` is `Trim(s)`.
   */
  lemma TrimUnique(s: string, r: string, i: int, j: int)
    requires IsCut(s, r, i, j) && IsTrimmed(r)
    ensures r == Trim(s)
  {
    var i', j' :| IsCut(s, Trim(s), i', j');
    CutsAgree(s, i, j, i', j');
  }

  lemma CutsAgree(s: string, i: int, j: int, i': int, j': int)
    requires 0 <= i <= j <= |s| && IsCut(s, s[i..j], i, j) && IsTrimmed(s[i..j])
    requires 0 <= i' <= j' <= |s| && IsCut(s, s[i'..j'], i', j') && IsTrimmed(s[i'..j'])
    ensures s[i..j] == s[i'..j']
  {
    CutEnds(s, i, j);
    CutEnds(s, i', j');
    if i < j {
      assert !IsWhiteSpace(s[i]) && !IsWhiteSpace(s[j - 1]);
    }
    if i' < j' {
      assert !IsWhiteSpace(s[i']) && !IsWhiteSpace(s[j' - 1]);
    }
  }

  /** Every character cut away is white space. */
  lemma CutEnds(s: string, i: int, j: int)
    requires 0 <= i <= j <= |s| && IsBlank(s[..i]) && IsBlank(s[j..])
    ensures forall k :: 0 <= k < i ==> IsWhiteSpace(s[k])
    ensures forall k :: j <= k < |s| ==> IsWhiteSpace(s[k])
  {
    assert forall k :: 0 <= k < i ==> s[..i][k] == s[k];
    assert forall k :: j <= k < |s| ==> s[j..][k - j] == s[k];
  }

  lemma TrimmedEnds(s: string)
    ensures IsTrimmed(TrimTrailing(TrimLeading(s)))
  {
    var l := TrimLeading(s);
    var r := TrimTrailing(l);
    if r != [] {
      assert r[0] == l[0];
    }
  }

  lemma TrimKeepsChars(s: string)
    ensures forall c :: c in TrimTrailing(TrimLeading(s)) ==> c in s
  {
    var l := TrimLeading(s);
    InnerKeepsChars(s, l, TrimTrailing(l));
  }

  /** A prefix of a suffix of `s` holds only characters of `s`. */
  lemma InnerKeepsChars(s: string, l: string, r: string)
    requires |l| <= |s| && l == s[|s| - |l|..]
    requires |r| <= |l| && r == l[..|r|]
    ensures forall c :: c in r ==> c in s
  {
    forall c | c in r
      ensures c in s
    {
      var k :| 0 <= k < |r| && r[k] == c;
      assert s[|s| - |l| + k] == c;
    }
  }

  lemma TrimKeepsNonBlank(s: string)
    ensures !IsBlank(s) ==> TrimTrailing(TrimLeading(s)) != []
  {
    if !IsBlank(s) {
      LeadingKeepsNonBlank(s);
      TrailingKeepsFirst(TrimLeading(s));
    }
  }

  lemma LeadingKeepsNonBlank(s: string)
    requires !IsBlank(s)
    ensures TrimLeading(s) != []
  {
    var l := TrimLeading(s);
    var i :| 0 <= i < |s| && !IsWhiteSpace(s[i]);
    assert |s| - |l| <= i;
  }

  lemma TrailingKeepsFirst(l: string)
    requires l != [] && !IsWhiteSpace(l[0])
    ensures TrimTrailing(l) != []
  {
  }

  // ---------------------------------------------------------------------------
  // Split and Join on one separator character
  // ---------------------------------------------------------------------------

  /** `String.Join(sep, parts)`. */
  function Join(parts: seq<string>, sep: char): string {
    if |parts| == 0 then ""
    else if |parts| == 1 then parts[0]
    else parts[0] + [sep] + Join(parts[1..], sep)
  }

  /** `s.Split(sep)` (no options): the pieces between separators, empty ones included. */
  function Split(s: string, sep: char): (parts: seq<string>)
    ensures |parts| >= 1
    ensures forall i :: 0 <= i < |parts| ==> sep !in parts[i]
    ensures Join(parts, sep) == s
  {
    if s == [] then [""]
    else
      var rest := Split(s[1..], sep);
      if s[0] == sep then
        assert Join([""] + rest, sep) == [sep] + Join(rest, sep) by {
          assert ([""] + rest)[1..] == rest;
        }
        [""] + rest
      else
        var parts := [[s[0]] + rest[0]] + rest[1..];
        assert parts[1..] == rest[1..];
        assert sep !in [s[0]] + rest[0];
        parts
  }

  lemma {:induction false} SplitWithoutSeparator(s: string, sep: char)
    requires sep !in s
    ensures Split(s, sep) == [s]
  {
    if s != [] {
      SplitWithoutSeparator(s[1..], sep);
    }
  }

  lemma {:induction false} SplitAtSeparator(a: string, b: string, sep: char)
    requires sep !in a
    ensures Split(a + [sep] + b, sep) == [a] + Split(b, sep)
  {
    if a == [] {
      assert (a + [sep] + b)[1..] == b;
    } else {
      var s := a + [sep] + b;
      assert s[0] == a[0] && s[1..] == a[1..] + [sep] + b;
      SplitAtSeparator(a[1..], b, sep);
      assert [a[0]] + a[1..] == a;
    }
  }

  /** Splitting a join of separator-free pieces gives the pieces back. */
  lemma {:induction false} SplitJoin(parts: seq<string>, sep: char)
    requires |parts| >= 1
    requires forall i :: 0 <= i < |parts| ==> sep !in parts[i]
    ensures Split(Join(parts, sep), sep) == parts
  {
    if |parts| == 1 {
      SplitWithoutSeparator(parts[0], sep);
    } else {
      SplitJoin(parts[1..], sep);
      SplitAtSeparator(parts[0], Join(parts[1..], sep), sep);
    }
  }

  // ---------------------------------------------------------------------------
  // Decimal rendering of integers (`Int32.ToString()`)
  // ---------------------------------------------------------------------------

  predicate IsDigit(c: char) {
    '0' <= c <= '9'
  }

  predicate AllDigits(s: string) {
    forall i :: 0 <= i < |s| ==> IsDigit(s[i])
  }

  function DigitChar(d: nat): (c: char)
    requires d < 10
  {
    (48 + d) as char
  }

  function ParseDigits(s: string): nat
    requires AllDigits(s)
  {
    if s == [] then 0 else ParseDigits(s[..|s| - 1]) * 10 + (s[|s| - 1] as int - 48)
  }

  /** The decimal digits of `n`, most significant first, with no leading zero. */
  function NatToString(n: nat): (s: string)
    ensures |s| >= 1 && AllDigits(s)
    ensures ParseDigits(s) == n
  {
    if n < 10 then [DigitChar(n)]
    else
      var s := NatToString(n / 10) + [DigitChar(n % 10)];
      assert s[..|s| - 1] == NatToString(n / 10);
      s
  }

  /** `Int32.ToString()` in the invariant culture. */
  function IntToString(i: int): (s: string)
    ensures |s| >= 1
  {
    if i < 0 then "-" + NatToString(-i) else NatToString(i)
  }

  /** Reads back a rendering produced by `IntToString`. */
  function ParseInt(s: string): int {
    if |s| >= 1 && s[0] == '-' && AllDigits(s[1..]) then -(ParseDigits(s[1..]) as int)
    else if AllDigits(s) then ParseDigits(s)
    else 0
  }

  lemma NatToStringInjective(a: nat, b: nat)
    requires NatToString(a) == NatToString(b)
    ensures a == b
  {
  }

  /** `ParseInt` inverts `IntToString`, so the rendering is injective. */
  lemma IntToStringRoundTrip(i: int)
    ensures ParseInt(IntToString(i)) == i
  {
    if i < 0 {
      var d := NatToString(-i);
      assert ("-" + d)[1..] == d;
      assert d[0] != '-';
    } else {
      assert NatToString(i)[0] != '-';
    }
  }
}
