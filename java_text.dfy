/**
 * The parts of java.lang.String that the assistants, the model classes and the
 * profile dialog rely on: whitespace tests, prefix/suffix/substring tests,
 * `trim`, literal `replace` and decimal rendering of integers.
 * A Java string is modelled as its sequence of code points.
 */
module JavaText {

  /** `Character.isWhitespace`: the Unicode space separators other than the
      no-break spaces, plus the ASCII controls TAB, LF, VT, FF, CR and FS..US. */
  predicate IsWhitespace(c: char) {
    c == ' ' || ('\t' <= c <= '\r') || ('\U{001C}' <= c <= '\U{001F}')
    || c == '\U{1680}' || ('\U{2000}' <= c <= '\U{2006}') || ('\U{2008}' <= c <= '\U{200A}')
    || c == '\U{2028}' || c == '\U{2029}' || c == '\U{205F}' || c == '\U{3000}'
  }

  /** `String.isBlank`: empty or white space only. */
  predicate IsBlank(s: string) {
    forall i :: 0 <= i < |s| ==> IsWhitespace(s[i])
  }

  /** `String.startsWith`. */
  predicate StartsWith(s: string, prefix: string) {
    |prefix| <= |s| && s[..|prefix|] == prefix
  }

  /** `String.endsWith`. */
  predicate EndsWith(s: string, suffix: string) {
    |suffix| <= |s| && s[|s| - |suffix|..] == suffix
  }

  /** `target` occurs in `s` starting at index `i`. */
  predicate OccursAt(s: string, target: string, i: int) {
    0 <= i <= |s| - |target| && s[i..i + |target|] == target
  }

  /** `String.contains`. */
  predicate Contains(s: string, target: string) {
    exists i :: 0 <= i <= |s| - |target| && OccursAt(s, target, i)
  }

  /** A string occurs in any string built around it. */
  lemma ContainsMiddle(a: string, target: string, b: string)
    ensures Contains(a + target + b, target)
  {
    assert (a + target + b)[|a|..|a| + |target|] == target;
    assert OccursAt(a + target + b, target, |a|);
  }

  /** A string built from three pieces starts with the first and ends with the last. */
  lemma Framed(a: string, middle: string, b: string)
    ensures StartsWith(a + middle + b, a) && EndsWith(a + middle + b, b)
  {
    var s := a + middle + b;
    assert s[..|a|] == a;
    assert s[|s| - |b|..] == b;
  }

  /** A non-whitespace character anywhere makes a string non-blank. */
  lemma NotBlankAt(s: string, i: int)
    requires 0 <= i < |s| && !IsWhitespace(s[i])
    ensures !IsBlank(s)
  {
  }

  /** A string containing a target with a non-whitespace character is not blank. */
  lemma ContainsNonBlankIsNotBlank(s: string, target: string)
    requires Contains(s, target) && !IsBlank(target)
    ensures !IsBlank(s)
  {
    var i :| 0 <= i <= |s| - |target| && OccursAt(s, target, i);
    var k :| 0 <= k < |target| && !IsWhitespace(target[k]);
    assert s[i..i + |target|][k] == target[k];
  }

  /** `String.trim`: drops every leading and trailing character whose code is at most U+0020. */
  function TrimStart(s: string): (r: string)
    ensures |r| <= |s| && r == s[|s| - |r|..]
    ensures r == [] || r[0] > ' '
    ensures forall i :: 0 <= i < |s| - |r| ==> s[i] <= ' '
  {
    if s != [] && s[0] <= ' ' then TrimStart(s[1..]) else s
  }

  function TrimEnd(s: string): (r: string)
    ensures |r| <= |s| && r == s[..|r|]
    ensures r == [] || r[|r| - 1] > ' '
    ensures forall i :: |r| <= i < |s| ==> s[i] <= ' '
  {
    if s != [] && s[|s| - 1] <= ' ' then TrimEnd(s[..|s| - 1]) else s
  }

  /** How many characters `trim` drops from the front of `s`. */
  function TrimmedLead(s: string): nat {
    |s| - |TrimStart(s)|
  }

  lemma TrimSlices(s: string, t: string, r: string)
    requires |t| <= |s| && t == s[|s| - |t|..]
    requires |r| <= |t| && r == t[..|r|]
    requires forall i :: |r| <= i < |t| ==> t[i] <= ' '
    ensures r == s[|s| - |t|..|s| - |t| + |r|]
    ensures forall i :: |s| - |t| + |r| <= i < |s| ==> s[i] <= ' '
  {
    var lead := |s| - |t|;
    forall i | lead + |r| <= i < |s| ensures s[i] <= ' ' {
      assert s[i] == t[i - lead];
    }
  }

  /** The trimmed string is the contiguous slice of `s` that starts after the
      dropped lead, neither starts nor ends with a character at or below U+0020,
      and only such characters were removed around it. */
  function Trim(s: string): (r: string)
    ensures TrimmedLead(s) + |r| <= |s| && r == s[TrimmedLead(s)..TrimmedLead(s) + |r|]
    ensures forall i :: 0 <= i < TrimmedLead(s) ==> s[i] <= ' '
    ensures forall i :: TrimmedLead(s) + |r| <= i < |s| ==> s[i] <= ' '
    ensures r == [] || (r[0] > ' ' && r[|r| - 1] > ' ')
  {
    var t := TrimStart(s);
    var r := TrimEnd(t);
    TrimSlices(s, t, r);
    r
  }

  /**
   * `String.replace(target, replacement)` for a non-empty target: scans left to
   * right and replaces every non-overlapping occurrence.
   */
  function ReplaceAll(s: string, target: string, replacement: string): string
    requires target != []
    decreases |s|
  {
    if |s| < |target| then s
    else if StartsWith(s, target) then replacement + ReplaceAll(s[|target|..], target, replacement)
    else [s[0]] + ReplaceAll(s[1..], target, replacement)
  }

  /** The number of occurrences `ReplaceAll` replaces. */
  function Occurrences(s: string, target: string): nat
    requires target != []
    decreases |s|
  {
    if |s| < |target| then 0
    else if StartsWith(s, target) then 1 + Occurrences(s[|target|..], target)
    else Occurrences(s[1..], target)
  }

  /** Multiplying by one more adds one more of the factor. */
  lemma OneMoreTimes(k: int, d: int)
    ensures (1 + k) * d == d + k * d
  {
  }

  /** Each replaced occurrence changes the length by the difference of the two lengths. */
  lemma {:induction false} ReplaceAllLength(s: string, target: string, replacement: string)
    requires target != []
    ensures |ReplaceAll(s, target, replacement)| == |s| + Occurrences(s, target) * (|replacement| - |target|)
    decreases |s|
  {
    if |s| < |target| {
    } else if StartsWith(s, target) {
      var rest := s[|target|..];
      ReplaceAllLength(rest, target, replacement);
      OneMoreTimes(Occurrences(rest, target), |replacement| - |target|);
    } else {
      ReplaceAllLength(s[1..], target, replacement);
    }
  }

  /** There is something to replace exactly when the target occurs at all. */
  lemma {:induction false} OccurrencesIffContains(s: string, target: string)
    requires target != []
    ensures Occurrences(s, target) > 0 <==> Contains(s, target)
    decreases |s|
  {
    if |s| < |target| {
    } else if StartsWith(s, target) {
      assert OccursAt(s, target, 0);
    } else {
      OccurrencesIffContains(s[1..], target);
      if Contains(s[1..], target) {
        var i :| 0 <= i <= |s| - 1 - |target| && OccursAt(s[1..], target, i);
        assert s[i + 1..i + 1 + |target|] == s[1..][i..i + |target|];
        assert OccursAt(s, target, i + 1);
      }
      if Contains(s, target) {
        var i :| 0 <= i <= |s| - |target| && OccursAt(s, target, i);
        assert i != 0;
        forall k | 0 <= k < |target| ensures s[1..][i - 1..i - 1 + |target|][k] == target[k] {
          assert s[i..i + |target|][k] == target[k];
        }
        assert s[1..][i - 1..i - 1 + |target|] == target;
        assert OccursAt(s[1..], target, i - 1);
      }
    }
  }

  /** When the target occurs, the result of `ReplaceAll` contains the replacement. */
  lemma {:induction false} ReplaceAllShowsReplacement(s: string, target: string, replacement: string)
    requires target != [] && Contains(s, target)
    ensures Contains(ReplaceAll(s, target, replacement), replacement)
    decreases |s|
  {
    var r := ReplaceAll(s, target, replacement);
    if StartsWith(s, target) {
      assert OccursAt(r, replacement, 0);
    } else {
      var i :| 0 <= i <= |s| - |target| && OccursAt(s, target, i);
      assert i != 0;
      assert OccursAt(s[1..], target, i - 1) by {
        assert s[1..][i - 1..i - 1 + |target|] == s[i..i + |target|];
      }
      ReplaceAllShowsReplacement(s[1..], target, replacement);
      var rest := ReplaceAll(s[1..], target, replacement);
      var j :| 0 <= j <= |rest| - |replacement| && OccursAt(rest, replacement, j);
      assert r[1..] == rest;
      assert r[j + 1..j + 1 + |replacement|] == r[1..][j..j + |replacement|];
      assert OccursAt(r, replacement, j + 1);
    }
  }

  /** Without an occurrence of the target, `ReplaceAll` leaves the string as it is. */
  lemma {:induction false} ReplaceAllAbsent(s: string, target: string, replacement: string)
    requires target != [] && !Contains(s, target)
    ensures ReplaceAll(s, target, replacement) == s
    decreases |s|
  {
    OccurrencesIffContains(s, target);
    ReplaceAllNoOccurrence(s, target, replacement);
  }

  lemma {:induction false} ReplaceAllNoOccurrence(s: string, target: string, replacement: string)
    requires target != [] && Occurrences(s, target) == 0
    ensures ReplaceAll(s, target, replacement) == s
    decreases |s|
  {
    if |s| >= |target| {
      ReplaceAllNoOccurrence(s[1..], target, replacement);
      assert [s[0]] + s[1..] == s;
    }
  }

  /** The ASCII digit for 0..9. */
  function Digit(d: nat): char
    requires d < 10
  {
    "0123456789"[d]
  }

  /** Decimal rendering of a natural number, as `Integer.toString` and `%d` give it. */
  function NatToString(n: nat): (r: string)
    ensures |r| >= 1
    ensures forall i :: 0 <= i < |r| ==> '0' <= r[i] <= '9'
  {
    if n < 10 then [Digit(n)] else NatToString(n / 10) + [Digit(n % 10)]
  }

  /** Decimal rendering of an integer, with a leading minus sign when negative. */
  function IntToString(n: int): string {
    if n < 0 then "-" + NatToString(-n) else NatToString(n)
  }

  /** Reads a string of decimal digits back as a number. */
  function ParseNat(s: string): nat
    requires forall i :: 0 <= i < |s| ==> '0' <= s[i] <= '9'
  {
    if s == [] then 0 else ParseNat(s[..|s| - 1]) * 10 + ((s[|s| - 1] as int) - ('0' as int))
  }

  /** Reading the rendering of a number gives the number back. */
  lemma {:induction false} NatToStringRoundTrip(n: nat)
    ensures ParseNat(NatToString(n)) == n
  {
    if n >= 10 {
      var s := NatToString(n);
      NatToStringRoundTrip(n / 10);
      assert s[..|s| - 1] == NatToString(n / 10);
    }
  }

  /** Different natural numbers have different renderings. */
  lemma NatToStringInjective(a: nat, b: nat)
    requires NatToString(a) == NatToString(b)
    ensures a == b
  {
    NatToStringRoundTrip(a);
    NatToStringRoundTrip(b);
  }

  /** Different integers have different renderings. */
  lemma IntToStringInjective(a: int, b: int)
    requires IntToString(a) == IntToString(b)
    ensures a == b
  {
    assert (IntToString(a)[0] == '-') == (a < 0);
    assert (IntToString(b)[0] == '-') == (b < 0);
    if a < 0 {
      assert NatToString(-a) == IntToString(a)[1..];
      assert NatToString(-b) == IntToString(b)[1..];
      NatToStringInjective(-a, -b);
    } else {
      NatToStringInjective(a, b);
    }
  }
}
