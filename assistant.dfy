/**
 * The deterministic helpers every assistant shares: trimming the part of a
 * suggestion that repeats the code around the cursor, and concatenating the
 * profile's example scripts into one numbered text.
 */
module Assistant {
  import opened Wrappers
  import opened JavaText
  import opened Files

  function Min(a: int, b: int): int {
    if a <= b then a else b
  }

  /** The last `i` characters of `before` are a prefix of `s`. */
  predicate PrefixOverlap(before: string, s: string, i: nat) {
    i <= |before| && StartsWith(s, before[|before| - i..])
  }

  /** The first `i` characters of `after` are a suffix of `s`. */
  predicate SuffixOverlap(after: string, s: string, i: nat) {
    i <= |after| && EndsWith(s, after[..i])
  }

  /** The largest overlap length up to `bound` at the front of `s` (0 always qualifies). */
  function LongestPrefixOverlap(before: string, s: string, bound: nat): (n: nat)
    requires bound <= |before|
    ensures n <= bound && PrefixOverlap(before, s, n)
    ensures forall j :: n < j <= bound ==> !PrefixOverlap(before, s, j)
  {
    if bound == 0 then 0
    else if PrefixOverlap(before, s, bound) then bound
    else LongestPrefixOverlap(before, s, bound - 1)
  }

  /** The largest overlap length up to `bound` at the end of `s` (0 always qualifies). */
  function LongestSuffixOverlap(after: string, s: string, bound: nat): (n: nat)
    requires bound <= |after|
    ensures n <= bound && SuffixOverlap(after, s, n)
    ensures forall j :: n < j <= bound ==> !SuffixOverlap(after, s, j)
  {
    if bound == 0 then 0
    else if SuffixOverlap(after, s, bound) then bound
    else LongestSuffixOverlap(after, s, bound - 1)
  }

  /**
   * How much of the front of `s` repeats the code before the offset: the largest
   * i <= min(|s|, offset) such that `s` starts with the last i characters before the offset.
   */
  function PrefixCut(code: string, offset: nat, s: string): (p: nat)
    requires offset <= |code|
    ensures p <= |s| && p <= offset && StartsWith(s, code[offset - p..offset])
  {
    var before := code[..offset];
    var p := LongestPrefixOverlap(before, s, Min(|s|, offset));
    assert before[|before| - p..] == code[offset - p..offset];
    p
  }

  /** `s` without its repeated front, clamped to "" when the overlap covers all of `s`. */
  function WithoutPrefix(code: string, offset: nat, s: string): string
    requires offset <= |code|
  {
    var p := PrefixCut(code, offset, s);
    if |s| - p > 0 then s[p..] else ""
  }

  /**
   * How much of the end of `t` repeats the code after the offset: the largest
   * i <= min(|t|, |code| - offset) such that `t` ends with the first i characters
   * after the offset.
   */
  function EndOverlap(code: string, offset: nat, t: string): (q: nat)
    requires offset <= |code|
    ensures q <= |t| && offset + q <= |code|
    ensures EndsWith(t, code[offset..offset + q])
  {
    var after := code[offset..];
    var q := LongestSuffixOverlap(after, t, Min(|t|, |after|));
    assert t[|t| - q..] == after[..q] == code[offset..offset + q];
    q
  }

  /** The overlap `trimContextOverlap` cuts from the end of the prefix-trimmed suggestion. */
  function SuffixCut(code: string, offset: nat, s: string): (q: nat)
    requires offset <= |code|
    ensures q <= |WithoutPrefix(code, offset, s)| && offset + q <= |code|
    ensures EndsWith(WithoutPrefix(code, offset, s), code[offset..offset + q])
  {
    EndOverlap(code, offset, WithoutPrefix(code, offset, s))
  }

  /** No longer front of `s` than the prefix cut repeats the code before the offset. */
  lemma PrefixCutIsLargest(code: string, offset: nat, s: string)
    requires offset <= |code|
    ensures PrefixOverlap(code[..offset], s, PrefixCut(code, offset, s))
    ensures forall j :: PrefixCut(code, offset, s) < j <= Min(|s|, offset) ==> !PrefixOverlap(code[..offset], s, j)
  {
  }

  /** No longer end of the prefix-trimmed suggestion than the suffix cut repeats the code after the offset. */
  lemma SuffixCutIsLargest(code: string, offset: nat, s: string)
    requires offset <= |code|
    ensures SuffixOverlap(code[offset..], WithoutPrefix(code, offset, s), SuffixCut(code, offset, s))
    ensures forall j :: SuffixCut(code, offset, s) < j <= Min(|WithoutPrefix(code, offset, s)|, |code| - offset) ==>
              !SuffixOverlap(code[offset..], WithoutPrefix(code, offset, s), j)
  {
  }

  /**
   * The value of `trimContextOverlap`: the slice of the suggestion between the
   * prefix cut and the suffix cut, never longer than the suggestion.
   */
  function TrimmedOverlap(code: string, offset: nat, s: string): (r: string)
    requires offset <= |code|
    ensures PrefixCut(code, offset, s) + |r| + SuffixCut(code, offset, s) == |s|
    ensures r == s[PrefixCut(code, offset, s)..|s| - SuffixCut(code, offset, s)]
  {
    var t := WithoutPrefix(code, offset, s);
    t[..|t| - SuffixCut(code, offset, s)]
  }

  /**
   * The suggestion is the repeated tail of the code before the offset, then the
   * trimmed result, then the repeated head of the code after the offset.
   */
  lemma TrimmedDecomposition(code: string, offset: nat, s: string)
    requires offset <= |code|
    ensures |TrimmedOverlap(code, offset, s)| <= |s|
    ensures s == code[offset - PrefixCut(code, offset, s)..offset] + TrimmedOverlap(code, offset, s)
                 + code[offset..offset + SuffixCut(code, offset, s)]
  {
    var p := PrefixCut(code, offset, s);
    var t := WithoutPrefix(code, offset, s);
    var q := SuffixCut(code, offset, s);
    var r := TrimmedOverlap(code, offset, s);
    FrontCut(code, offset, s);
    BackCut(code, offset, s);
    SlicedBetween(s, p, t, q, r, code[offset - p..offset], code[offset..offset + q]);
  }

  /** The prefix cut splits the suggestion into the repeated code and the rest. */
  lemma FrontCut(code: string, offset: nat, s: string)
    requires offset <= |code|
    ensures var p := PrefixCut(code, offset, s);
            s[..p] == code[offset - p..offset] && WithoutPrefix(code, offset, s) == s[p..]
  {
  }

  /** The suffix cut splits the rest into the trimmed result and the repeated code. */
  lemma BackCut(code: string, offset: nat, s: string)
    requires offset <= |code|
    ensures var t, q := WithoutPrefix(code, offset, s), SuffixCut(code, offset, s);
            t[|t| - q..] == code[offset..offset + q] && TrimmedOverlap(code, offset, s) == t[..|t| - q]
  {
  }

  lemma SlicedBetween(s: string, p: nat, t: string, q: nat, r: string, head: string, tail: string)
    requires p <= |s| && s[..p] == head && t == s[p..]
    requires q <= |t| && t[|t| - q..] == tail && r == t[..|t| - q]
    ensures s == head + r + tail
  {
    assert s == s[..p] + s[p..];
    assert t == t[..|t| - q] + t[|t| - q..];
  }

  /** `trimContextOverlap`: two counting loops, each keeping the last (so largest) overlap length found. */
  method TrimContextOverlap(code: string, offset: int, suggestion: string) returns (r: string)
    requires 0 <= offset <= |code|
    ensures r == TrimmedOverlap(code, offset, suggestion)
  {
    var codeBeforeOffset := code[..offset];
    var codeAfterOffset := code[offset..];
    var prefixLength := CountPrefixOverlap(codeBeforeOffset, suggestion);
    var trimmed := if |suggestion| - prefixLength > 0 then suggestion[prefixLength..] else "";
    var suffixLength := CountSuffixOverlap(codeAfterOffset, trimmed);
    assert prefixLength == PrefixCut(code, offset, suggestion);
    assert trimmed == WithoutPrefix(code, offset, suggestion);
    assert suffixLength == SuffixCut(code, offset, suggestion);
    r := trimmed[..|trimmed| - suffixLength];
  }

  /** The first loop of `trimContextOverlap`: the last overlap length found at the front is the largest. */
  method CountPrefixOverlap(codeBeforeOffset: string, suggestion: string) returns (prefixLength: nat)
    ensures prefixLength == LongestPrefixOverlap(codeBeforeOffset, suggestion, Min(|suggestion|, |codeBeforeOffset|))
  {
    prefixLength := 0;
    var maxPrefixLength := Min(|suggestion|, |codeBeforeOffset|);
    for i := 1 to maxPrefixLength + 1
      invariant prefixLength == LongestPrefixOverlap(codeBeforeOffset, suggestion, i - 1)
    {
      if StartsWith(suggestion, codeBeforeOffset[|codeBeforeOffset| - i..]) {
        prefixLength := i;
      }
    }
  }

  /** The second loop of `trimContextOverlap`: the last overlap length found at the end is the largest. */
  method CountSuffixOverlap(codeAfterOffset: string, trimmed: string) returns (suffixLength: nat)
    ensures suffixLength == LongestSuffixOverlap(codeAfterOffset, trimmed, Min(|trimmed|, |codeAfterOffset|))
  {
    suffixLength := 0;
    var maxSuffixLength := Min(|trimmed|, |codeAfterOffset|);
    for i := 1 to maxSuffixLength + 1
      invariant suffixLength == LongestSuffixOverlap(codeAfterOffset, trimmed, i - 1)
    {
      if EndsWith(trimmed, codeAfterOffset[..i]) {
        suffixLength := i;
      }
    }
  }

  /** With no overlap on either side, the suggestion comes back unchanged. */
  lemma UnchangedWithoutOverlap(code: string, offset: nat, s: string)
    requires offset <= |code|
    requires forall i :: 1 <= i <= Min(|s|, offset) ==> !PrefixOverlap(code[..offset], s, i)
    requires forall j :: 1 <= j <= Min(|s|, |code| - offset) ==> !SuffixOverlap(code[offset..], s, j)
    ensures TrimmedOverlap(code, offset, s) == s
  {
    PrefixCutIsLargest(code, offset, s);
    assert PrefixCut(code, offset, s) == 0;
    SuffixCutIsLargest(code, offset, s);
    assert WithoutPrefix(code, offset, s) == s || s == [];
  }

  /** At the very start of the code, a suggestion the code begins with trims to nothing. */
  lemma PrefixOfCodeTrimsToEmpty(code: string, s: string)
    requires StartsWith(code, s)
    ensures TrimmedOverlap(code, 0, s) == ""
  {
    var t := WithoutPrefix(code, 0, s);
    assert t == s || s == [];
    assert SuffixOverlap(code[0..], t, |t|);
  }

  /**
   * Trimming is not idempotent: before "ab" (offset 2), "bab" loses its leading
   * "b", and the "ab" left over loses itself when trimmed again.
   */
  lemma TrimNotIdempotent()
    ensures TrimmedOverlap("ab", 2, "bab") == "ab"
    ensures TrimmedOverlap("ab", 2, "ab") == ""
  {
    assert "ab"[1..] == "b" && "bab"[..1] == "b";
    assert PrefixOverlap("ab", "bab", 1);
    assert "ab"[0..] == "ab" && "bab"[..2] == "ba";
    assert !PrefixOverlap("ab", "bab", 2);
    assert "ab"[..2] == "ab";
    assert PrefixOverlap("ab", "ab", 2);
  }

  /** One example as `buildExamplesString` formats it: "### Example %d\n%s\n". */
  function ExampleBlock(number: nat, content: string): string {
    "### Example " + NatToString(number) + "\n" + content + "\n"
  }

  /** The examples text for the given read results: None as soon as one read failed. */
  function ExamplesText(contents: seq<Option<string>>): Option<string>
    decreases |contents|
  {
    if contents == [] then Some("")
    else
      match ExamplesText(contents[..|contents| - 1])
      case None => None
      case Some(text) =>
        var last := contents[|contents| - 1];
        if last.None? then None else Some(text + ExampleBlock(|contents|, last.value))
  }

  /** All or nothing: there is no examples text exactly when some example could not be read. */
  lemma {:induction false} ExamplesAllOrNothing(contents: seq<Option<string>>)
    ensures ExamplesText(contents).None? <==> exists i :: 0 <= i < |contents| && contents[i].None?
    decreases |contents|
  {
    if contents != [] {
      var init := contents[..|contents| - 1];
      ExamplesAllOrNothing(init);
      if exists i :: 0 <= i < |init| && init[i].None? {
        var i :| 0 <= i < |init| && init[i].None?;
        assert contents[i].None?;
      }
      if exists i :: 0 <= i < |contents| && contents[i].None? {
        var i :| 0 <= i < |contents| && contents[i].None?;
        if i < |init| {
          assert init[i].None?;
        }
      }
    }
  }

  /**
   * In list order: when every read succeeds, the text is built example by example,
   * the k-th (counting from 0) being numbered k + 1, and each partial text is a
   * prefix of the whole.
   */
  lemma {:induction false} ExamplesInOrder(contents: seq<Option<string>>, k: nat)
    requires ExamplesText(contents).Some? && k < |contents|
    ensures contents[k].Some? && ExamplesText(contents[..k]).Some?
    ensures ExamplesText(contents[..k + 1])
            == Some(ExamplesText(contents[..k]).value + ExampleBlock(k + 1, contents[k].value))
    ensures StartsWith(ExamplesText(contents).value, ExamplesText(contents[..k + 1]).value)
    decreases |contents|
  {
    var init := contents[..|contents| - 1];
    assert contents[..k + 1][..k] == contents[..k];
    if k + 1 == |contents| {
      assert contents[..k + 1] == contents;
      assert init == contents[..k];
    } else {
      assert init[..k] == contents[..k] && init[..k + 1] == contents[..k + 1];
      ExamplesInOrder(init, k);
    }
  }

  /** The read results of the example files, in list order. */
  function ReadAll(examples: seq<ExternalFile>, homeFolder: string, fs: FileSystem): (r: seq<Option<string>>)
    reads set f | f in examples
    ensures |r| == |examples|
    ensures forall i :: 0 <= i < |examples| ==> r[i] == examples[i].ReadContent(homeFolder, fs)
  {
    if examples == [] then []
    else ReadAll(examples[..|examples| - 1], homeFolder, fs) + [examples[|examples| - 1].ReadContent(homeFolder, fs)]
  }

  /**
   * `buildExamplesString`: appends one block per example in list order and
   * returns null (None) at the first example whose content cannot be read.
   */
  method BuildExamplesString(examples: seq<ExternalFile>, homeFolder: string, fs: FileSystem) returns (r: Option<string>)
    ensures r == ExamplesText(ReadAll(examples, homeFolder, fs))
  {
    var text := "";
    for i := 0 to |examples|
      invariant ExamplesText(ReadAll(examples[..i], homeFolder, fs)) == Some(text)
    {
      var content := examples[i].ReadContent(homeFolder, fs);
      if content.None? {
        ExamplesAllOrNothing(ReadAll(examples, homeFolder, fs));
        return None;
      }
      assert examples[..i + 1][..i] == examples[..i];
      text := text + ExampleBlock(i + 1, content.value);
    }
    assert examples[..|examples|] == examples;
    r := Some(text);
  }
}
