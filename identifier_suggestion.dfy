/**
 * IdentifierSuggestionAssistant: asks the LLM for identifiers to insert at the
 * cursor, one per line, trims and de-duplicates them and, on every attempt but
 * the last, keeps only those that leave the code free of validation issues.
 */
module IdentifierSuggestion {
  import opened Wrappers
  import opened JavaText
  import opened Assistant
  import opened SyntaxVerifier

  /** The marker put at the cursor in the code shown to the LLM. */
  const CURSOR := "[[CURSOR]]"

  /** The code with `text` inserted at `offset`. */
  function Splice(code: string, offset: nat, text: string): string
    requires offset <= |code|
  {
    code[..offset] + text + code[offset..]
  }

  /** Deleting the ten-character marker at the offset gives back the original code. */
  lemma CursorRoundTrip(code: string, offset: nat)
    requires offset <= |code|
    ensures |Splice(code, offset, CURSOR)| == |code| + |CURSOR| == |code| + 10
    ensures Splice(code, offset, CURSOR)[offset..offset + |CURSOR|] == CURSOR
    ensures Splice(code, offset, CURSOR)[..offset] + Splice(code, offset, CURSOR)[offset + |CURSOR|..] == code
  {
    var m := Splice(code, offset, CURSOR);
    assert m[..offset] == code[..offset];
    assert m[offset + |CURSOR|..] == code[offset..];
    assert code == code[..offset] + code[offset..];
  }

  /** No element occurs twice. */
  predicate Distinct(xs: seq<string>) {
    forall i, j :: 0 <= i < j < |xs| ==> xs[i] != xs[j]
  }

  /** The index at which `x` first occurs in `xs`. */
  function FirstIndex(xs: seq<string>, x: string): (k: nat)
    requires x in xs
    ensures k < |xs| && xs[k] == x && x !in xs[..k]
  {
    if xs[0] == x then 0
    else
      var k := 1 + FirstIndex(xs[1..], x);
      assert xs[..k] == [xs[0]] + xs[1..][..k - 1];
      k
  }

  /** Insertion-ordered set semantics: each element kept at its first occurrence. */
  function Dedup(xs: seq<string>): seq<string>
    decreases |xs|
  {
    if xs == [] then []
    else
      var d := Dedup(xs[..|xs| - 1]);
      if xs[|xs| - 1] in d then d else d + [xs[|xs| - 1]]
  }

  /** De-duplication keeps the same elements, each once. */
  lemma {:induction false} DedupElements(xs: seq<string>)
    ensures forall x :: x in Dedup(xs) <==> x in xs
    ensures Distinct(Dedup(xs))
    decreases |xs|
  {
    if xs != [] {
      var init := xs[..|xs| - 1];
      DedupElements(init);
      assert xs == init + [xs[|xs| - 1]];
    }
  }

  lemma FirstIndexExtend(xs: seq<string>, y: string, x: string)
    requires x in xs
    ensures x in xs + [y] && FirstIndex(xs + [y], x) == FirstIndex(xs, x)
  {
    var k, k' := FirstIndex(xs, x), FirstIndex(xs + [y], x);
    assert (xs + [y])[k] == x;
  }

  /** The kept elements appear in the order of their first occurrences. */
  lemma {:induction false} DedupFirstOccurrenceOrder(xs: seq<string>)
    ensures forall i, j :: 0 <= i < j < |Dedup(xs)| ==>
              Dedup(xs)[i] in xs && Dedup(xs)[j] in xs && FirstIndex(xs, Dedup(xs)[i]) < FirstIndex(xs, Dedup(xs)[j])
    decreases |xs|
  {
    DedupElements(xs);
    if xs != [] {
      var init, y := xs[..|xs| - 1], xs[|xs| - 1];
      assert xs == init + [y];
      DedupFirstOccurrenceOrder(init);
      DedupElements(init);
      var d, r := Dedup(init), Dedup(xs);
      forall i, j | 0 <= i < j < |r|
        ensures r[i] in xs && r[j] in xs && FirstIndex(xs, r[i]) < FirstIndex(xs, r[j])
      {
        assert r[i] == d[i];
        FirstIndexExtend(init, y, r[i]);
        if j < |d| {
          assert r[j] == d[j];
          FirstIndexExtend(init, y, r[j]);
        } else {
          assert r[j] == y && y !in init;
          assert FirstIndex(xs, y) == |init| by {
            assert xs[..|init|] == init;
          }
        }
      }
    }
  }

  lemma DedupExample()
    ensures Dedup(["a", "b", "a", "c"]) == ["a", "b", "c"]
  {
    assert ["a", "b", "a", "c"][..3] == ["a", "b", "a"];
    assert ["a", "b", "a"][..2] == ["a", "b"];
    assert ["a", "b"][..1] == ["a"];
    assert Dedup(["a"]) == ["a"];
  }

  /** `removeDuplicates`: fills a LinkedHashSet and returns its elements in insertion order. */
  method RemoveDuplicates(identifiers: seq<string>) returns (r: seq<string>)
    ensures r == Dedup(identifiers)
  {
    var seen: set<string> := {};
    r := [];
    for i := 0 to |identifiers|
      invariant r == Dedup(identifiers[..i])
      invariant forall x :: x in seen <==> x in r
    {
      assert identifiers[..i + 1][..i] == identifiers[..i];
      if identifiers[i] !in seen {
        seen := seen + {identifiers[i]};
        r := r + [identifiers[i]];
      }
    }
    assert identifiers[..|identifiers|] == identifiers;
  }

  /** Every response line trimmed against the code around the cursor, in order. */
  function TrimmedLines(code: string, offset: nat, lines: seq<string>): seq<string>
    requires offset <= |code|
  {
    if lines == [] then []
    else TrimmedLines(code, offset, lines[..|lines| - 1]) + [TrimmedOverlap(code, offset, lines[|lines| - 1])]
  }

  /** The `map(id -> trimContextOverlap(code, offset, id))` step of `suggest`. */
  method TrimLines(code: string, offset: int, lines: seq<string>) returns (r: seq<string>)
    requires 0 <= offset <= |code|
    ensures r == TrimmedLines(code, offset, lines)
  {
    r := [];
    for i := 0 to |lines|
      invariant r == TrimmedLines(code, offset, lines[..i])
    {
      assert lines[..i + 1][..i] == lines[..i];
      var t := TrimContextOverlap(code, offset, lines[i]);
      r := r + [t];
    }
    assert lines[..|lines|] == lines;
  }

  /** An identifier passes when splicing it in at the offset leaves no reported issue (linking noise excluded). */
  predicate Accepted(v: Verifier, code: string, offset: nat, id: string)
    requires offset <= |code|
  {
    Validation(v, Splice(code, offset, id), true) == Success([])
  }

  /** The value of `verifyIdentifiers`: the passing identifiers in order, or the verifier's exception. */
  function VerifiedIdentifiers(v: Verifier, code: string, offset: nat, ids: seq<string>): Result<seq<string>, VerifierError>
    requires offset <= |code|
    decreases |ids|
  {
    if ids == [] then Success([])
    else
      match VerifiedIdentifiers(v, code, offset, ids[..|ids| - 1])
      case Failure(e) => Failure(e)
      case Success(kept) =>
        var last := ids[|ids| - 1];
        match Validation(v, Splice(code, offset, last), true)
        case Failure(e) => Failure(e)
        case Success(issues) => Success(if issues == [] then kept + [last] else kept)
  }

  /** `a` can be obtained from `b` by deleting elements. */
  predicate IsSubsequence(a: seq<string>, b: seq<string>)
    decreases |b|
  {
    if a == [] then true
    else if b == [] then false
    else if a[|a| - 1] == b[|b| - 1] then IsSubsequence(a[..|a| - 1], b[..|b| - 1])
    else IsSubsequence(a, b[..|b| - 1])
  }

  /**
   * `verifyIdentifiers` is a filter: it fails only when the verifier is not
   * configured and there is something to check; otherwise it keeps, in order,
   * exactly the identifiers that pass.
   */
  lemma {:induction false} VerifiedIsFilter(v: Verifier, code: string, offset: nat, ids: seq<string>)
    requires offset <= |code|
    ensures VerifiedIdentifiers(v, code, offset, ids).Failure? <==> v.fileExtension.None? && ids != []
    ensures VerifiedIdentifiers(v, code, offset, ids).Success? ==>
              var kept := VerifiedIdentifiers(v, code, offset, ids).value;
              IsSubsequence(kept, ids) && forall x :: x in kept <==> x in ids && Accepted(v, code, offset, x)
    decreases |ids|
  {
    if ids != [] {
      var init, last := ids[..|ids| - 1], ids[|ids| - 1];
      VerifiedIsFilter(v, code, offset, init);
      assert ids == init + [last];
      if v.fileExtension.Some? {
        var kept := VerifiedIdentifiers(v, code, offset, init).value;
        if Accepted(v, code, offset, last) {
          assert (kept + [last])[..|kept|] == kept;
        } else {
          SubsequenceExtend(kept, init, last);
        }
      }
    }
  }

  lemma {:induction false} SubsequenceExtend(a: seq<string>, b: seq<string>, y: string)
    requires IsSubsequence(a, b)
    ensures IsSubsequence(a, b + [y])
    decreases |b|, 1
  {
    assert (b + [y])[..|b|] == b;
    if a != [] && a[|a| - 1] == y {
      SubsequenceDropLast(a, b);
    }
  }

  lemma {:induction false} SubsequenceDropLast(a: seq<string>, b: seq<string>)
    requires a != [] && IsSubsequence(a, b)
    ensures IsSubsequence(a[..|a| - 1], b)
    decreases |b|, 0
  {
    var a0, b0 := a[..|a| - 1], b[..|b| - 1];
    assert b0 + [b[|b| - 1]] == b;
    if a[|a| - 1] != b[|b| - 1] {
      SubsequenceDropLast(a, b0);
    }
    SubsequenceExtend(a0, b0, b[|b| - 1]);
  }

  /** `verifyIdentifiers`: validates each identifier spliced into the code and keeps those with no issue. */
  method VerifyIdentifiers(v: Verifier, code: string, offset: int, identifiers: seq<string>)
    returns (r: Result<seq<string>, VerifierError>)
    requires 0 <= offset <= |code|
    ensures r == VerifiedIdentifiers(v, code, offset, identifiers)
  {
    var result: seq<string> := [];
    for i := 0 to |identifiers|
      invariant VerifiedIdentifiers(v, code, offset, identifiers[..i]) == Success(result)
    {
      assert identifiers[..i + 1][..i] == identifiers[..i];
      var completedCode := Splice(code, offset, identifiers[i]);
      var issues := Validate(v, completedCode, true);
      if issues.Failure? {
        VerifiedPrefixFailure(v, code, offset, identifiers, i + 1);
        return Failure(issues.error);
      }
      if issues.value == [] {
        result := result + [identifiers[i]];
      }
    }
    assert identifiers[..|identifiers|] == identifiers;
    r := Success(result);
  }

  lemma {:induction false} VerifiedPrefixFailure(v: Verifier, code: string, offset: nat, ids: seq<string>, k: nat)
    requires offset <= |code| && k <= |ids|
    requires VerifiedIdentifiers(v, code, offset, ids[..k]).Failure?
    ensures VerifiedIdentifiers(v, code, offset, ids) == VerifiedIdentifiers(v, code, offset, ids[..k])
    decreases |ids|
  {
    VerifiedIsFilter(v, code, offset, ids[..k]);
    VerifiedIsFilter(v, code, offset, ids);
    assert VerifiedIdentifiers(v, code, offset, ids[..k]).error == NotConfigured;
    assert VerifiedIdentifiers(v, code, offset, ids).error == NotConfigured;
  }

  /** What `suggest` passes to the LLM; `attempt` tells successive calls apart. */
  datatype ChatRequest = ChatRequest(prompt: string, name: Option<string>, description: Option<string>,
                                     grammar: string, examples: Option<string>, markedCode: string, attempt: nat)

  /** The collaborators of `suggest`: the LLM, `split("\\R")` and the syntax verifier. */
  datatype Oracles = Oracles(chat: ChatRequest -> string, splitLines: string -> seq<string>, verifier: Verifier)

  /** What `suggest` reads from the profile: the few-shot prompt, name, description, examples text and attempt limit. */
  datatype Settings = Settings(prompt: string, name: Option<string>, description: Option<string>,
                               examples: Option<string>, maxGenerationAttempts: int)

  /** The result of `suggest`: null after a grammar read failure, the verifier's exception, or the list. */
  datatype SuggestOutcome = GrammarUnreadable | VerifierFailed | Suggested(identifiers: seq<string>)

  /** The trimmed, de-duplicated lines of the LLM's answer to the given attempt. */
  function Candidates(o: Oracles, s: Settings, code: string, offset: nat, grammar: string, attempt: nat): seq<string>
    requires offset <= |code|
  {
    var request := ChatRequest(s.prompt, s.name, s.description, grammar, s.examples, Splice(code, offset, CURSOR), attempt);
    Dedup(TrimmedLines(code, offset, o.splitLines(o.chat(request))))
  }

  /** The list one attempt leaves: filtered by the verifier unless it is the last attempt. */
  function AttemptResult(o: Oracles, s: Settings, code: string, offset: nat, grammar: string, attempt: nat)
    : Result<seq<string>, VerifierError>
    requires offset <= |code|
  {
    var c := Candidates(o, s, code, offset, grammar, attempt);
    if attempt < s.maxGenerationAttempts then VerifiedIdentifiers(o.verifier, code, offset, c) else Success(c)
  }

  /** What each attempt of `suggest` leaves, as a function of the attempt number. */
  function Attempts(o: Oracles, s: Settings, code: string, offset: nat, grammar: string)
    : nat -> Result<seq<string>, VerifierError>
    requires offset <= |code|
  {
    (k: nat) => AttemptResult(o, s, code, offset, grammar, k)
  }

  /**
   * The retry loop from the given attempt on, given what each attempt leaves:
   * its outcome and the number of attempts made in all.
   */
  function RunFrom(results: nat -> Result<seq<string>, VerifierError>, max: int, attempt: nat): (SuggestOutcome, nat)
    requires 1 <= attempt <= max
    decreases max - attempt
  {
    match results(attempt)
    case Failure(_) => (VerifierFailed, attempt)
    case Success(ids) =>
      if ids != [] || attempt == max then (Suggested(ids), attempt)
      else RunFrom(results, max, attempt + 1)
  }

  /** The value of `suggest` and the number of LLM calls it makes. */
  function SuggestResult(o: Oracles, s: Settings, code: string, offset: nat, grammar: Option<string>)
    : (SuggestOutcome, nat)
    requires offset <= |code|
  {
    if grammar.None? then (GrammarUnreadable, 0)
    else if s.maxGenerationAttempts < 1 then (Suggested([]), 0)
    else RunFrom(Attempts(o, s, code, offset, grammar.value), s.maxGenerationAttempts, 1)
  }

  /**
   * `suggest`: reads the grammar (None when that throws), marks the cursor, then
   * asks the LLM until an attempt leaves a non-empty list or the attempts run out.
   * `calls` counts the LLM calls.
   */
  method Suggest(o: Oracles, s: Settings, code: string, offset: int, grammar: Option<string>)
    returns (result: SuggestOutcome, calls: nat)
    requires 0 <= offset <= |code|
    ensures (result, calls) == SuggestResult(o, s, code, offset, grammar)
    ensures result == GrammarUnreadable <==> grammar.None?
    ensures grammar.None? ==> calls == 0
  {
    if grammar.None? {
      return GrammarUnreadable, 0;
    }
    var markedCode := Splice(code, offset, CURSOR);
    var maxGenerationAttempts := s.maxGenerationAttempts;
    var identifiers: seq<string> := [];
    var attempt := 1;
    calls := 0;
    while identifiers == [] && attempt <= maxGenerationAttempts
      invariant 1 <= attempt && calls == attempt - 1
      invariant attempt > 1 ==> attempt - 1 <= maxGenerationAttempts
      invariant identifiers == [] && attempt <= maxGenerationAttempts ==>
                  SuggestResult(o, s, code, offset, grammar)
                  == RunFrom(Attempts(o, s, code, offset, grammar.value), maxGenerationAttempts, attempt)
      invariant identifiers != [] || attempt > maxGenerationAttempts ==>
                  SuggestResult(o, s, code, offset, grammar) == (Suggested(identifiers), calls)
      decreases maxGenerationAttempts - attempt
    {
      var request := ChatRequest(s.prompt, s.name, s.description, grammar.value, s.examples, markedCode, attempt);
      var response := o.chat(request);
      calls := calls + 1;
      var lines := o.splitLines(response);
      var trimmed := TrimLines(code, offset, lines);
      identifiers := RemoveDuplicates(trimmed);
      if attempt < maxGenerationAttempts {
        var verified := VerifyIdentifiers(o.verifier, code, offset, identifiers);
        if verified.Failure? {
          return VerifierFailed, calls;
        }
        identifiers := verified.value;
      }
      attempt := attempt + 1;
    }
    result := Suggested(identifiers);
  }

  /** The loop makes at most `max` attempts, and at least the one it starts with. */
  lemma {:induction false} RunFromCalls(results: nat -> Result<seq<string>, VerifierError>, max: int, attempt: nat)
    requires 1 <= attempt <= max
    ensures attempt <= RunFrom(results, max, attempt).1 <= max
    decreases max - attempt
  {
    if results(attempt).Success? && results(attempt).value == [] && attempt < max {
      RunFromCalls(results, max, attempt + 1);
    }
  }

  /** Every attempt before the last one made left an empty list. */
  lemma {:induction false} RunFromStopsAtFirstNonEmpty(results: nat -> Result<seq<string>, VerifierError>,
                                                       max: int, attempt: nat, k: nat)
    requires 1 <= attempt <= max
    requires attempt <= k < RunFrom(results, max, attempt).1
    ensures results(k) == Success([])
    decreases max - attempt
  {
    if k > attempt {
      RunFromStopsAtFirstNonEmpty(results, max, attempt + 1, k);
    }
  }

  /**
   * The last attempt made decides the outcome: a failure is that attempt's
   * failure, and a list is that attempt's list, non-empty unless the attempts ran out.
   */
  lemma {:induction false} RunFromLastAttemptDecides(results: nat -> Result<seq<string>, VerifierError>,
                                                     max: int, attempt: nat)
    requires 1 <= attempt <= max
    ensures var (outcome, n) := RunFrom(results, max, attempt);
            && outcome != GrammarUnreadable
            && (outcome == VerifierFailed <==> results(n).Failure?)
            && (outcome.Suggested? ==> results(n) == Success(outcome.identifiers) && (outcome.identifiers != [] || n == max))
    decreases max - attempt
  {
    if results(attempt).Success? && results(attempt).value == [] && attempt < max {
      RunFromLastAttemptDecides(results, max, attempt + 1);
    }
  }

  /** The LLM is called at most `maxGenerationAttempts` times, and once at least when the grammar was read. */
  lemma CallBound(o: Oracles, s: Settings, code: string, offset: nat, grammar: Option<string>)
    requires offset <= |code|
    ensures SuggestResult(o, s, code, offset, grammar).1 <= if s.maxGenerationAttempts < 1 then 0 else s.maxGenerationAttempts
    ensures grammar.Some? && s.maxGenerationAttempts >= 1 ==> SuggestResult(o, s, code, offset, grammar).1 >= 1
  {
    if grammar.Some? && s.maxGenerationAttempts >= 1 {
      RunFromCalls(Attempts(o, s, code, offset, grammar.value), s.maxGenerationAttempts, 1);
    }
  }

  /** Every attempt `suggest` made before its last one left an empty list. */
  lemma EmptyBeforeLastCall(o: Oracles, s: Settings, code: string, offset: nat, grammar: Option<string>, k: nat)
    requires offset <= |code| && grammar.Some?
    requires 1 <= k < SuggestResult(o, s, code, offset, grammar).1
    ensures AttemptResult(o, s, code, offset, grammar.value, k) == Success([])
  {
    RunFromStopsAtFirstNonEmpty(Attempts(o, s, code, offset, grammar.value), s.maxGenerationAttempts, 1, k);
  }

  /** `suggest` stopping before the last attempt returns a non-empty list of identifiers that all passed validation. */
  lemma EarlyStopIsValidated(o: Oracles, s: Settings, code: string, offset: nat, grammar: Option<string>)
    requires offset <= |code|
    requires SuggestResult(o, s, code, offset, grammar).0.Suggested?
    requires SuggestResult(o, s, code, offset, grammar).1 < s.maxGenerationAttempts
    ensures var ids := SuggestResult(o, s, code, offset, grammar).0.identifiers;
            ids != [] && forall id :: id in ids ==> Accepted(o.verifier, code, offset, id)
  {
    var (outcome, n) := SuggestResult(o, s, code, offset, grammar);
    var results := Attempts(o, s, code, offset, grammar.value);
    RunFromLastAttemptDecides(results, s.maxGenerationAttempts, 1);
    RunFromCalls(results, s.maxGenerationAttempts, 1);
    assert results(n) == VerifiedIdentifiers(o.verifier, code, offset, Candidates(o, s, code, offset, grammar.value, n));
    VerifiedIsFilter(o.verifier, code, offset, Candidates(o, s, code, offset, grammar.value, n));
  }

  /** When `suggest` gets to the last attempt, it returns that attempt's de-duplicated list unfiltered. */
  lemma LastAttemptUnfiltered(o: Oracles, s: Settings, code: string, offset: nat, grammar: Option<string>)
    requires offset <= |code| && grammar.Some?
    requires SuggestResult(o, s, code, offset, grammar).1 == s.maxGenerationAttempts >= 1
    ensures SuggestResult(o, s, code, offset, grammar).0
            == Suggested(Candidates(o, s, code, offset, grammar.value, s.maxGenerationAttempts))
  {
    RunFromLastAttemptDecides(Attempts(o, s, code, offset, grammar.value), s.maxGenerationAttempts, 1);
  }

  /** `suggest` fails with the verifier's exception only when no file extension is configured, and never on the last attempt. */
  lemma VerifierFailureMeansUnconfigured(o: Oracles, s: Settings, code: string, offset: nat, grammar: Option<string>)
    requires offset <= |code|
    requires SuggestResult(o, s, code, offset, grammar).0 == VerifierFailed
    ensures o.verifier.fileExtension.None?
    ensures SuggestResult(o, s, code, offset, grammar).1 < s.maxGenerationAttempts
  {
    var n := SuggestResult(o, s, code, offset, grammar).1;
    var results := Attempts(o, s, code, offset, grammar.value);
    RunFromLastAttemptDecides(results, s.maxGenerationAttempts, 1);
    RunFromCalls(results, s.maxGenerationAttempts, 1);
    VerifiedIsFilter(o.verifier, code, offset, Candidates(o, s, code, offset, grammar.value, n));
  }

  /** With a single attempt allowed, `suggest` calls the LLM once and returns its list unfiltered. */
  lemma SingleAttemptUnfiltered(o: Oracles, s: Settings, code: string, offset: nat, grammar: Option<string>)
    requires offset <= |code| && grammar.Some? && s.maxGenerationAttempts == 1
    ensures SuggestResult(o, s, code, offset, grammar) == (Suggested(Candidates(o, s, code, offset, grammar.value, 1)), 1)
  {
  }
}
