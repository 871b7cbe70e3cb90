/**
 * SyntaxVerifier: runs the DSL's Xtext validator over a piece of code and
 * reports the issues as strings, optionally dropping the unresolved-reference
 * linking errors that a freshly invented identifier always causes.
 */
module SyntaxVerifier {
  import opened Wrappers
  import opened JavaText

  /** Xtext's issue severities. */
  datatype Severity = Error | Warning | Info | Ignore

  /** `Severity.name()`. */
  function SeverityName(s: Severity): string {
    match s
    case Error => "ERROR"
    case Warning => "WARNING"
    case Info => "INFO"
    case Ignore => "IGNORE"
  }

  /** An Xtext issue; code, message, line and column may be null. */
  datatype Issue = Issue(severity: Severity, code: Option<string>, message: Option<string>,
                         line: Option<int>, column: Option<int>)

  /**
   * A configured verifier. The Xtext injector, resource set and validator are
   * folded into `analyse`: loading the code into a fresh resource and validating
   * it gives the issues, or None when loading throws an IOException.
   */
  datatype Verifier = Verifier(fileExtension: Option<string>, analyse: string -> Option<seq<Issue>>)

  /** `validate` throws IllegalStateException when the verifier is not configured. */
  datatype VerifierError = NotConfigured

  /** The line terminators `$` may stand before at the end of the input. */
  predicate IsLineTerminator(t: string) {
    t == "\n" || t == "\r\n" || t == "\r" || t == "\U{0085}" || t == "\U{2028}" || t == "\U{2029}"
  }

  /** `Pattern.compile("Linking$").matcher(c).find()`: "Linking" at the end, or just before a final line terminator. */
  predicate MatchesLinking(c: string) {
    EndsWith(c, "Linking")
    || (1 <= |c| && IsLineTerminator(c[|c| - 1..]) && EndsWith(c[..|c| - 1], "Linking"))
    || (2 <= |c| && IsLineTerminator(c[|c| - 2..]) && EndsWith(c[..|c| - 2], "Linking"))
  }

  const UNRESOLVED_PREFIX := "Couldn't resolve reference to"

  /** An issue dropped by `validate`: exclusion is on, its code matches "Linking$" and its message "^Couldn't resolve reference to". */
  predicate Suppressed(excludeEtypeErrors: bool, issue: Issue) {
    excludeEtypeErrors
    && issue.code.Some? && MatchesLinking(issue.code.value)
    && issue.message.Some? && StartsWith(issue.message.value, UNRESOLVED_PREFIX)
  }

  /** `String.valueOf` of a nullable message. */
  function MessageText(m: Option<string>): string {
    if m.None? then "null" else m.value
  }

  /** `String.valueOf` of a nullable Integer. */
  function NumberText(n: Option<int>): string {
    if n.None? then "null" else IntToString(n.value)
  }

  /** `issueToString`: "SEVERITY: message ( line : L; column : C)". */
  function IssueToString(issue: Issue): (r: string)
    ensures StartsWith(r, SeverityName(issue.severity) + ": ")
    ensures EndsWith(r, "; column : " + NumberText(issue.column) + ")")
  {
    var head := SeverityName(issue.severity) + ": ";
    var tail := "; column : " + NumberText(issue.column) + ")";
    var middle := MessageText(issue.message) + " ( line : " + NumberText(issue.line);
    Framed(head, middle, tail);
    head + middle + tail
  }

  /** The reported strings for `issues`, in their order, skipping the suppressed ones. */
  function Report(issues: seq<Issue>, excludeEtypeErrors: bool): seq<string>
    decreases |issues|
  {
    if issues == [] then []
    else
      var init := Report(issues[..|issues| - 1], excludeEtypeErrors);
      var last := issues[|issues| - 1];
      if Suppressed(excludeEtypeErrors, last) then init else init + [IssueToString(last)]
  }

  /** The value of `validate`: the report of the analysed issues, or nothing when loading failed. */
  function Validation(v: Verifier, code: string, excludeEtypeErrors: bool): Result<seq<string>, VerifierError> {
    if v.fileExtension.None? then Failure(NotConfigured)
    else
      match v.analyse(code)
      case None => Success([])
      case Some(issues) => Success(Report(issues, excludeEtypeErrors))
  }

  /**
   * `validate`: throws (Failure) when not configured; a load IOException yields an
   * empty list; otherwise every issue that is not suppressed is rendered, in order.
   */
  method Validate(v: Verifier, code: string, excludeEtypeErrors: bool) returns (r: Result<seq<string>, VerifierError>)
    ensures r == Validation(v, code, excludeEtypeErrors)
  {
    if v.fileExtension.None? {
      return Failure(NotConfigured);
    }
    var issues: seq<string> := [];
    var loaded := v.analyse(code);
    if loaded.Some? {
      var allIssues := loaded.value;
      for i := 0 to |allIssues|
        invariant issues == Report(allIssues[..i], excludeEtypeErrors)
      {
        assert allIssues[..i + 1][..i] == allIssues[..i];
        if !Suppressed(excludeEtypeErrors, allIssues[i]) {
          issues := issues + [IssueToString(allIssues[i])];
        }
      }
      assert allIssues[..|allIssues|] == allIssues;
    }
    r := Success(issues);
  }

  /** The report follows the validator's order: reporting a concatenation concatenates the reports. */
  lemma {:induction false} ReportAppend(a: seq<Issue>, b: seq<Issue>, excludeEtypeErrors: bool)
    ensures Report(a + b, excludeEtypeErrors) == Report(a, excludeEtypeErrors) + Report(b, excludeEtypeErrors)
    decreases |b|
  {
    if b == [] {
      assert a + b == a;
    } else {
      var b0 := b[..|b| - 1];
      assert (a + b)[..|a + b| - 1] == a + b0;
      ReportAppend(a, b0, excludeEtypeErrors);
    }
  }

  /** One string per kept issue: the report is never longer than the issue list. */
  lemma {:induction false} ReportShorter(issues: seq<Issue>, excludeEtypeErrors: bool)
    ensures |Report(issues, excludeEtypeErrors)| <= |issues|
    decreases |issues|
  {
    if issues != [] {
      ReportShorter(issues[..|issues| - 1], excludeEtypeErrors);
    }
  }

  /** Without exclusion every issue is reported, the i-th issue as the i-th string. */
  lemma {:induction false} ReportWithoutExclusion(issues: seq<Issue>)
    ensures |Report(issues, false)| == |issues|
    ensures forall i :: 0 <= i < |issues| ==> Report(issues, false)[i] == IssueToString(issues[i])
    decreases |issues|
  {
    if issues != [] {
      var init, last := issues[..|issues| - 1], issues[|issues| - 1];
      ReportWithoutExclusion(init);
      assert !Suppressed(false, last);
      var r := Report(init, false) + [IssueToString(last)];
      assert Report(issues, false) == r;
      forall i | 0 <= i < |issues|
        ensures Report(issues, false)[i] == IssueToString(issues[i])
      {
        if i < |init| {
          calc {
            Report(issues, false)[i];
            r[i];
            Report(init, false)[i];
            IssueToString(init[i]);
            { assert init[i] == issues[i]; }
            IssueToString(issues[i]);
          }
        } else {
          assert r[i] == IssueToString(last);
        }
      }
    }
  }

  /** An issue is reported exactly when it is not suppressed. */
  lemma ReportSingle(issue: Issue, excludeEtypeErrors: bool)
    ensures Report([issue], excludeEtypeErrors) == if Suppressed(excludeEtypeErrors, issue) then [] else [IssueToString(issue)]
  {
    assert [issue][..0] == [];
  }

  /** The typical unresolved-reference linking error is dropped with exclusion on and kept with it off. */
  lemma UnresolvedLinkingExample(line: Option<int>, column: Option<int>)
    ensures var issue := Issue(Error, Some("org.eclipse.xtext.diagnostics.Diagnostic.Linking"),
                               Some("Couldn't resolve reference to Foo 'Bar'."), line, column);
            Suppressed(true, issue) && !Suppressed(false, issue)
  {
    var c := "org.eclipse.xtext.diagnostics.Diagnostic.Linking";
    assert c[|c| - 7..] == "Linking";
    var m := "Couldn't resolve reference to Foo 'Bar'.";
    assert m[..|UNRESOLVED_PREFIX|] == UNRESOLVED_PREFIX;
  }

  /** Splitting a string at its last space is unique when the part after it holds no space. */
  lemma LastSpaceSplit(a1: string, x1: string, a2: string, x2: string)
    requires a1 + " " + x1 == a2 + " " + x2
    requires forall i :: 0 <= i < |x1| ==> x1[i] != ' '
    requires forall i :: 0 <= i < |x2| ==> x2[i] != ' '
    ensures a1 == a2 && x1 == x2
  {
    var s := a1 + " " + x1;
    if |x1| < |x2| {
      SpaceThenText(a1, x1);
      SpaceThenText(a2, x2);
      assert false;
    } else if |x2| < |x1| {
      SpaceThenText(a1, x1);
      SpaceThenText(a2, x2);
      assert false;
    }
    assert a1 == s[..|a1|] && a2 == s[..|a2|];
    assert x1 == s[|a1| + 1..] && x2 == s[|a2| + 1..];
  }

  lemma SpaceThenText(a: string, x: string)
    ensures (a + " " + x)[|a|] == ' '
    ensures forall k :: 0 <= k < |x| ==> (a + " " + x)[|a| + 1 + k] == x[k]
  {
  }

  lemma NumberTextHasNoSpace(n: Option<int>)
    ensures forall i :: 0 <= i < |NumberText(n)| ==> NumberText(n)[i] != ' '
  {
    if n.Some? && n.value >= 0 {
      assert NumberText(n) == NatToString(n.value);
    }
  }

  lemma FirstCharOfNumber(n: int)
    ensures IntToString(n)[0] == '-' || '0' <= IntToString(n)[0] <= '9'
  {
    if n >= 0 {
      assert IntToString(n) == NatToString(n);
    }
  }

  lemma NumberTextInjective(a: Option<int>, b: Option<int>)
    requires NumberText(a) == NumberText(b)
    ensures a == b
  {
    if a.Some? && b.Some? {
      IntToStringInjective(a.value, b.value);
    } else if a.Some? || b.Some? {
      FirstCharOfNumber(if a.Some? then a.value else b.value);
      assert false;
    }
  }

  /** The text before the last space of a rendering: severity, message and line. */
  function RenderedHead(issue: Issue): string {
    SeverityName(issue.severity) + ": " + MessageText(issue.message) + " ( line : " + NumberText(issue.line) + "; column :"
  }

  lemma RenderedSplit(issue: Issue)
    ensures IssueToString(issue) == RenderedHead(issue) + " " + (NumberText(issue.column) + ")")
    ensures forall i :: 0 <= i < |NumberText(issue.column) + ")"| ==> (NumberText(issue.column) + ")")[i] != ' '
  {
    NumberTextHasNoSpace(issue.column);
  }

  lemma SameHeadSameLine(a: Issue, b: Issue)
    requires RenderedHead(a) == RenderedHead(b)
    ensures a.line == b.line
    ensures SeverityName(a.severity) + ": " + MessageText(a.message) == SeverityName(b.severity) + ": " + MessageText(b.message)
  {
    var ha := SeverityName(a.severity) + ": " + MessageText(a.message) + " ( line :";
    var hb := SeverityName(b.severity) + ": " + MessageText(b.message) + " ( line :";
    var pa, pb := ha + " " + NumberText(a.line), hb + " " + NumberText(b.line);
    assert RenderedHead(a) == pa + "; column :" && RenderedHead(b) == pb + "; column :";
    assert pa == RenderedHead(a)[..|pa|];
    assert pb == RenderedHead(b)[..|pb|];
    NumberTextHasNoSpace(a.line);
    NumberTextHasNoSpace(b.line);
    LastSpaceSplit(ha, NumberText(a.line), hb, NumberText(b.line));
    NumberTextInjective(a.line, b.line);
    var ma := SeverityName(a.severity) + ": " + MessageText(a.message);
    var mb := SeverityName(b.severity) + ": " + MessageText(b.message);
    assert ma == ha[..|ma|] && mb == hb[..|mb|];
  }

  lemma SameHeadSameSeverity(a: Issue, b: Issue)
    requires SeverityName(a.severity) + ": " + MessageText(a.message) == SeverityName(b.severity) + ": " + MessageText(b.message)
    ensures a.severity == b.severity && MessageText(a.message) == MessageText(b.message)
  {
    var ha := SeverityName(a.severity) + ": " + MessageText(a.message);
    var hb := SeverityName(b.severity) + ": " + MessageText(b.message);
    assert ha[0] == SeverityName(a.severity)[0] && ha[1] == SeverityName(a.severity)[1];
    assert hb[0] == SeverityName(b.severity)[0] && hb[1] == SeverityName(b.severity)[1];
    assert a.severity == b.severity;
    assert MessageText(a.message) == ha[|SeverityName(a.severity)| + 2..];
    assert MessageText(b.message) == hb[|SeverityName(b.severity)| + 2..];
  }

  /**
   * Nothing is lost in rendering except the difference between a null message and
   * the message "null": equal renderings come from issues with the same severity,
   * message text, line and column.
   */
  lemma IssueToStringInjective(a: Issue, b: Issue)
    requires IssueToString(a) == IssueToString(b)
    ensures a.severity == b.severity && MessageText(a.message) == MessageText(b.message)
    ensures a.line == b.line && a.column == b.column
  {
    RenderedSplit(a);
    RenderedSplit(b);
    LastSpaceSplit(RenderedHead(a), NumberText(a.column) + ")", RenderedHead(b), NumberText(b.column) + ")");
    assert NumberText(a.column) == (NumberText(a.column) + ")")[..|NumberText(a.column)|];
    assert NumberText(b.column) == (NumberText(b.column) + ")")[..|NumberText(b.column)|];
    NumberTextInjective(a.column, b.column);
    SameHeadSameLine(a, b);
    SameHeadSameSeverity(a, b);
  }
}
