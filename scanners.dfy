/**
 * The line-by-line heuristic scanners: `security_analysis_node`,
 * `security_node` and `bug_node` (and the bug half of
 * `static_analysis_node`). Each walks the lines of `code` and, for every
 * line, the pattern list in order, recording one finding per pattern that
 * matches. The regular expressions themselves are not modelled: `hit(kind,
 * line)` says whether the pattern of that kind finds a match in the line.
 */
module Scanners {
  import opened Wrappers
  import opened State
  import Text

  /** `SECURITY_PATTERNS`, by kind, in list order. */
  const SecurityKinds: seq<string> := ["eval_usage", "exec_usage", "shell_true", "os_system",
    "insecure_pickle_load", "yaml_load_without_safeloader", "insecure_tls", "aws_access_key_leak"]

  /** `COMMON_BUG_PATTERNS`, by kind, in list order. */
  const BugKinds: seq<string> := ["swallowed_exception", "mutable_default_arg", "is_vs_equals",
    "index_iteration_over_list"]

  const ExploitText := "User-controlled input could lead to code execution or command injection."
  const TestCaseText := "Add a unit test hitting this branch and assert expected behavior."
  const SnippetLength := 160

  /** One pattern match: the 1-based line number, the pattern's position and kind, and the line. */
  datatype Match = Match(line: int, index: nat, kind: string, text: string)

  /** Matches come in line order, and in pattern order within a line. */
  predicate Before(a: Match, b: Match) {
    a.line < b.line || (a.line == b.line && a.index < b.index)
  }

  predicate Ordered(ms: seq<Match>) {
    forall i, j :: 0 <= i < j < |ms| ==> Before(ms[i], ms[j])
  }

  /** The matches of the first `upto` patterns on one line. */
  function LineMatches(lineno: int, line: string, kinds: seq<string>, hit: (string, string) -> bool,
                       upto: nat): seq<Match>
    requires upto <= |kinds|
  {
    if upto == 0 then []
    else LineMatches(lineno, line, kinds, hit, upto - 1)
         + (if hit(kinds[upto - 1], line) then [Match(lineno, upto - 1, kinds[upto - 1], line)] else [])
  }

  /** All matches over `lines`, numbered from 1. */
  function Matches(lines: seq<string>, kinds: seq<string>, hit: (string, string) -> bool): seq<Match> {
    if lines == [] then []
    else Matches(lines[..|lines| - 1], kinds, hit)
         + LineMatches(|lines|, lines[|lines| - 1], kinds, hit, |kinds|)
  }

  /** A match of this line and pattern exists in the list exactly when the pattern matches the line. */
  predicate IsMatchOf(m: Match, lines: seq<string>, kinds: seq<string>, hit: (string, string) -> bool) {
    1 <= m.line <= |lines| && m.index < |kinds| && m.kind == kinds[m.index]
    && m.text == lines[m.line - 1] && hit(m.kind, m.text)
  }

  lemma {:induction false} LineMatchesFacts(lineno: int, line: string, kinds: seq<string>,
                                            hit: (string, string) -> bool, upto: nat)
    requires upto <= |kinds|
    ensures var ms := LineMatches(lineno, line, kinds, hit, upto);
            Ordered(ms)
            && (forall m :: m in ms <==> m.line == lineno && m.index < upto && m.kind == kinds[m.index]
                                         && m.text == line && hit(m.kind, line))
  {
    if upto > 0 {
      LineMatchesFacts(lineno, line, kinds, hit, upto - 1);
    }
  }

  /** Every match is a real (line, pattern) hit, every hit is listed, and the order is line then pattern. */
  lemma {:induction false} MatchesExact(lines: seq<string>, kinds: seq<string>, hit: (string, string) -> bool)
    ensures Ordered(Matches(lines, kinds, hit))
    ensures forall m :: m in Matches(lines, kinds, hit) <==> IsMatchOf(m, lines, kinds, hit)
  {
    if lines != [] {
      var init := lines[..|lines| - 1];
      var prev := Matches(init, kinds, hit);
      var last := LineMatches(|lines|, lines[|lines| - 1], kinds, hit, |kinds|);
      MatchesExact(init, kinds, hit);
      LineMatchesFacts(|lines|, lines[|lines| - 1], kinds, hit, |kinds|);
      forall m ensures m in prev + last <==> IsMatchOf(m, lines, kinds, hit) {
        if 1 <= m.line < |lines| {
          assert lines[m.line - 1] == init[m.line - 1];
        }
      }
      forall i, j | 0 <= i < j < |prev + last| ensures Before((prev + last)[i], (prev + last)[j]) {
        if j < |prev| {
          assert (prev + last)[i] == prev[i] && (prev + last)[j] == prev[j];
        } else if i >= |prev| {
          assert (prev + last)[i] == last[i - |prev|] && (prev + last)[j] == last[j - |prev|];
        } else {
          assert prev[i] in prev && last[j - |prev|] in last;
        }
      }
    }
  }

  /** The nested loop over lines and patterns. */
  method ScanLines(lines: seq<string>, kinds: seq<string>, hit: (string, string) -> bool)
    returns (found: seq<Match>)
    ensures found == Matches(lines, kinds, hit)
  {
    found := [];
    var i := 0;
    while i < |lines|
      invariant 0 <= i <= |lines|
      invariant found == Matches(lines[..i], kinds, hit)
    {
      var line := lines[i];
      var k := 0;
      assert lines[..i + 1][..i] == lines[..i];
      while k < |kinds|
        invariant 0 <= k <= |kinds|
        invariant found == Matches(lines[..i], kinds, hit) + LineMatches(i + 1, line, kinds, hit, k)
      {
        if hit(kinds[k], line) {
          found := found + [Match(i + 1, k, kinds[k], line)];
        }
        k := k + 1;
      }
      i := i + 1;
    }
    assert lines[..i] == lines;
  }

  /** `line.strip()[:160]` */
  function Snippet(line: string): (r: string)
    ensures var stripped := Text.Strip(line);
            |r| == (if |stripped| < SnippetLength then |stripped| else SnippetLength)
            && r == stripped[..|r|]
  {
    Text.Take(Text.Strip(line), SnippetLength)
  }

  /** Severity of a regex finding: "high" for code execution and shell injection, "medium" otherwise. */
  function Severity(kind: string): (sev: string)
    ensures sev == "high" <==> kind in {"eval_usage", "exec_usage", "shell_true"}
    ensures sev == "high" || sev == "medium"
  {
    if kind == "eval_usage" || kind == "exec_usage" || kind == "shell_true" then "high" else "medium"
  }

  function ToVuln(m: Match): Vuln {
    Vuln(Some(m.line), Some(m.kind), Some(Severity(m.kind)), Snippet(m.text), Some(ExploitText))
  }

  function ToBug(m: Match): Bug {
    Bug(m.line, m.kind, 0.6, Snippet(m.text), TestCaseText)
  }

  /** The security findings on `code`, in line-then-pattern order. */
  function SecurityFindings(code: string, hit: (string, string) -> bool): (r: seq<Vuln>)
    ensures |r| == |Matches(Text.SplitLines(code), SecurityKinds, hit)|
    ensures forall i :: 0 <= i < |r| ==> r[i] == ToVuln(Matches(Text.SplitLines(code), SecurityKinds, hit)[i])
  {
    var ms := Matches(Text.SplitLines(code), SecurityKinds, hit);
    seq(|ms|, i requires 0 <= i < |ms| => ToVuln(ms[i]))
  }

  /** The bug suspects on `code`, in line-then-pattern order. */
  function BugSuspects(code: string, hit: (string, string) -> bool): (r: seq<Bug>)
    ensures |r| == |Matches(Text.SplitLines(code), BugKinds, hit)|
    ensures forall i :: 0 <= i < |r| ==> r[i] == ToBug(Matches(Text.SplitLines(code), BugKinds, hit)[i])
  {
    var ms := Matches(Text.SplitLines(code), BugKinds, hit);
    seq(|ms|, i requires 0 <= i < |ms| => ToBug(ms[i]))
  }

  /**
   * A line on which the eval pattern matches yields a high-severity
   * `eval_usage` finding carrying that line's number.
   */
  lemma EvalFlagged(code: string, hit: (string, string) -> bool, i: nat)
    requires i < |Text.SplitLines(code)| && hit("eval_usage", Text.SplitLines(code)[i])
    ensures var line := Text.SplitLines(code)[i];
            Vuln(Some(i + 1), Some("eval_usage"), Some("high"), Snippet(line), Some(ExploitText))
              in SecurityFindings(code, hit)
  {
    var lines := Text.SplitLines(code);
    var ms := Matches(lines, SecurityKinds, hit);
    MatchesExact(lines, SecurityKinds, hit);
    var m := Match(i + 1, 0, "eval_usage", lines[i]);
    assert IsMatchOf(m, lines, SecurityKinds, hit);
    var p :| 0 <= p < |ms| && ms[p] == m;
    assert SecurityFindings(code, hit)[p] == ToVuln(m);
  }

  /** Every suspect has confidence 0.6, a snippet of at most 160 characters, and a line within the code. */
  lemma BugSuspectFacts(code: string, hit: (string, string) -> bool)
    ensures forall b :: b in BugSuspects(code, hit) ==>
              b.confidence == 0.6 && |b.snippet| <= SnippetLength
              && 1 <= b.line <= |Text.SplitLines(code)| && b.kind in BugKinds
  {
    var lines := Text.SplitLines(code);
    var ms := Matches(lines, BugKinds, hit);
    var bs := BugSuspects(code, hit);
    MatchesExact(lines, BugKinds, hit);
    forall b | b in bs
      ensures b.confidence == 0.6 && |b.snippet| <= SnippetLength && 1 <= b.line <= |lines| && b.kind in BugKinds
    {
      var p :| 0 <= p < |bs| && bs[p] == b;
      MatchFacts(ms[p], lines, BugKinds, hit);
    }
  }

  lemma MatchFacts(m: Match, lines: seq<string>, kinds: seq<string>, hit: (string, string) -> bool)
    requires IsMatchOf(m, lines, kinds, hit)
    ensures ToBug(m).confidence == 0.6 && |ToBug(m).snippet| <= SnippetLength
    ensures 1 <= ToBug(m).line <= |lines| && ToBug(m).kind in kinds
  {
  }

  /** Findings are sorted by line number, never decreasing. */
  lemma FindingsInLineOrder(code: string, hit: (string, string) -> bool)
    ensures var r := SecurityFindings(code, hit);
            forall i, j :: 0 <= i < j < |r| ==> r[i].line.value <= r[j].line.value
  {
    MatchesExact(Text.SplitLines(code), SecurityKinds, hit);
  }

  function RegexLog(n: nat): LogEntry {
    LogEntry("security-regex", "security", "Security analysis: " + Text.NatToString(n) + " regex findings.",
             "completed")
  }

  const ExpertLog := LogEntry("security", "security", "Security Expert: scan complete.", "completed")
  const BugLog := LogEntry("bug", "bug", "Bug Hunter: heuristics completed.", "completed")

  /** The vulnerabilities already in the state; a missing report reads as none. */
  function ExistingVulns(s: ReviewState): seq<Vuln> {
    if s.securityReport.Some? then s.securityReport.value.vulnerabilities else []
  }

  /**
   * `security_analysis_node`: the regex findings are appended after the
   * existing vulnerabilities, one log counts them, progress rises by 30.
   */
  method SecurityAnalysisNode(s: ReviewState, hit: (string, string) -> bool) returns (r: ReviewState)
    ensures r.securityReport == Some(SecurityReport(ExistingVulns(s) + SecurityFindings(s.code, hit)))
    ensures r.toolLogs == s.toolLogs + [RegexLog(|SecurityFindings(s.code, hit)|)]
    ensures r.progress == Bump(s.progress, 30.0)
    ensures r == s.(securityReport := r.securityReport, toolLogs := r.toolLogs, progress := r.progress)
  {
    var ms := ScanLines(Text.SplitLines(s.code), SecurityKinds, hit);
    var findings := seq(|ms|, i requires 0 <= i < |ms| => ToVuln(ms[i]));
    r := s.(securityReport := Some(SecurityReport(ExistingVulns(s) + findings)));
    r := r.(toolLogs := AppendLog(r.toolLogs, RegexLog(|findings|)));
    r := r.(progress := Bump(r.progress, 30.0));
  }

  /** `security_node`: the report becomes exactly the new findings; one log; progress rises by 20. */
  method SecurityExpertNode(s: ReviewState, hit: (string, string) -> bool) returns (r: ReviewState)
    ensures r.securityReport == Some(SecurityReport(SecurityFindings(s.code, hit)))
    ensures r.toolLogs == s.toolLogs + [ExpertLog]
    ensures r.progress == Bump(s.progress, 20.0)
    ensures r == s.(securityReport := r.securityReport, toolLogs := r.toolLogs, progress := r.progress)
  {
    var ms := ScanLines(Text.SplitLines(s.code), SecurityKinds, hit);
    var findings := seq(|ms|, i requires 0 <= i < |ms| => ToVuln(ms[i]));
    r := s.(securityReport := Some(SecurityReport(findings)));
    r := r.(toolLogs := AppendLog(r.toolLogs, ExpertLog));
    r := r.(progress := Bump(r.progress, 20.0));
  }

  /** `bug_node`: the bug report becomes exactly the new suspects; one log; progress rises by 20. */
  method BugNode(s: ReviewState, hit: (string, string) -> bool) returns (r: ReviewState)
    ensures r.bugReport == Present(BugReport(BugSuspects(s.code, hit)))
    ensures r.toolLogs == s.toolLogs + [BugLog]
    ensures r.progress == Bump(s.progress, 20.0)
    ensures r == s.(bugReport := r.bugReport, toolLogs := r.toolLogs, progress := r.progress)
  {
    var ms := ScanLines(Text.SplitLines(s.code), BugKinds, hit);
    var suspects := seq(|ms|, i requires 0 <= i < |ms| => ToBug(ms[i]));
    r := s.(bugReport := Present(BugReport(suspects)));
    r := r.(toolLogs := AppendLog(r.toolLogs, BugLog));
    r := r.(progress := Bump(r.progress, 20.0));
  }
}
