/**
 * The aggregation step of `tools_parallel_node`: once semgrep, bandit,
 * radon and vulture have returned (their results are parameters here), the
 * node rebuilds the security report, the quality report and the progress.
 */
module ToolsParallel {
  import opened Wrappers
  import opened State
  import Text

  /**
   * A scanner finding as the tool returned it. `rule` and `severity` are
   * read with a default, so a missing key and a `None` value differ.
   */
  datatype RawFinding = RawFinding(line: Option<int>, kind: Option<string>, rule: Field<string>,
                                   severity: Field<string>, snippet: Option<string>,
                                   exploit: Option<string>, message: Option<string>)

  /** A function radon reported; `complexity` may be missing (read as 0.0) or `None` (the entry is skipped). */
  datatype RadonOffender = RadonOffender(lineno: Option<int>, complexity: Field<real>)

  /** The `metrics` dict of radon's JSON, every key optional. */
  datatype RadonMetrics = RadonMetrics(avg: Option<real>, worst: Option<real>, count: Option<int>,
                                       offenders: Option<seq<RadonOffender>>)

  const SnippetLimit := 200
  const DeadCodeLimit := 10
  const RefactorSuggestion := "Refactor to reduce branching and split into smaller functions."

  /** A value that is present and not the empty string: Python's truthiness on an optional string. */
  predicate Truthy(s: Option<string>) {
    s.Some? && s.value != []
  }

  /** The normalised finding written to the security report. */
  function Normalize(f: RawFinding): (v: Vuln)
    ensures Truthy(f.kind) ==> v.kind == f.kind
    ensures !Truthy(f.kind) ==> v.kind == match f.rule
                                          case Missing => Some("security_issue")
                                          case Null => None
                                          case Present(r) => Some(r)
    ensures f.severity.Missing? ==> v.severity == Some("medium")
    ensures f.severity.Null? ==> v.severity.None?
    ensures f.severity.Present? ==> v.severity == Some(f.severity.value)
    ensures var raw := f.snippet.GetOr([]);
            |v.snippet| == (if |raw| < SnippetLimit then |raw| else SnippetLimit) && v.snippet == raw[..|v.snippet|]
    ensures v.exploit == if Truthy(f.exploit) then f.exploit else f.message
    ensures v.line == f.line
  {
    var kind := if Truthy(f.kind) then f.kind
                else match f.rule
                     case Missing => Some("security_issue")
                     case Null => None
                     case Present(r) => Some(r);
    var severity := match f.severity
                    case Missing => Some("medium")
                    case Null => None
                    case Present(s) => Some(s);
    Vuln(f.line, kind, severity, Text.Take(f.snippet.GetOr([]), SnippetLimit),
         if Truthy(f.exploit) then f.exploit else f.message)
  }

  function NormalizeAll(fs: seq<RawFinding>): (r: seq<Vuln>)
    ensures |r| == |fs| && forall i :: 0 <= i < |fs| ==> r[i] == Normalize(fs[i])
  {
    if fs == [] then [] else NormalizeAll(fs[..|fs| - 1]) + [Normalize(fs[|fs| - 1])]
  }

  /** The findings of each tool's result in turn, in order. */
  function NormalizeGroups(groups: seq<seq<RawFinding>>): seq<Vuln> {
    if groups == [] then [] else NormalizeGroups(groups[..|groups| - 1]) + NormalizeAll(groups[|groups| - 1])
  }

  /** `res.get("findings") or []` for a result that may itself be missing. */
  function FindingsOf(res: Option<Option<seq<RawFinding>>>): seq<RawFinding> {
    if res.Some? && res.value.Some? then res.value.value else []
  }

  /**
   * The security report: every semgrep finding, then every bandit finding,
   * each normalised (`NormalizeAll` is one `Normalize` per finding, in order).
   */
  lemma SecurityOrder(semgrep: seq<RawFinding>, bandit: seq<RawFinding>)
    ensures NormalizeGroups([semgrep, bandit]) == NormalizeAll(semgrep) + NormalizeAll(bandit)
  {
    assert [semgrep, bandit][..1] == [semgrep];
    assert [semgrep][..0] == [];
    assert NormalizeGroups([semgrep]) == NormalizeAll(semgrep);
  }

  /** The nested loop over the two results and their findings. */
  method CollectFindings(groups: seq<seq<RawFinding>>) returns (found: seq<Vuln>)
    ensures found == NormalizeGroups(groups)
  {
    found := [];
    var g := 0;
    while g < |groups|
      invariant 0 <= g <= |groups|
      invariant found == NormalizeGroups(groups[..g])
    {
      var fs := groups[g];
      assert groups[..g + 1][..g] == groups[..g];
      var i := 0;
      while i < |fs|
        invariant 0 <= i <= |fs|
        invariant found == NormalizeGroups(groups[..g]) + NormalizeAll(fs[..i])
      {
        assert fs[..i + 1][..i] == fs[..i];
        found := found + [Normalize(fs[i])];
        i := i + 1;
      }
      assert fs[..i] == fs;
      g := g + 1;
    }
    assert groups[..g] == groups;
  }

  /** `radon_res.get("metrics") or {}`: invalid JSON reads as an empty dict. */
  function MetricsOf(radon: Option<RadonMetrics>): RadonMetrics {
    radon.GetOr(RadonMetrics(None, None, None, None))
  }

  /** avg, worst and count, each 0 when missing, `None` or zero. */
  function ToolMetricsOf(radon: Option<RadonMetrics>): (m: Metrics)
    ensures radon.None? ==> m == Metrics(Some(0.0), Some(0.0), Some(0), None)
    ensures MetricsOf(radon).avg.Some? ==> m.avg == MetricsOf(radon).avg
    ensures MetricsOf(radon).avg.None? ==> m.avg == Some(0.0)
    ensures MetricsOf(radon).worst.Some? ==> m.worst == MetricsOf(radon).worst
    ensures MetricsOf(radon).worst.None? ==> m.worst == Some(0.0)
    ensures MetricsOf(radon).count.Some? ==> m.count == MetricsOf(radon).count
    ensures MetricsOf(radon).count.None? ==> m.count == Some(0)
    ensures m.offenders.None?
  {
    var rm := MetricsOf(radon);
    Metrics(Some(rm.avg.GetOr(0.0)), Some(rm.worst.GetOr(0.0)), Some(rm.count.GetOr(0)), None)
  }

  /** One complexity issue, when the offender's complexity is present and at least 10. */
  function OffenderIssue(o: RadonOffender): (r: Option<Issue>)
    ensures r.Some? <==> o.complexity.Present? && o.complexity.value >= 10.0
  {
    match o.complexity
    case Present(c) =>
      if c >= 10.0 then Some(Issue(o.lineno, "cyclomatic_complexity", c, RefactorSuggestion)) else None
    case _ => None
  }

  function OffenderIssues(os: seq<RadonOffender>): (r: seq<Issue>)
    ensures |r| <= |os|
  {
    if os == [] then []
    else
      var init := OffenderIssues(os[..|os| - 1]);
      match OffenderIssue(os[|os| - 1])
      case None => init
      case Some(i) => init + [i]
  }

  function DeadIssue(name: string): Issue {
    Issue(None, "dead_code", 1.0, "Remove unused function '" + name + "'.")
  }

  /** The issues: complexity issues in offender order, then at most ten dead-code issues. */
  function ToolIssues(radon: Option<RadonMetrics>, dead: seq<string>): seq<Issue> {
    var top := Text.Take(dead, DeadCodeLimit);
    OffenderIssues(MetricsOf(radon).offenders.GetOr([]))
    + seq(|top|, i requires 0 <= i < |top| => DeadIssue(top[i]))
  }

  /** There are never more dead-code issues than ten, and every complexity issue scores at least 10. */
  lemma {:induction false} ToolIssuesFacts(os: seq<RadonOffender>, dead: seq<string>)
    ensures var r := ToolIssues(Some(RadonMetrics(None, None, None, Some(os))), dead);
            |r| <= |os| + DeadCodeLimit
            && (forall i :: 0 <= i < |OffenderIssues(os)| ==> r[i].metric == "cyclomatic_complexity" && r[i].score >= 10.0)
            && (forall i :: |OffenderIssues(os)| <= i < |r| ==> r[i].metric == "dead_code")
  {
    OffenderIssuesScore(os);
  }

  lemma {:induction false} OffenderIssuesScore(os: seq<RadonOffender>)
    ensures forall i :: 0 <= i < |OffenderIssues(os)| ==>
              OffenderIssues(os)[i].metric == "cyclomatic_complexity" && OffenderIssues(os)[i].score >= 10.0
  {
    if os != [] {
      OffenderIssuesScore(os[..|os| - 1]);
    }
  }

  /** The loops over the offenders and the first ten dead functions. */
  method BuildToolIssues(radon: Option<RadonMetrics>, dead: seq<string>) returns (issues: seq<Issue>)
    ensures issues == ToolIssues(radon, dead)
  {
    var os := MetricsOf(radon).offenders.GetOr([]);
    issues := [];
    var i := 0;
    while i < |os|
      invariant 0 <= i <= |os|
      invariant issues == OffenderIssues(os[..i])
    {
      assert os[..i + 1][..i] == os[..i];
      var c := os[i].complexity;
      if c.Present? && c.value >= 10.0 {
        issues := issues + [Issue(os[i].lineno, "cyclomatic_complexity", c.value, RefactorSuggestion)];
      }
      i := i + 1;
    }
    assert os[..i] == os;
    var top := Text.Take(dead, DeadCodeLimit);
    var j := 0;
    ghost var cc := issues;
    while j < |top|
      invariant 0 <= j <= |top|
      invariant issues == cc + seq(j, k requires 0 <= k < j => DeadIssue(top[k]))
    {
      issues := issues + [DeadIssue(top[j])];
      j := j + 1;
    }
  }

  /**
   * `tools_parallel_node` after the gather: the security report becomes the
   * normalised semgrep then bandit findings, the quality report the radon
   * metrics and the issues; `bug_report` is set to an empty report only when
   * absent; progress rises to at least 70.
   */
  method ToolsParallelNode(s: ReviewState, semgrep: Option<Option<seq<RawFinding>>>,
                           bandit: Option<Option<seq<RawFinding>>>, radon: Option<RadonMetrics>,
                           dead: Option<seq<string>>) returns (r: ReviewState)
    ensures r.securityReport == Some(SecurityReport(NormalizeGroups([FindingsOf(semgrep), FindingsOf(bandit)])))
    ensures r.qualityReport == Some(QualityReport(Some(ToolMetricsOf(radon)), Some(ToolIssues(radon, dead.GetOr([])))))
    ensures r.bugReport == if s.bugReport.Missing? then Present(BugReport([])) else s.bugReport
    ensures r.progress == Floor(s.progress, 70.0)
    ensures r == s.(securityReport := r.securityReport, qualityReport := r.qualityReport,
                    bugReport := r.bugReport, progress := r.progress)
  {
    var findings := CollectFindings([FindingsOf(semgrep), FindingsOf(bandit)]);
    r := s.(securityReport := Some(SecurityReport(findings)));
    var issues := BuildToolIssues(radon, dead.GetOr([]));
    r := r.(qualityReport := Some(QualityReport(Some(ToolMetricsOf(radon)), Some(issues))));
    if r.bugReport.Missing? {
      r := r.(bugReport := Present(BugReport([])));
    }
    r := r.(progress := Floor(r.progress, 70.0));
  }
}
