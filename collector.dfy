/**
 * `collector_node` and its four section renderers: the security section
 * (scanner findings and the security expert's analysis), the quality
 * section, and the API and database sections, which are empty when their
 * expert found nothing.
 */
module Collector {
  import opened Wrappers
  import opened State
  import Text
  import opened Render

  const SecurityHeading := "## Security Analysis\n"
  const QualityHeading := "## Code Quality\n"
  const ApiHeading := "## API Analysis\n"
  const DbHeading := "## Database Analysis\n"
  const SummaryHeading := "# Expert Analysis Summary\n\n"
  const Warning := "\U{26A0}\U{FE0F}"

  function VulnLine(v: Vuln): string {
    "- Line " + ShowInt(v.line) + ": " + ShowStr(v.kind) + " [" + ShowStr(v.severity) + "]\n"
  }

  function CriticalLine(e: ExpertIssue): string {
    "- Line " + ShowInt(e.line) + ": " + e.issue + "\n" + "  - Fix: " + e.fix + "\n"
  }

  function ImportantLine(e: ExpertIssue): string {
    "- Line " + ShowInt(e.line) + ": " + e.issue + "\n"
  }

  function Bullet(s: string): string {
    "- " + s + "\n"
  }

  function WarningLine(s: string): string {
    "  - " + Warning + " " + s + "\n"
  }

  /** A risk, with its fix on a second line when the fix is non-empty. */
  function RiskLine(r: Risk): string {
    "- [" + r.severity + "] " + r.description + "\n" + (if r.fix != "" then "  - Fix: " + r.fix + "\n" else "")
  }

  /** An endpoint, followed by every one of its issues (that inner list is not cut). */
  function EndpointLine(e: Endpoint): string {
    "- " + e.httpMethod + " " + e.path + " (Line " + ShowInt(e.line) + ")\n" + Text.Concat(Lines(WarningLine, e.issues))
  }

  function QueryLine(q: DbQuery): string {
    "- " + q.location + ": " + q.kind + "\n" + Text.Concat(Lines(WarningLine, q.issues))
  }

  function ToolVulns(tool: Option<SecurityReport>): seq<Vuln> {
    if tool.Some? then tool.value.vulnerabilities else []
  }

  function ExpertOf(expert: Option<SecurityExpertAnalysis>): SecurityExpertAnalysis {
    expert.GetOr(SecurityExpertAnalysis([], [], []))
  }

  function ToolListing(tool: Option<SecurityReport>): seq<Group> {
    var vs := ToolVulns(tool);
    Listing("**Tool Findings:** " + Text.NatToString(|vs|) + " vulnerabilities detected\n\n", vs, VulnLine, 5, "\n")
  }

  function CriticalListing(e: SecurityExpertAnalysis): seq<Group> {
    Listing("**Critical Issues (P0):** " + Text.NatToString(|e.critical|) + "\n\n", e.critical, CriticalLine, 3, "\n")
  }

  function ImportantListing(e: SecurityExpertAnalysis): seq<Group> {
    Listing("**Important Issues (P1):** " + Text.NatToString(|e.important|) + "\n\n", e.important, ImportantLine, 3,
            "\n")
  }

  function RecommendationListing(e: SecurityExpertAnalysis): seq<Group> {
    Listing("**Recommendations:**\n\n", e.recommendations, Bullet, 5, "\n")
  }

  /** `_format_security_section`: the heading, then the scanner findings and the expert's three lists. */
  function SecuritySection(tool: Option<SecurityReport>, expert: Option<SecurityExpertAnalysis>): (text: string)
    ensures Text.StartsWith(text, SecurityHeading)
  {
    var e := ExpertOf(expert);
    var rest := GroupsText(ToolListing(tool)) + GroupsText(CriticalListing(e))
                + GroupsText(ImportantListing(e)) + GroupsText(RecommendationListing(e));
    Text.StartsWithConcat(SecurityHeading, rest);
    SecurityHeading + rest
  }

  /**
   * The security section lists min(5, findings) scanner findings,
   * min(3, critical), min(3, important) and min(5, recommendations).
   */
  lemma SecuritySectionCounts(tool: Option<SecurityReport>, expert: Option<SecurityExpertAnalysis>)
    ensures var vs, e := ToolVulns(tool), ExpertOf(expert);
            ItemCount(ToolListing(tool)) == Min(5, |vs|)
            && ItemCount(CriticalListing(e)) == Min(3, |e.critical|)
            && ItemCount(ImportantListing(e)) == Min(3, |e.important|)
            && ItemCount(RecommendationListing(e)) == Min(5, |e.recommendations|)
  {
    var vs, e := ToolVulns(tool), ExpertOf(expert);
    ListingFacts("**Tool Findings:** " + Text.NatToString(|vs|) + " vulnerabilities detected\n\n", vs, VulnLine, 5, "\n");
    ListingFacts("**Critical Issues (P0):** " + Text.NatToString(|e.critical|) + "\n\n", e.critical, CriticalLine, 3,
                 "\n");
    ListingFacts("**Important Issues (P1):** " + Text.NatToString(|e.important|) + "\n\n", e.important, ImportantLine,
                 3, "\n");
    ListingFacts("**Recommendations:**\n\n", e.recommendations, Bullet, 5, "\n");
  }

  /** The security section shows the first ones of each of its four lists. */
  lemma SecuritySectionShown(tool: Option<SecurityReport>, expert: Option<SecurityExpertAnalysis>)
    ensures var vs, e := ToolVulns(tool), ExpertOf(expert);
            var text := SecuritySection(tool, expert);
            (forall i :: 0 <= i < Min(5, |vs|) ==> Text.Contains(text, VulnLine(vs[i])))
            && (forall i :: 0 <= i < Min(3, |e.critical|) ==> Text.Contains(text, CriticalLine(e.critical[i])))
            && (forall i :: 0 <= i < Min(3, |e.important|) ==> Text.Contains(text, ImportantLine(e.important[i])))
            && (forall i :: 0 <= i < Min(5, |e.recommendations|) ==> Text.Contains(text, Bullet(e.recommendations[i])))
  {
    SecurityToolShown(tool, expert);
    SecurityCriticalShown(tool, expert);
    SecurityImportantShown(tool, expert);
    SecurityRecommendationsShown(tool, expert);
  }

  lemma SecurityToolShown(tool: Option<SecurityReport>, expert: Option<SecurityExpertAnalysis>)
    ensures var vs, e := ToolVulns(tool), ExpertOf(expert);
            forall i :: 0 <= i < Min(5, |vs|) ==> Text.Contains(SecuritySection(tool, expert), VulnLine(vs[i]))
  {
    var vs, e := ToolVulns(tool), ExpertOf(expert);
    var g1, g2, g3, g4 := GroupsText(ToolListing(tool)), GroupsText(CriticalListing(e)),
                          GroupsText(ImportantListing(e)), GroupsText(RecommendationListing(e));
    assert SecuritySection(tool, expert) == SecurityHeading + (g1 + g2 + g3 + g4);
    ListingFacts("**Tool Findings:** " + Text.NatToString(|vs|) + " vulnerabilities detected\n\n", vs, VulnLine, 5, "\n");
    ShownInParts(SecurityHeading, g1, g2, g3, g4);
  }

  lemma SecurityCriticalShown(tool: Option<SecurityReport>, expert: Option<SecurityExpertAnalysis>)
    ensures var vs, e := ToolVulns(tool), ExpertOf(expert);
            forall i :: 0 <= i < Min(3, |e.critical|) ==> Text.Contains(SecuritySection(tool, expert), CriticalLine(e.critical[i]))
  {
    var vs, e := ToolVulns(tool), ExpertOf(expert);
    var g1, g2, g3, g4 := GroupsText(ToolListing(tool)), GroupsText(CriticalListing(e)),
                          GroupsText(ImportantListing(e)), GroupsText(RecommendationListing(e));
    assert SecuritySection(tool, expert) == SecurityHeading + (g1 + g2 + g3 + g4);
    ListingFacts("**Critical Issues (P0):** " + Text.NatToString(|e.critical|) + "\n\n", e.critical, CriticalLine, 3, "\n");
    ShownInParts(SecurityHeading, g1, g2, g3, g4);
  }

  lemma SecurityImportantShown(tool: Option<SecurityReport>, expert: Option<SecurityExpertAnalysis>)
    ensures var vs, e := ToolVulns(tool), ExpertOf(expert);
            forall i :: 0 <= i < Min(3, |e.important|) ==> Text.Contains(SecuritySection(tool, expert), ImportantLine(e.important[i]))
  {
    var vs, e := ToolVulns(tool), ExpertOf(expert);
    var g1, g2, g3, g4 := GroupsText(ToolListing(tool)), GroupsText(CriticalListing(e)),
                          GroupsText(ImportantListing(e)), GroupsText(RecommendationListing(e));
    assert SecuritySection(tool, expert) == SecurityHeading + (g1 + g2 + g3 + g4);
    ListingFacts("**Important Issues (P1):** " + Text.NatToString(|e.important|) + "\n\n", e.important, ImportantLine, 3, "\n");
    ShownInParts(SecurityHeading, g1, g2, g3, g4);
  }

  lemma SecurityRecommendationsShown(tool: Option<SecurityReport>, expert: Option<SecurityExpertAnalysis>)
    ensures var vs, e := ToolVulns(tool), ExpertOf(expert);
            forall i :: 0 <= i < Min(5, |e.recommendations|) ==> Text.Contains(SecuritySection(tool, expert), Bullet(e.recommendations[i]))
  {
    var vs, e := ToolVulns(tool), ExpertOf(expert);
    var g1, g2, g3, g4 := GroupsText(ToolListing(tool)), GroupsText(CriticalListing(e)),
                          GroupsText(ImportantListing(e)), GroupsText(RecommendationListing(e));
    assert SecuritySection(tool, expert) == SecurityHeading + (g1 + g2 + g3 + g4);
    ListingFacts("**Recommendations:**\n\n", e.recommendations, Bullet, 5, "\n");
    ShownInParts(SecurityHeading, g1, g2, g3, g4);
  }

  /** `if tool_report:` on the quality report: a dict with at least one key. */
  predicate QualityTruthy(report: Option<QualityReport>) {
    report.Some? && (report.value.metrics.Some? || report.value.issues.Some?)
  }

  function QualityIssueLine(num: Numerals, i: Issue): string {
    "- Line " + ShowInt(i.line) + ": " + i.metric + " = " + num.repr(i.score) + "\n" + "  - " + i.suggestion + "\n"
  }

  function QualityIssueLineOf(num: Numerals): Issue -> string {
    i => QualityIssueLine(num, i)
  }

  /** The three metric lines, with 0 for a missing value. */
  function MetricsBlock(num: Numerals, m: Metrics): string {
    "**Complexity Metrics:**\n"
    + "- Average: " + num.fixed2(m.avg.GetOr(0.0)) + "\n"
    + "- Worst: " + num.fixed1(m.worst.GetOr(0.0)) + "\n"
    + "- Functions analyzed: " + Text.IntToString(m.count.GetOr(0)) + "\n\n"
  }

  function QualityIssues(report: Option<QualityReport>): seq<Issue> {
    if report.Some? then report.value.issues.GetOr([]) else []
  }

  function IssueListing(report: Option<QualityReport>, num: Numerals): seq<Group> {
    var issues := QualityIssues(report);
    Listing("**Issues Found:** " + Text.NatToString(|issues|) + "\n\n", issues, QualityIssueLineOf(num), 5, "\n")
  }

  /** `_format_quality_section`: the metric lines and at most 5 issues, or the heading alone. */
  function QualitySection(report: Option<QualityReport>, num: Numerals): (text: string)
    ensures Text.StartsWith(text, QualityHeading)
    ensures !QualityTruthy(report) ==> text == QualityHeading
  {
    if !QualityTruthy(report) then
      assert QualityHeading + [] == QualityHeading;
      Text.StartsWithConcat(QualityHeading, []);
      QualityHeading
    else
      var rest := MetricsBlock(num, report.value.metrics.GetOr(NoMetrics)) + GroupsText(IssueListing(report, num));
      Text.StartsWithConcat(QualityHeading, rest);
      QualityHeading + rest
  }

  /**
   * A truthy report puts the metric lines right after the heading and lists
   * the first min(5, issues) issues.
   */
  lemma QualitySectionFacts(report: Option<QualityReport>, num: Numerals)
    requires QualityTruthy(report)
    ensures var issues := QualityIssues(report);
            var text := QualitySection(report, num);
            Text.StartsWith(text, QualityHeading + MetricsBlock(num, report.value.metrics.GetOr(NoMetrics)))
            && ItemCount(IssueListing(report, num)) == Min(5, |issues|)
            && forall i :: 0 <= i < Min(5, |issues|) ==> Text.Contains(text, QualityIssueLine(num, issues[i]))
  {
    var issues := QualityIssues(report);
    var head := QualityHeading + MetricsBlock(num, report.value.metrics.GetOr(NoMetrics));
    var g := GroupsText(IssueListing(report, num));
    var text := QualitySection(report, num);
    Text.StartsWithAssoc(QualityHeading, MetricsBlock(num, report.value.metrics.GetOr(NoMetrics)), g);
    ListingFacts("**Issues Found:** " + Text.NatToString(|issues|) + "\n\n", issues, QualityIssueLineOf(num), 5, "\n");
    ShownInParts(head, g, [], [], []);
    assert head + g + [] + [] + [] == text;
    forall i | 0 <= i < Min(5, |issues|) ensures Text.Contains(text, QualityIssueLine(num, issues[i])) {
      assert QualityIssueLineOf(num)(issues[i]) == QualityIssueLine(num, issues[i]);
    }
  }

  function EndpointListing(a: ApiAnalysis): seq<Group> {
    Listing("**Endpoints Found:** " + Text.NatToString(|a.endpoints|) + "\n\n", a.endpoints, EndpointLine, 5, "\n")
  }

  function ApiRiskListing(a: ApiAnalysis): seq<Group> {
    Listing("**Issues:** " + Text.NatToString(|a.issues|) + "\n\n", a.issues, RiskLine, 5, "\n")
  }

  function ImprovementListing(a: ApiAnalysis): seq<Group> {
    Listing("**Improvements:**\n\n", a.improvements, Bullet, 5, "\n")
  }

  /** `_format_api_section`: empty without an analysis or with neither endpoints nor issues. */
  function ApiSection(a: Option<ApiAnalysis>): (text: string)
    ensures text == [] <==> a.None? || (a.value.endpoints == [] && a.value.issues == [])
    ensures text != [] ==> Text.StartsWith(text, ApiHeading)
  {
    if a.None? || (a.value.endpoints == [] && a.value.issues == []) then []
    else
      var rest := GroupsText(EndpointListing(a.value)) + GroupsText(ApiRiskListing(a.value))
                  + GroupsText(ImprovementListing(a.value));
      Text.StartsWithConcat(ApiHeading, rest);
      ApiHeading + rest
  }

  /** A non-empty API section lists min(5, n) endpoints, issues and improvements, the first ones of each. */
  lemma ApiSectionFacts(a: ApiAnalysis)
    requires a.endpoints != [] || a.issues != []
    ensures var text := ApiSection(Some(a));
            ItemCount(EndpointListing(a)) == Min(5, |a.endpoints|)
            && ItemCount(ApiRiskListing(a)) == Min(5, |a.issues|)
            && ItemCount(ImprovementListing(a)) == Min(5, |a.improvements|)
            && (forall i :: 0 <= i < Min(5, |a.endpoints|) ==> Text.Contains(text, EndpointLine(a.endpoints[i])))
            && (forall i :: 0 <= i < Min(5, |a.issues|) ==> Text.Contains(text, RiskLine(a.issues[i])))
            && (forall i :: 0 <= i < Min(5, |a.improvements|) ==> Text.Contains(text, Bullet(a.improvements[i])))
  {
    var g1, g2, g3 := GroupsText(EndpointListing(a)), GroupsText(ApiRiskListing(a)), GroupsText(ImprovementListing(a));
    var text := ApiSection(Some(a));
    assert text == ApiHeading + (g1 + g2 + g3);
    assert g1 + g2 + g3 + [] == g1 + g2 + g3;
    ListingFacts("**Endpoints Found:** " + Text.NatToString(|a.endpoints|) + "\n\n", a.endpoints, EndpointLine, 5, "\n");
    ListingFacts("**Issues:** " + Text.NatToString(|a.issues|) + "\n\n", a.issues, RiskLine, 5, "\n");
    ListingFacts("**Improvements:**\n\n", a.improvements, Bullet, 5, "\n");
    ShownInParts(ApiHeading, g1, g2, g3, []);
  }

  function QueryListing(d: DbAnalysis): seq<Group> {
    Listing("**Queries Found:** " + Text.NatToString(|d.queries|) + "\n\n", d.queries, QueryLine, 5, "\n")
  }

  function DbRiskListing(d: DbAnalysis): seq<Group> {
    Listing("**Risks:** " + Text.NatToString(|d.risks|) + "\n\n", d.risks, RiskLine, 5, "\n")
  }

  function OptimizationListing(d: DbAnalysis): seq<Group> {
    Listing("**Optimizations:**\n\n", d.optimizations, Bullet, 5, "\n")
  }

  /** `_format_db_section`: empty without an analysis or with neither queries nor risks. */
  function DbSection(d: Option<DbAnalysis>): (text: string)
    ensures text == [] <==> d.None? || (d.value.queries == [] && d.value.risks == [])
    ensures text != [] ==> Text.StartsWith(text, DbHeading)
  {
    if d.None? || (d.value.queries == [] && d.value.risks == []) then []
    else
      var rest := GroupsText(QueryListing(d.value)) + GroupsText(DbRiskListing(d.value))
                  + GroupsText(OptimizationListing(d.value));
      Text.StartsWithConcat(DbHeading, rest);
      DbHeading + rest
  }

  /** A non-empty database section lists min(5, n) queries, risks and optimizations, the first ones of each. */
  lemma DbSectionFacts(d: DbAnalysis)
    requires d.queries != [] || d.risks != []
    ensures var text := DbSection(Some(d));
            ItemCount(QueryListing(d)) == Min(5, |d.queries|)
            && ItemCount(DbRiskListing(d)) == Min(5, |d.risks|)
            && ItemCount(OptimizationListing(d)) == Min(5, |d.optimizations|)
            && (forall i :: 0 <= i < Min(5, |d.queries|) ==> Text.Contains(text, QueryLine(d.queries[i])))
            && (forall i :: 0 <= i < Min(5, |d.risks|) ==> Text.Contains(text, RiskLine(d.risks[i])))
            && (forall i :: 0 <= i < Min(5, |d.optimizations|) ==> Text.Contains(text, Bullet(d.optimizations[i])))
  {
    var g1, g2, g3 := GroupsText(QueryListing(d)), GroupsText(DbRiskListing(d)), GroupsText(OptimizationListing(d));
    var text := DbSection(Some(d));
    assert text == DbHeading + (g1 + g2 + g3);
    assert g1 + g2 + g3 + [] == g1 + g2 + g3;
    ListingFacts("**Queries Found:** " + Text.NatToString(|d.queries|) + "\n\n", d.queries, QueryLine, 5, "\n");
    ListingFacts("**Risks:** " + Text.NatToString(|d.risks|) + "\n\n", d.risks, RiskLine, 5, "\n");
    ListingFacts("**Optimizations:**\n\n", d.optimizations, Bullet, 5, "\n");
    ShownInParts(DbHeading, g1, g2, g3, []);
  }

  /**
   * The unified summary: heading, security, quality, then the API and
   * database sections (the node appends each only when it is non-empty,
   * which is the same text as appending it unconditionally).
   */
  function ExpertSummary(s: ReviewState, num: Numerals): string {
    SummaryHeading + SecuritySection(s.securityReport, s.securityExpertAnalysis)
    + QualitySection(s.qualityReport, num) + ApiSection(s.apiExpertAnalysis) + DbSection(s.dbExpertAnalysis)
  }

  /** Without API and database findings the summary is exactly heading, security and quality. */
  lemma ExpertSummaryWithoutExperts(s: ReviewState, num: Numerals)
    requires ApiSection(s.apiExpertAnalysis) == [] && DbSection(s.dbExpertAnalysis) == []
    ensures ExpertSummary(s, num)
              == SummaryHeading + SecuritySection(s.securityReport, s.securityExpertAnalysis)
                 + QualitySection(s.qualityReport, num)
  {
    var base := SummaryHeading + SecuritySection(s.securityReport, s.securityExpertAnalysis)
                + QualitySection(s.qualityReport, num);
    assert base + [] + [] == base;
  }

  /** The summary opens with its heading directly followed by the security section. */
  lemma ExpertSummaryLayout(s: ReviewState, num: Numerals)
    ensures Text.StartsWith(ExpertSummary(s, num), SummaryHeading + SecurityHeading)
  {
    var sec := SecuritySection(s.securityReport, s.securityExpertAnalysis);
    var qual := QualitySection(s.qualityReport, num);
    var api := ApiSection(s.apiExpertAnalysis);
    var db := DbSection(s.dbExpertAnalysis);
    Text.StartsWithChain(SummaryHeading, sec, SecurityHeading, qual);
    Text.StartsWithExtend(SummaryHeading + sec + qual, SummaryHeading + SecurityHeading, api);
    Text.StartsWithExtend(SummaryHeading + sec + qual + api, SummaryHeading + SecurityHeading, db);
  }

  /** The quality section and each expert section, when present, are in the summary. */
  lemma ExpertSummaryHoldsSections(s: ReviewState, num: Numerals)
    ensures Text.Contains(ExpertSummary(s, num), QualitySection(s.qualityReport, num))
    ensures Text.Contains(ExpertSummary(s, num), ApiSection(s.apiExpertAnalysis))
    ensures Text.Contains(ExpertSummary(s, num), DbSection(s.dbExpertAnalysis))
  {
    var sec := SecuritySection(s.securityReport, s.securityExpertAnalysis);
    var qual := QualitySection(s.qualityReport, num);
    var api := ApiSection(s.apiExpertAnalysis);
    var db := DbSection(s.dbExpertAnalysis);
    var text := ExpertSummary(s, num);
    assert text == SummaryHeading + sec + qual + api + db + [];
    Text.ContainsSelf(qual);
    Text.ContainsSelf(api);
    Text.ContainsSelf(db);
    ShownInParts(SummaryHeading + sec, qual, api, db, []);
  }

  /** `collector_node`: writes the summary and sets progress to exactly 80. */
  method CollectorNode(s: ReviewState, num: Numerals) returns (r: ReviewState)
    ensures r.expertSummary == Some(ExpertSummary(s, num))
    ensures r.progress == 80.0
    ensures r == s.(expertSummary := r.expertSummary, progress := r.progress)
  {
    var sec := SecuritySection(s.securityReport, s.securityExpertAnalysis);
    var qual := QualitySection(s.qualityReport, num);
    var api := ApiSection(s.apiExpertAnalysis);
    var db := DbSection(s.dbExpertAnalysis);
    var parts := SummaryHeading + sec;
    parts := parts + qual;
    if api != [] {
      parts := parts + api;
    }
    if db != [] {
      parts := parts + db;
    }
    assert parts == SummaryHeading + sec + qual + api + db by {
      SkipEmpty(SummaryHeading + sec + qual, api, db);
    }
    r := s.(expertSummary := Some(parts), progress := 80.0);
  }

  /** Appending a part only when it is non-empty is appending it. */
  lemma SkipEmpty(p: string, a: string, b: string)
    ensures (if b != [] then (if a != [] then p + a else p) + b else (if a != [] then p + a else p)) == p + a + b
  {
    assert p + [] == p;
    assert p + a + [] == p + a;
  }
}
