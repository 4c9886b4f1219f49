/**
 * The shared state every node of the review graph reads and writes
 * (`CodeReviewState`), the records the reports are made of, the initial state
 * and the fallback message reducer.
 *
 * The state is a Python dict whose keys may be missing. A key whose value is
 * only ever read with `state.get(k) or default` is an `Option` here (missing
 * and `None` behave alike); `bug_report`, which one node fills with
 * `setdefault`, is a `Field`, which keeps missing and `None` apart.
 */
module State {
  import opened Wrappers
  import Text

  datatype HistoryMessage = HistoryMessage(role: string, content: string)

  /** An entry of `files`: the request's raw files carry only a path and a content. */
  datatype SourceFile = SourceFile(path: string, language: Option<string>, size: int, content: string)

  /** One entry of `tool_logs`, streamed to the client. */
  datatype LogEntry = LogEntry(id: string, agent: string, message: string, status: string)

  /** A security finding; keys the scanners may leave out or set to `None` are optional. */
  datatype Vuln = Vuln(line: Option<int>, kind: Option<string>, severity: Option<string>,
                       snippet: string, exploit: Option<string>)

  /** A suspected bug from the line heuristics. */
  datatype Bug = Bug(line: int, kind: string, confidence: real, snippet: string, testCase: string)

  /** A quality issue (complexity, file length, dead code). */
  datatype Issue = Issue(line: Option<int>, metric: string, score: real, suggestion: string)

  /** A function whose cyclomatic complexity is at least 10. */
  datatype Offender = Offender(name: string, lineno: Option<int>, complexity: real)

  /** The `metrics` dict of a quality report; every key may be missing. */
  datatype Metrics = Metrics(avg: Option<real>, worst: Option<real>, count: Option<int>,
                             offenders: Option<seq<Offender>>)

  const NoMetrics := Metrics(None, None, None, None)

  /** `quality_report`: `{"metrics": …, "issues": […]}`, either key possibly missing. */
  datatype QualityReport = QualityReport(metrics: Option<Metrics>, issues: Option<seq<Issue>>)

  /** `security_report`: a missing or `None` vulnerability list reads as empty everywhere. */
  datatype SecurityReport = SecurityReport(vulnerabilities: seq<Vuln>)

  datatype BugReport = BugReport(bugs: seq<Bug>)

  /** Findings of the LLM specialists that the collector renders. */
  datatype ExpertIssue = ExpertIssue(line: Option<int>, issue: string, fix: string)
  datatype SecurityExpertAnalysis = SecurityExpertAnalysis(critical: seq<ExpertIssue>,
                                                           important: seq<ExpertIssue>,
                                                           recommendations: seq<string>)
  datatype Endpoint = Endpoint(httpMethod: string, path: string, line: Option<int>, issues: seq<string>)
  datatype Risk = Risk(severity: string, description: string, fix: string)
  datatype ApiAnalysis = ApiAnalysis(endpoints: seq<Endpoint>, issues: seq<Risk>, improvements: seq<string>)
  datatype DbQuery = DbQuery(location: string, kind: string, issues: seq<string>)
  datatype DbAnalysis = DbAnalysis(queries: seq<DbQuery>, risks: seq<Risk>, optimizations: seq<string>)

  /** `context`: the summary of the collected files. */
  datatype ContextSummary = ContextSummary(totalFiles: int, totalLines: int, languages: seq<string>)

  /** A tree-sitter finding; `subject` is the called function or the assigned property. */
  datatype AstFinding = AstFinding(kind: string, subject: string, line: int, severity: string,
                                   message: string, path: string)

  /** A dict-valued `ast_report`: its tree-sitter findings and whatever other keys it holds. */
  datatype AstReport = AstReport(other: map<string, string>, treeSitterFindings: Option<seq<AstFinding>>)

  /** `ast_report` is either a dict or some other (non-dict) value. */
  datatype AstValue = AstDict(report: AstReport) | AstOther

  /** A retrieved code chunk in `chat_context_docs`. */
  datatype ContextDoc = ContextDoc(path: Field<string>, text: string, score: real)

  /** The decoded JSON of a tool message: scanner findings and radon metrics. */
  datatype ToolMetrics = ToolMetrics(avg: Option<real>, worst: Option<real>, count: Option<int>)
  datatype ToolData = ToolData(findings: seq<Vuln>, metrics: ToolMetrics)

  /**
   * The experts' conversation: tool messages (`content` is `None` when it is
   * not valid JSON), model replies (with or without tool calls), and the
   * system and human messages that open it.
   */
  datatype AgentMessage =
    // toolName is the message's `tool_name` attribute, "" when it has none
    | ToolMessage(toolName: string, content: Option<ToolData>)
    | ModelReply(hasToolCalls: bool)
    | SystemPrompt(text: string)
    | HumanPrompt(text: string)

  /** `CodeReviewState`, with the keys the nodes read or write. */
  datatype ReviewState = ReviewState(
    code: string,
    language: Option<string>,
    source: Option<string>,
    files: Option<seq<SourceFile>>,
    history: seq<HistoryMessage>,
    messages: seq<string>,
    qualityReport: Option<QualityReport>,
    bugReport: Field<BugReport>,
    securityReport: Option<SecurityReport>,
    astReport: Option<AstValue>,
    context: Option<ContextSummary>,
    toolLogs: seq<LogEntry>,
    progress: real,
    mode: string,
    agents: seq<string>,
    finalReport: Option<string>,
    agentMessages: seq<AgentMessage>,
    expertsIterations: Option<int>,
    expertsNext: Option<string>,
    inputMode: string,
    folderPath: Option<string>,
    codeContext: map<string, string>,
    vectorstoreId: Option<string>,
    chatQuery: Option<string>,
    agentType: Option<string>,
    chatResponse: Option<string>,
    expertSummary: Option<string>,
    securityExpertAnalysis: Option<SecurityExpertAnalysis>,
    apiExpertAnalysis: Option<ApiAnalysis>,
    dbExpertAnalysis: Option<DbAnalysis>,
    chatContextDocs: seq<ContextDoc>)

  const DefaultAgents: seq<string> := ["quality", "bug", "security"]

  /** `initial_state(code=…, history=…, mode=…, agents=…)`. */
  function InitialState(code: string, history: Option<seq<HistoryMessage>>, mode: string,
                        agents: Option<seq<string>>): (s: ReviewState)
    ensures s.code == code && s.mode == mode
    ensures history.Some? ==> s.history == Text.LastN(history.value, 20)
    ensures history.Some? && |history.value| > 20 ==>
              |s.history| == 20 && s.history == history.value[|history.value| - 20..]
    ensures history.None? ==> s.history == []
    ensures s.agents == if agents.None? || agents.value == [] then DefaultAgents else agents.value
    ensures s.progress == 0.0 && s.toolLogs == [] && s.messages == []
    ensures s.qualityReport.None? && s.bugReport == Null && s.securityReport.None? && s.finalReport.None?
    ensures s.language.None? && s.inputMode == "paste" && s.codeContext == map[]
    ensures s.expertsIterations.None? && s.expertsNext.None? && s.agentMessages == []
  {
    ReviewState(
      code := code,
      language := None,
      source := None,
      files := None,
      history := Text.LastN(history.GetOr([]), 20),
      messages := [],
      qualityReport := None,
      bugReport := Null,
      securityReport := None,
      astReport := None,
      context := None,
      toolLogs := [],
      progress := 0.0,
      mode := mode,
      agents := if agents.None? || agents.value == [] then DefaultAgents else agents.value,
      finalReport := None,
      agentMessages := [],
      expertsIterations := None,
      expertsNext := None,
      inputMode := "paste",
      folderPath := None,
      codeContext := map[],
      vectorstoreId := None,
      chatQuery := None,
      agentType := None,
      chatResponse := None,
      expertSummary := None,
      securityExpertAnalysis := None,
      apiExpertAnalysis := None,
      dbExpertAnalysis := None,
      chatContextDocs := [])
  }

  /** The fallback `add_messages(x, y)`: `(x or []) + (y or [])`. */
  function AddMessages<T>(x: Option<seq<T>>, y: Option<seq<T>>): (r: seq<T>)
    ensures |r| == |x.GetOr([])| + |y.GetOr([])|
    ensures r[..|x.GetOr([])|] == x.GetOr([]) && r[|x.GetOr([])|..] == y.GetOr([])
  {
    x.GetOr([]) + y.GetOr([])
  }

  /** `min(100.0, p + step)`: the progress bump of most nodes. */
  function Bump(p: real, step: real): (r: real)
    ensures r <= 100.0
    ensures p + step <= 100.0 ==> r == p + step
    ensures p + step > 100.0 ==> r == 100.0
  {
    if p + step < 100.0 then p + step else 100.0
  }

  /** `max(p, floor)`: the progress floor of the context and tools nodes. */
  function Floor(p: real, floor: real): (r: real)
    ensures r >= p && r >= floor && (r == p || r == floor)
  {
    if p > floor then p else floor
  }

  /** A bump by a non-negative step never lowers a progress that is within range. */
  lemma BumpMonotone(p: real, step: real)
    requires 0.0 <= p <= 100.0 && step >= 0.0
    ensures p <= Bump(p, step) <= 100.0
  {
  }

  /** Appending a log: earlier logs are kept, in order, and exactly one is added. */
  function AppendLog(logs: seq<LogEntry>, e: LogEntry): (r: seq<LogEntry>)
    ensures |r| == |logs| + 1 && r[..|logs|] == logs && r[|logs|] == e
  {
    logs + [e]
  }
}
