/**
 * The LLM experts loop: `experts_model_node` decides between another round of
 * tool calls and finalising, `experts_tools_node` runs the tools and counts
 * the round, and `experts_finalize_node` merges the tools' JSON outputs into
 * the security and quality reports.
 *
 * The semantic-cache lookup, the chat model, the tool runner and the prompt
 * loader are parameters: the cached reports found (if any), whether a chat
 * model is available, whether its reply asks for tools, the messages the
 * tools return, and the system prompt.
 */
module Experts {
  import opened Wrappers
  import opened State
  import Text
  import SemanticCache

  /** `experts_model` sends the loop to the tools at most this many times. */
  const MaxToolRounds := 2
  const CacheMinScore := 0.93
  const CacheNamespace := "experts"

  /** `state.get("language") or "unknown"` */
  function LangOrUnknown(s: ReviewState): string {
    if s.language.None? || s.language.value == [] then "unknown" else s.language.value
  }

  /** The cache query: `build_query_string("experts", f"lang={lang}", code[:3000])`. */
  function ExpertsQuery(s: ReviewState): (q: string)
    ensures |q| <= SemanticCache.DefaultMaxLen
  {
    SemanticCache.BuildQueryString(["experts", "lang=" + LangOrUnknown(s), Text.Take(s.code, 3000)],
                                   SemanticCache.DefaultMaxLen)
  }

  /** `int(state.get("experts_iterations", 0))` */
  function Iterations(s: ReviewState): int {
    s.expertsIterations.GetOr(0)
  }

  /** The routing decision after a model reply. */
  function NextAfterModel(iterations: int, hasToolCalls: bool): (next: string)
    ensures next == "tools" <==> hasToolCalls && iterations < MaxToolRounds
    ensures next != "tools" ==> next == "finalize"
  {
    if hasToolCalls && iterations < MaxToolRounds then "tools" else "finalize"
  }

  const DefaultSystemPrompt := "You are tool-using code analysis experts. Use tools judiciously and return JSON."

  /** `get_prompt("tool_instructions") or …`: the loaded prompt unless it is empty. */
  function SystemText(loaded: string): (t: string)
    ensures t != []
    ensures loaded != [] ==> t == loaded
  {
    if loaded != [] then loaded else DefaultSystemPrompt
  }

  const CodeHeader := "\n\nCode snippet (truncated):\n\n"

  /**
   * `_initial_messages(state)`: a system message with the prompt, then a
   * human message with the language and the code cut to 4000 characters.
   * `systemPrompt` is what the prompt loader returned.
   */
  function InitialMessages(s: ReviewState, systemPrompt: string): (m: seq<AgentMessage>)
    ensures |m| == 2 && m[0] == SystemPrompt(SystemText(systemPrompt)) && m[1].HumanPrompt?
    ensures var head := "Language: " + LangOrUnknown(s);
            |head| <= |m[1].text| && m[1].text[..|head|] == head
    ensures var code := Text.Take(s.code, 4000);
            |code| <= |m[1].text| && m[1].text[|m[1].text| - |code|..] == code
            && code == s.code[..|code|] && |code| == if |s.code| < 4000 then |s.code| else 4000
  {
    var code := Text.Take(s.code, 4000);
    var text := "Language: " + LangOrUnknown(s) + CodeHeader + code;
    assert text[|text| - |code|..] == code;
    assert text[..|"Language: " + LangOrUnknown(s)|] == "Language: " + LangOrUnknown(s);
    [SystemPrompt(SystemText(systemPrompt)), HumanPrompt(text)]
  }

  /** The conversation the model sees: the stored one, or a fresh one when it is empty. */
  function Conversation(s: ReviewState, systemPrompt: string): (m: seq<AgentMessage>)
    ensures s.agentMessages != [] ==> m == s.agentMessages
    ensures s.agentMessages == [] ==> m == InitialMessages(s, systemPrompt)
    ensures m != []
  {
    if s.agentMessages != [] then s.agentMessages else InitialMessages(s, systemPrompt)
  }

  // ---- metrics merging, shared by the cache hit and the radon tool ----

  function Max(a: real, b: real): (m: real)
    ensures m >= a && m >= b && (m == a || m == b)
  {
    if a >= b then a else b
  }

  /**
   * `qm["avg"] = float(new.get("avg", qm.get("avg", 0.0)))`, `worst` the larger
   * of the two (missing counts as 0), `count` like `avg`; offenders are kept.
   */
  function MergeMetrics(qm: Metrics, avg: Option<real>, worst: Option<real>, count: Option<int>): (r: Metrics)
    ensures r.avg == Some(if avg.Some? then avg.value else qm.avg.GetOr(0.0))
    ensures r.count == Some(if count.Some? then count.value else qm.count.GetOr(0))
    ensures r.worst.Some? && r.worst.value >= worst.GetOr(0.0) && r.worst.value >= qm.worst.GetOr(0.0)
    ensures r.worst.value == worst.GetOr(0.0) || r.worst.value == qm.worst.GetOr(0.0)
    ensures r.worst == Some(Max(worst.GetOr(0.0), qm.worst.GetOr(0.0)))
    ensures r.offenders == qm.offenders
  {
    qm.(avg := Some(if avg.Some? then avg.value else qm.avg.GetOr(0.0)),
        worst := Some(Max(worst.GetOr(0.0), qm.worst.GetOr(0.0))),
        count := Some(if count.Some? then count.value else qm.count.GetOr(0)))
  }

  // ---- the cache hit ----

  /** The dict-valued reports of a cached experts value; `None` where the value is not a dict. */
  datatype CachedReports = CachedReports(security: Option<SecurityReport>, quality: Option<QualityReport>)

  const CacheHitLog := LogEntry("semantic-cache", "experts", "Semantic cache hit for experts.", "hit")

  function Vulns(r: Option<SecurityReport>): seq<Vuln> {
    if r.Some? then r.value.vulnerabilities else []
  }

  /** The state after a cache hit: cached findings appended, metrics merged, one log, and on to finalising. */
  function ApplyCacheHit(s: ReviewState, data: CachedReports): (r: ReviewState)
    ensures data.security.Some? ==>
              r.securityReport == Some(SecurityReport(Vulns(s.securityReport) + data.security.value.vulnerabilities))
    ensures data.security.None? ==> r.securityReport == s.securityReport
    ensures data.quality.Some? ==>
              r.qualityReport.Some? && r.qualityReport.value.metrics.Some?
              && r.qualityReport.value.metrics.value.worst.Some?
              && r.qualityReport.value.metrics.value.worst.value
                 >= (if s.qualityReport.Some? && s.qualityReport.value.metrics.Some?
                     then s.qualityReport.value.metrics.value.worst.GetOr(0.0) else 0.0)
              && r.qualityReport.value.issues
                 == Some(if s.qualityReport.Some? then s.qualityReport.value.issues.GetOr([]) else [])
    ensures data.quality.Some? ==>
              var cm := data.quality.value.metrics.GetOr(NoMetrics);
              var before := if s.qualityReport.Some? then s.qualityReport.value.metrics.GetOr(NoMetrics) else NoMetrics;
              r.qualityReport.value.metrics == Some(MergeMetrics(before, cm.avg, cm.worst, cm.count))
              && r.qualityReport.value.metrics.value.worst == Some(Max(cm.worst.GetOr(0.0), before.worst.GetOr(0.0)))
              && r.qualityReport.value.metrics.value.avg == Some(cm.avg.GetOr(before.avg.GetOr(0.0)))
              && r.qualityReport.value.metrics.value.count == Some(cm.count.GetOr(before.count.GetOr(0)))
    ensures data.quality.None? ==> r.qualityReport == s.qualityReport
    ensures r.toolLogs == s.toolLogs + [CacheHitLog]
    ensures r.expertsNext == Some("finalize")
    ensures r == s.(securityReport := r.securityReport, qualityReport := r.qualityReport,
                    toolLogs := r.toolLogs, expertsNext := r.expertsNext)
  {
    var s1 := if data.security.Some? then
                s.(securityReport := Some(SecurityReport(Vulns(s.securityReport) + data.security.value.vulnerabilities)))
              else s;
    var s2 := if data.quality.Some? then
                var q := s1.qualityReport.GetOr(QualityReport(None, None));
                var cm := data.quality.value.metrics.GetOr(NoMetrics);
                var qm := MergeMetrics(q.metrics.GetOr(NoMetrics), cm.avg, cm.worst, cm.count);
                s1.(qualityReport := Some(QualityReport(Some(qm), Some(q.issues.GetOr([])))))
              else s1;
    s2.(toolLogs := s2.toolLogs + [CacheHitLog], expertsNext := Some("finalize"))
  }

  /**
   * `experts_model_node`: a cache hit goes straight to finalising; without a
   * chat model the loop also ends (the round count is made explicit);
   * otherwise the reply is appended and the loop goes to the tools only when
   * the reply asks for them and fewer than two rounds have run.
   */
  method ExpertsModelNode(s: ReviewState, hit: Option<CachedReports>, systemPrompt: string,
                          modelAvailable: bool, replyHasToolCalls: bool) returns (r: ReviewState)
    ensures hit.Some? ==> r == ApplyCacheHit(s, hit.value)
    ensures hit.None? && !modelAvailable ==>
              r == s.(agentMessages := Conversation(s, systemPrompt),
                      expertsIterations := Some(Iterations(s)), expertsNext := Some("finalize"))
    ensures hit.None? && modelAvailable ==>
              r == s.(agentMessages := Conversation(s, systemPrompt) + [ModelReply(replyHasToolCalls)],
                      expertsNext := Some(NextAfterModel(Iterations(s), replyHasToolCalls)))
    ensures r.expertsNext == Some("tools") ==> Iterations(s) < MaxToolRounds && r.expertsIterations == s.expertsIterations
  {
    if hit.Some? {
      r := ApplyCacheHit(s, hit.value);
      return;
    }
    var messages := s.agentMessages;
    if messages == [] {
      messages := InitialMessages(s, systemPrompt);
    }
    if !modelAvailable {
      r := s.(agentMessages := messages, expertsIterations := Some(Iterations(s)), expertsNext := Some("finalize"));
      return;
    }
    messages := messages + [ModelReply(replyHasToolCalls)];
    r := s.(agentMessages := messages);
    var iterCount := Iterations(s);
    if replyHasToolCalls && iterCount < MaxToolRounds {
      r := r.(expertsNext := Some("tools"));
    } else {
      r := r.(expertsNext := Some("finalize"));
    }
  }

  /** `experts_tools_node`: the tool runner's messages replace the conversation and the round count grows by one. */
  method ExpertsToolsNode(s: ReviewState, toolMessages: seq<AgentMessage>) returns (r: ReviewState)
    ensures Iterations(r) == Iterations(s) + 1
    ensures r == s.(agentMessages := toolMessages, expertsIterations := Some(Iterations(s) + 1))
  {
    r := s.(agentMessages := toolMessages, expertsIterations := Some(Iterations(s) + 1));
  }

  // ---- merging tool outputs ----

  predicate IsScan(name: string) {
    name == "bandit_scan" || name == "semgrep_scan"
  }

  /** The findings of the scanner messages whose content is valid JSON, in message order. */
  function ScanFindings(msgs: seq<AgentMessage>): seq<Vuln> {
    if msgs == [] then []
    else
      var m := msgs[|msgs| - 1];
      ScanFindings(msgs[..|msgs| - 1])
      + (if m.ToolMessage? && m.content.Some? && IsScan(m.toolName) then m.content.value.findings else [])
  }

  /** The quality report after folding in every valid `radon_complexity` message, in order. */
  function FoldRadon(q: QualityReport, msgs: seq<AgentMessage>): QualityReport {
    if msgs == [] then q
    else
      var before := FoldRadon(q, msgs[..|msgs| - 1]);
      var m := msgs[|msgs| - 1];
      if m.ToolMessage? && m.content.Some? && m.toolName == "radon_complexity" then
        var t := m.content.value.metrics;
        before.(metrics := Some(MergeMetrics(before.metrics.GetOr(NoMetrics), t.avg, t.worst, t.count)))
      else before
  }

  /** `state.get("security_report") or {"vulnerabilities": []}` */
  function SecurityStart(s: ReviewState): SecurityReport {
    s.securityReport.GetOr(SecurityReport([]))
  }

  /** `state.get("quality_report") or {"metrics": {}, "issues": []}` (an empty dict is falsy). */
  function QualityStart(s: ReviewState): QualityReport {
    if s.qualityReport.None? || s.qualityReport.value == QualityReport(None, None)
    then QualityReport(Some(NoMetrics), Some([]))
    else s.qualityReport.value
  }

  /** The state after `_merge_tool_outputs_into_state`. */
  function Merged(s: ReviewState): ReviewState {
    s.(securityReport := Some(SecurityReport(SecurityStart(s).vulnerabilities + ScanFindings(s.agentMessages))),
       qualityReport := Some(FoldRadon(QualityStart(s), s.agentMessages)))
  }

  /** `_merge_tool_outputs_into_state`: the loop over the conversation. */
  method MergeToolOutputs(s: ReviewState) returns (r: ReviewState)
    ensures r == Merged(s)
  {
    var msgs := s.agentMessages;
    var sec := SecurityStart(s);
    var qual := QualityStart(s);
    var i := 0;
    while i < |msgs|
      invariant 0 <= i <= |msgs|
      invariant sec.vulnerabilities == SecurityStart(s).vulnerabilities + ScanFindings(msgs[..i])
      invariant qual == FoldRadon(QualityStart(s), msgs[..i])
    {
      var m := msgs[i];
      assert msgs[..i + 1][..i] == msgs[..i];
      if m.ToolMessage? && m.content.Some? {
        var data := m.content.value;
        if m.toolName == "bandit_scan" || m.toolName == "semgrep_scan" {
          sec := sec.(vulnerabilities := sec.vulnerabilities + data.findings);
        } else if m.toolName == "radon_complexity" {
          var qm := qual.metrics.GetOr(NoMetrics);
          qual := qual.(metrics := Some(MergeMetrics(qm, data.metrics.avg, data.metrics.worst, data.metrics.count)));
        }
      }
      i := i + 1;
    }
    assert msgs[..|msgs|] == msgs;
    r := s.(securityReport := Some(sec), qualityReport := Some(qual));
  }

  /** The scanners' findings of two conversations, one after the other. */
  lemma {:induction false} ScanFindingsAppend(a: seq<AgentMessage>, b: seq<AgentMessage>)
    ensures ScanFindings(a + b) == ScanFindings(a) + ScanFindings(b)
    decreases |b|
  {
    if b == [] {
      assert a + b == a;
    } else {
      assert (a + b)[..|a + b| - 1] == a + b[..|b| - 1];
      ScanFindingsAppend(a, b[..|b| - 1]);
    }
  }

  /** A tool message that is not valid JSON contributes no finding. */
  lemma InvalidJsonSkipped(a: seq<AgentMessage>, name: string, b: seq<AgentMessage>)
    ensures ScanFindings(a + [ToolMessage(name, None)] + b) == ScanFindings(a + b)
  {
    ScanFindingsAppend(a + [ToolMessage(name, None)], b);
    ScanFindingsAppend(a, b);
    assert (a + [ToolMessage(name, None)])[..|a|] == a;
  }

  /** Merging never loses a finding: the earlier ones stay in front, in order. */
  lemma MergeKeepsEarlierFindings(s: ReviewState)
    ensures Merged(s).securityReport.Some?
    ensures |Merged(s).securityReport.value.vulnerabilities| >= |SecurityStart(s).vulnerabilities|
    ensures Merged(s).securityReport.value.vulnerabilities[..|SecurityStart(s).vulnerabilities|]
            == SecurityStart(s).vulnerabilities
  {
    var v := SecurityStart(s).vulnerabilities;
    assert (v + ScanFindings(s.agentMessages))[..|v|] == v;
  }

  function WorstOf(q: QualityReport): real {
    if q.metrics.Some? then q.metrics.value.worst.GetOr(0.0) else 0.0
  }

  /** After merging radon outputs, `worst` is at least the starting value and at least every radon message's value. */
  lemma {:induction false} RadonWorstIsMax(q: QualityReport, msgs: seq<AgentMessage>)
    ensures WorstOf(FoldRadon(q, msgs)) >= WorstOf(q)
    ensures forall i :: 0 <= i < |msgs| && msgs[i].ToolMessage? && msgs[i].content.Some?
                          && msgs[i].toolName == "radon_complexity" ==>
              WorstOf(FoldRadon(q, msgs)) >= msgs[i].content.value.metrics.worst.GetOr(0.0)
  {
    if msgs != [] {
      var init := msgs[..|msgs| - 1];
      RadonWorstIsMax(q, init);
      forall i | 0 <= i < |init| ensures init[i] == msgs[i] {}
    }
  }

  const FinalizeLog := LogEntry("llm-experts", "experts", "LLM experts: tools executed and merged.", "completed")

  /**
   * `experts_finalize_node`: merge the tool outputs, append one log and add 10
   * to the progress (capped at 100).
   */
  method ExpertsFinalizeNode(s: ReviewState) returns (r: ReviewState)
    ensures r == Merged(s).(toolLogs := s.toolLogs + [FinalizeLog], progress := Bump(s.progress, 10.0))
    ensures r.progress <= 100.0
  {
    r := MergeToolOutputs(s);
    r := r.(toolLogs := r.toolLogs + [FinalizeLog]);
    r := r.(progress := Bump(r.progress, 10.0));
  }
}
