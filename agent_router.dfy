/**
 * Intent classification for chat questions (`classify_question`) and the
 * chat graph node that records it (`agent_router_node`). The chat model's
 * answer is a parameter: `None` when no model is configured or the call fails.
 */
module AgentRouter {
  import opened Wrappers
  import opened State
  import Text

  const SecurityWords: seq<string> := ["security", "vulnerability", "exploit", "attack", "injection", "xss", "sql"]
  const QualityWords: seq<string> := ["quality", "complexity", "maintainability", "best practice", "clean code"]
  const BugWords: seq<string> := ["bug", "error", "crash", "exception", "edge case", "fail"]
  const Labels: seq<string> := ["security", "quality", "bug", "general"]

  /** `any(word in text for word in words)` */
  predicate AnyIn(text: string, words: seq<string>) {
    exists w :: w in words && Text.Contains(text, w)
  }

  /** The answer of the model, stripped and lower-cased, when it is one of the four labels. */
  function ModelLabel(answer: Option<string>): (r: Option<string>)
    ensures r.Some? ==> r.value in Labels
    ensures r.Some? <==> answer.Some? && Text.Lower(Text.Strip(answer.value)) in Labels
  {
    if answer.Some? && Text.Lower(Text.Strip(answer.value)) in Labels
    then Some(Text.Lower(Text.Strip(answer.value)))
    else None
  }

  /** `classify_question(question)` with the model's answer as `answer`. */
  function ClassifyQuestion(question: string, answer: Option<string>): (r: string)
    ensures r in Labels
    ensures r == "security" <==>
              (AnyIn(Text.Lower(question), SecurityWords)
               || (!AnyIn(Text.Lower(question), SecurityWords + QualityWords + BugWords)
                   && ModelLabel(answer) == Some("security")))
    ensures AnyIn(Text.Lower(question), SecurityWords) ==> r == "security"
    ensures !AnyIn(Text.Lower(question), SecurityWords) && AnyIn(Text.Lower(question), QualityWords) ==> r == "quality"
    ensures (!AnyIn(Text.Lower(question), SecurityWords) && !AnyIn(Text.Lower(question), QualityWords)
             && AnyIn(Text.Lower(question), BugWords)) ==> r == "bug"
    ensures !AnyIn(Text.Lower(question), SecurityWords + QualityWords + BugWords) ==>
              r == ModelLabel(answer).GetOr("general")
  {
    var q := Text.Lower(question);
    AnyInConcat(q, SecurityWords, QualityWords, BugWords);
    if AnyIn(q, SecurityWords) then "security"
    else if AnyIn(q, QualityWords) then "quality"
    else if AnyIn(q, BugWords) then "bug"
    else ModelLabel(answer).GetOr("general")
  }

  lemma AnyInConcat(q: string, a: seq<string>, b: seq<string>, c: seq<string>)
    ensures AnyIn(q, a + b + c) <==> AnyIn(q, a) || AnyIn(q, b) || AnyIn(q, c)
  {
    if AnyIn(q, a + b + c) {
      var w :| w in a + b + c && Text.Contains(q, w);
    }
    if AnyIn(q, a) {
      var w :| w in a && Text.Contains(q, w);
      assert w in a + b + c;
    }
    if AnyIn(q, b) {
      var w :| w in b && Text.Contains(q, w);
      assert w in a + b + c;
    }
    if AnyIn(q, c) {
      var w :| w in c && Text.Contains(q, w);
      assert w in a + b + c;
    }
  }

  function RoutedLog(agentType: string): LogEntry {
    LogEntry("agent_router", "router", "Routed to " + agentType + " agent", "completed")
  }

  /**
   * `agent_router_node`: a blank question is routed to "general" without a
   * log; otherwise the classifier's label is recorded with one log.
   */
  method AgentRouterNode(s: ReviewState, answer: Option<string>) returns (r: ReviewState)
    ensures Text.IsBlank(s.chatQuery.GetOr("")) ==> r == s.(agentType := Some("general"))
    ensures !Text.IsBlank(s.chatQuery.GetOr("")) ==>
              r == s.(agentType := Some(ClassifyQuestion(Text.Strip(s.chatQuery.GetOr("")), answer)),
                      toolLogs := s.toolLogs + [RoutedLog(ClassifyQuestion(Text.Strip(s.chatQuery.GetOr("")), answer))])
    ensures r.agentType.Some? && r.agentType.value in Labels
  {
    var chatQuery := Text.Strip(s.chatQuery.GetOr(""));
    if chatQuery == [] {
      r := s.(agentType := Some("general"));
      return;
    }
    var agentType := ClassifyQuestion(chatQuery, answer);
    r := s.(agentType := Some(agentType));
    r := r.(toolLogs := r.toolLogs + [RoutedLog(agentType)]);
  }
}
