/**
 * `synthesis_node`: the section names the model is asked for, the two
 * deterministic fallbacks (the full markdown review and the short chat
 * notes), and the node's control flow. The semantic-cache lookup and the
 * model are parameters: the text of a cache hit, if any, and the model's
 * reply, if any.
 */
module Synthesis {
  import opened Wrappers
  import opened State
  import Text
  import opened Render
  import Collector

  /** The report section an agent asks for. */
  function SectionName(agent: string): Option<string> {
    if agent == "quality" then Some("Quality")
    else if agent == "bug" then Some("Bugs")
    else if agent == "security" then Some("Security")
    else None
  }

  const DefaultSections: seq<string> := ["Security", "Quality", "Bugs"]

  /** The sections of the known agents, in agent order. */
  function AgentSections(agents: seq<string>): seq<string> {
    if agents == [] then []
    else
      var init := AgentSections(agents[..|agents| - 1]);
      match SectionName(agents[|agents| - 1])
      case None => init
      case Some(n) => init + [n]
  }

  /** The section names of `_messages_from_state` outside chat mode. */
  function SectionNames(mode: string, agents: seq<string>): seq<string> {
    if mode == "specialists" then AgentSections(agents) else DefaultSections
  }

  /** In specialists mode there is at most one name per agent, and every name is one of the three sections. */
  lemma {:induction false} AgentSectionsBound(agents: seq<string>)
    ensures |AgentSections(agents)| <= |agents|
    ensures forall n :: n in AgentSections(agents) ==> n in DefaultSections
  {
    if agents != [] {
      AgentSectionsBound(agents[..|agents| - 1]);
    }
  }

  /** A name is selected exactly when some agent asks for it; unknown agents are dropped. */
  lemma {:induction false} AgentSectionsMembers(agents: seq<string>)
    ensures forall n :: n in AgentSections(agents) <==> exists a :: a in agents && SectionName(a) == Some(n)
  {
    if agents != [] {
      var init := agents[..|agents| - 1];
      var last := agents[|agents| - 1];
      AgentSectionsMembers(init);
      assert agents == init + [last];
      forall n | n in AgentSections(agents) ensures exists a :: a in agents && SectionName(a) == Some(n) {
        if n in AgentSections(init) {
          var a :| a in init && SectionName(a) == Some(n);
          assert a in agents;
        } else {
          assert SectionName(last) == Some(n);
        }
      }
      forall n, a | a in agents && SectionName(a) == Some(n) ensures n in AgentSections(agents) {
        if a != last {
          assert a in init;
        }
      }
    }
  }

  /** When every agent is known, the names are the agents' sections, one for one and in order. */
  lemma {:induction false} AgentSectionsAllKnown(agents: seq<string>)
    requires forall a :: a in agents ==> SectionName(a).Some?
    ensures |AgentSections(agents)| == |agents|
    ensures forall i :: 0 <= i < |agents| ==> AgentSections(agents)[i] == SectionName(agents[i]).value
  {
    if agents != [] {
      var init := agents[..|agents| - 1];
      var last := agents[|agents| - 1];
      assert forall a :: a in init ==> a in agents;
      AgentSectionsAllKnown(init);
      assert SectionName(last).Some?;
      assert AgentSections(agents) == AgentSections(init) + [SectionName(last).value];
      forall i | 0 <= i < |agents| ensures AgentSections(agents)[i] == SectionName(agents[i]).value {
        if i < |init| {
          assert agents[i] == init[i];
        }
      }
    }
  }

  /** The loop over the agents that collects the section names. */
  method SelectSections(mode: string, agents: seq<string>) returns (names: seq<string>)
    ensures names == SectionNames(mode, agents)
  {
    if mode != "specialists" {
      return DefaultSections;
    }
    names := [];
    var i := 0;
    while i < |agents|
      invariant 0 <= i <= |agents|
      invariant names == AgentSections(agents[..i])
    {
      assert agents[..i + 1][..i] == agents[..i];
      var a := agents[i];
      if a == "quality" {
        names := names + ["Quality"];
      }
      if a == "bug" {
        names := names + ["Bugs"];
      }
      if a == "security" {
        names := names + ["Security"];
      }
      i := i + 1;
    }
    assert agents[..i] == agents;
  }

  const ReviewHeading := "# Code Review\n"
  const FallbackLimit := 10

  function ArrowIssueLine(num: Numerals, i: Issue): string {
    "- Line " + ShowInt(i.line) + ": " + i.metric + "=" + num.repr(i.score) + " \U{2192} " + i.suggestion + "\n"
  }

  function BugLine(num: Numerals, b: Bug): string {
    "- Line " + Text.IntToString(b.line) + ": " + b.kind + " (conf " + num.repr(b.confidence) + ")\n"
  }

  /** `metrics.get('worst', 0)` printed with `str`: a missing value prints as the integer 0. */
  function ShowWorst(num: Numerals, w: Option<real>): string {
    match w
    case None => "0"
    case Some(x) => num.repr(x)
  }

  function MetricsOf(q: Option<QualityReport>): Metrics {
    if q.Some? then q.value.metrics.GetOr(NoMetrics) else NoMetrics
  }

  function IssuesOf(q: Option<QualityReport>): seq<Issue> {
    if q.Some? then q.value.issues.GetOr([]) else []
  }

  function BugsOf(b: Field<BugReport>): seq<Bug> {
    if b.Present? then b.value.bugs else []
  }

  function VulnsOf(sec: Option<SecurityReport>): seq<Vuln> {
    if sec.Some? then sec.value.vulnerabilities else []
  }

  /** The counts under the Quality header: blocks, worst and average complexity. */
  function QualityStats(s: ReviewState, num: Numerals): string {
    var m := MetricsOf(s.qualityReport);
    "Blocks analyzed: " + Text.IntToString(m.count.GetOr(0)) + "\n"
    + "Worst complexity: " + ShowWorst(num, m.worst) + ", Avg: " + num.fixed2(m.avg.GetOr(0.0)) + "\n"
  }

  function QualityGroup(s: ReviewState, num: Numerals): Group {
    Group("## Quality\n" + QualityStats(s, num),
          Lines(i => ArrowIssueLine(num, i), Text.Take(IssuesOf(s.qualityReport), FallbackLimit)), "\n")
  }

  function BugsGroup(s: ReviewState, num: Numerals): Group {
    Group("## Bugs\n", Lines(b => BugLine(num, b), Text.Take(BugsOf(s.bugReport), FallbackLimit)), "\n")
  }

  function SecurityGroup(s: ReviewState): Group {
    Group("## Security\n", Lines(Collector.VulnLine, Text.Take(VulnsOf(s.securityReport), FallbackLimit)), "\n")
  }

  /** `_fallback_markdown`: the review heading, then the Quality, Bugs and Security groups. */
  function FallbackMarkdown(s: ReviewState, num: Numerals): string {
    ReviewHeading + GroupsText([QualityGroup(s, num), BugsGroup(s, num), SecurityGroup(s)])
  }

  /** Three rendered groups show their titles in order. */
  lemma ThreeTitles(h: string, g1: Group, g2: Group, g3: Group)
    ensures exists x, y, z :: h + GroupsText([g1, g2, g3]) == h + g1.title + x + g2.title + y + g3.title + z
  {
    var gs := [g1, g2, g3];
    assert [g3][1..] == [] && GroupsText([g3]) == GroupText(g3);
    assert [g2, g3][1..] == [g3] && GroupsText([g2, g3]) == GroupText(g2) + GroupText(g3);
    assert gs[1..] == [g2, g3] && GroupsText(gs) == GroupText(g1) + (GroupText(g2) + GroupText(g3));
    var x, y, z := Text.Concat(g1.items) + g1.close, Text.Concat(g2.items) + g2.close, Text.Concat(g3.items) + g3.close;
    assert GroupText(g1) == g1.title + x && GroupText(g2) == g2.title + y && GroupText(g3) == g3.title + z;
    Regroup(h, g1.title, x, g2.title, y, g3.title, z);
  }

  lemma Regroup(h: string, t1: string, x: string, t2: string, y: string, t3: string, z: string)
    ensures h + ((t1 + x) + ((t2 + y) + (t3 + z))) == h + t1 + x + t2 + y + t3 + z
  {
  }

  /**
   * The fallback review starts with "# Code Review" and the Quality group,
   * whose title starts with "## Quality", and has the "## Bugs" and
   * "## Security" headers after it, in that order.
   */
  lemma FallbackHeaders(s: ReviewState, num: Numerals)
    ensures Text.StartsWith(QualityGroup(s, num).title, "## Quality\n")
    ensures exists x, y, z :: FallbackMarkdown(s, num)
                             == ReviewHeading + QualityGroup(s, num).title + x + "## Bugs\n" + y + "## Security\n" + z
  {
    Text.StartsWithConcat("## Quality\n", QualityStats(s, num));
    ThreeTitles(ReviewHeading, QualityGroup(s, num), BugsGroup(s, num), SecurityGroup(s));
  }

  /** Each of the three groups lists the first min(10, n) entries, in order. */
  lemma FallbackLimits(s: ReviewState, num: Numerals)
    ensures |QualityGroup(s, num).items| == Min(FallbackLimit, |IssuesOf(s.qualityReport)|)
    ensures |BugsGroup(s, num).items| == Min(FallbackLimit, |BugsOf(s.bugReport)|)
    ensures |SecurityGroup(s).items| == Min(FallbackLimit, |VulnsOf(s.securityReport)|)
    ensures forall i :: 0 <= i < |SecurityGroup(s).items| ==>
              SecurityGroup(s).items[i] == Collector.VulnLine(VulnsOf(s.securityReport)[i])
    ensures forall i :: 0 <= i < |BugsGroup(s, num).items| ==>
              BugsGroup(s, num).items[i] == BugLine(num, BugsOf(s.bugReport)[i])
  {
  }

  /** `(state.get("chat_query") or "").strip()` */
  function Question(s: ReviewState): string {
    Text.Strip(s.chatQuery.GetOr(""))
  }

  /** `metrics or {}` is truthy: a metrics dict with at least one key. */
  predicate MetricsTruthy(q: Option<QualityReport>) {
    q.Some? && q.value.metrics.Some? && q.value.metrics.value != NoMetrics
  }

  function NoteVulnLine(v: Vuln): string {
    "  \U{2022} Line " + ShowInt(v.line) + ": " + ShowStr(v.kind) + " [" + ShowStr(v.severity) + "]\n"
  }

  function NoteIssueLine(num: Numerals, i: Issue): string {
    "  \U{2022} Line " + ShowInt(i.line) + ": " + i.metric + "=" + num.repr(i.score) + " \U{2192} " + i.suggestion + "\n"
  }

  function NoteBugLine(num: Numerals, b: Bug): string {
    "  \U{2022} Line " + Text.IntToString(b.line) + ": " + b.kind + " (conf " + num.repr(b.confidence) + ")\n"
  }

  function NoteIssueLineOf(num: Numerals): Issue -> string {
    i => NoteIssueLine(num, i)
  }

  function NoteBugLineOf(num: Numerals): Bug -> string {
    b => NoteBugLine(num, b)
  }

  function QuestionLine(s: ReviewState): string {
    "Question: " + Question(s) + "\n"
  }

  function QuestionGroups(s: ReviewState): seq<Group> {
    if Question(s) != [] then [Group(QuestionLine(s), [], "")] else []
  }

  function MetricsGroups(s: ReviewState, num: Numerals): seq<Group> {
    if MetricsTruthy(s.qualityReport) then
      var m := s.qualityReport.value.metrics.value;
      [Group("- Quality: worst=" + num.fixed1(m.worst.GetOr(0.0)) + ", avg=" + num.fixed2(m.avg.GetOr(0.0)) + "\n",
             [], "")]
    else []
  }

  /**
   * The short notes of the chat fallbacks: the question, at most 3
   * vulnerabilities under `securityTitle`, the quality metrics, at most 2
   * quality issues and at most 2 bugs.
   */
  function NoteGroups(s: ReviewState, num: Numerals, securityTitle: string): seq<Group> {
    QuestionGroups(s) + SecurityNotes(s, securityTitle) + MetricsGroups(s, num) + IssueNotes(s, num) + BugNotes(s, num)
  }

  /** The notes, or `emptyText` when there is nothing to say. */
  function Notes(s: ReviewState, num: Numerals, securityTitle: string, emptyText: string): string {
    var gs := NoteGroups(s, num, securityTitle);
    if gs == [] then emptyText else GroupsText(gs)
  }

  /** Nothing to say: no question, no vulnerability, falsy metrics, no issue and no bug. */
  predicate NothingToSay(s: ReviewState) {
    Question(s) == [] && VulnsOf(s.securityReport) == [] && !MetricsTruthy(s.qualityReport)
    && IssuesOf(s.qualityReport) == [] && BugsOf(s.bugReport) == []
  }

  /** The notes fall back to `emptyText` exactly when there is nothing to say. */
  lemma NotesEmpty(s: ReviewState, num: Numerals, securityTitle: string)
    ensures NoteGroups(s, num, securityTitle) == [] <==> NothingToSay(s)
  {
  }

  function SecurityNotes(s: ReviewState, securityTitle: string): seq<Group> {
    Listing(securityTitle, VulnsOf(s.securityReport), NoteVulnLine, 3, "")
  }

  function IssueNotes(s: ReviewState, num: Numerals): seq<Group> {
    Listing("", IssuesOf(s.qualityReport), NoteIssueLineOf(num), 2, "")
  }

  function BugNotes(s: ReviewState, num: Numerals): seq<Group> {
    Listing("- Bugs: potential issues:\n", BugsOf(s.bugReport), NoteBugLineOf(num), 2, "")
  }

  /** The notes hold exactly min(3, vulnerabilities) + min(2, issues) + min(2, bugs) list items. */
  lemma NotesCount(s: ReviewState, num: Numerals, securityTitle: string)
    ensures ItemCount(NoteGroups(s, num, securityTitle))
            == Min(3, |VulnsOf(s.securityReport)|) + Min(2, |IssuesOf(s.qualityReport)|) + Min(2, |BugsOf(s.bugReport)|)
  {
    var q, m := QuestionGroups(s), MetricsGroups(s, num);
    NoteGroupsSplit(q, SecurityNotes(s, securityTitle), m, IssueNotes(s, num), BugNotes(s, num));
    ListingFacts(securityTitle, VulnsOf(s.securityReport), NoteVulnLine, 3, "");
    ListingFacts("", IssuesOf(s.qualityReport), NoteIssueLineOf(num), 2, "");
    ListingFacts("- Bugs: potential issues:\n", BugsOf(s.bugReport), NoteBugLineOf(num), 2, "");
    assert ItemCount(q) == 0 by {
      if q != [] {
        assert ItemCount(q) == |q[0].items| + ItemCount(q[1..]);
      }
    }
    assert ItemCount(m) == 0 by {
      if m != [] {
        assert ItemCount(m) == |m[0].items| + ItemCount(m[1..]);
      }
    }
  }

  /** A question, when there is one, opens the notes. */
  lemma NotesQuestion(s: ReviewState, num: Numerals, securityTitle: string, emptyText: string)
    requires Question(s) != []
    ensures Text.StartsWith(Notes(s, num, securityTitle, emptyText), QuestionLine(s))
  {
    var q, l1, m, l2, l3 := QuestionGroups(s), SecurityNotes(s, securityTitle), MetricsGroups(s, num),
                            IssueNotes(s, num), BugNotes(s, num);
    NoteGroupsSplit(q, l1, m, l2, l3);
    var head := QuestionLine(s);
    assert q[1..] == [];
    assert GroupsText(q) == GroupText(q[0]) + GroupsText([]);
    assert GroupText(q[0]) == head + [] + [];
    var t1, t2, t3, t4 := GroupsText(l1), GroupsText(m), GroupsText(l2), GroupsText(l3);
    Text.StartsWithConcat(head, t1);
    Text.StartsWithExtend(head + t1, head, t2);
    Text.StartsWithExtend(head + t1 + t2, head, t3);
    Text.StartsWithExtend(head + t1 + t2 + t3, head, t4);
  }

  /** The notes show the first vulnerabilities, issues and bugs up to their limits. */
  lemma NotesShown(s: ReviewState, num: Numerals, securityTitle: string, emptyText: string)
    ensures var vs, iss, bs := VulnsOf(s.securityReport), IssuesOf(s.qualityReport), BugsOf(s.bugReport);
            var text := Notes(s, num, securityTitle, emptyText);
            (forall i :: 0 <= i < Min(3, |vs|) ==> Text.Contains(text, NoteVulnLine(vs[i])))
            && (forall i :: 0 <= i < Min(2, |iss|) ==> Text.Contains(text, NoteIssueLine(num, iss[i])))
            && (forall i :: 0 <= i < Min(2, |bs|) ==> Text.Contains(text, NoteBugLine(num, bs[i])))
  {
    var vs, iss, bs := VulnsOf(s.securityReport), IssuesOf(s.qualityReport), BugsOf(s.bugReport);
    var q, l1, m, l2, l3 := QuestionGroups(s), SecurityNotes(s, securityTitle), MetricsGroups(s, num),
                            IssueNotes(s, num), BugNotes(s, num);
    var gs := NoteGroups(s, num, securityTitle);
    NoteGroupsSplit(q, l1, m, l2, l3);
    ListingFacts(securityTitle, vs, NoteVulnLine, 3, "");
    ListingFacts("", iss, NoteIssueLineOf(num), 2, "");
    ListingFacts("- Bugs: potential issues:\n", bs, NoteBugLineOf(num), 2, "");
    if gs != [] {
      var text := GroupsText(gs);
      var h, t1, t2, t3, t4 := GroupsText(q), GroupsText(l1), GroupsText(m), GroupsText(l2), GroupsText(l3);
      assert text == h + t1 + t2 + t3 + t4;
      ShownInParts(h, t1, t2, t3, t4);
      forall i | 0 <= i < Min(2, |iss|) ensures Text.Contains(text, NoteIssueLine(num, iss[i])) {
        assert NoteIssueLineOf(num)(iss[i]) == NoteIssueLine(num, iss[i]);
      }
      forall i | 0 <= i < Min(2, |bs|) ensures Text.Contains(text, NoteBugLine(num, bs[i])) {
        assert NoteBugLineOf(num)(bs[i]) == NoteBugLine(num, bs[i]);
      }
    } else {
      assert vs == [] && iss == [] && bs == [];
    }
  }

  /** Groups whose first one has a title or a non-empty first item render to a non-empty text. */
  lemma LeadingGroupShown(gs: seq<Group>)
    requires gs != [] && (gs[0].title != [] || (gs[0].items != [] && gs[0].items[0] != []))
    ensures GroupsText(gs) != []
  {
    assert GroupsText(gs) == GroupText(gs[0]) + GroupsText(gs[1..]);
    if gs[0].items != [] {
      assert Text.Concat(gs[0].items) == gs[0].items[0] + Text.Concat(gs[0].items[1..]);
    }
  }

  /** The notes are never empty, whenever neither the security title nor the empty text is. */
  lemma NotesNonEmpty(s: ReviewState, num: Numerals, securityTitle: string, emptyText: string)
    requires securityTitle != [] && emptyText != []
    ensures Notes(s, num, securityTitle, emptyText) != []
  {
    var q, l1, m, l2, l3 := QuestionGroups(s), SecurityNotes(s, securityTitle), MetricsGroups(s, num),
                            IssueNotes(s, num), BugNotes(s, num);
    var gs := NoteGroups(s, num, securityTitle);
    if gs != [] {
      NoteGroupsSplit(q, l1, m, l2, l3);
      if q != [] {
        LeadingGroupShown(q);
      } else if l1 != [] {
        LeadingGroupShown(l1);
      } else if m != [] {
        LeadingGroupShown(m);
      } else if l2 != [] {
        assert l2[0].items[0] == NoteIssueLine(num, IssuesOf(s.qualityReport)[0]);
        LeadingGroupShown(l2);
      } else {
        LeadingGroupShown(l3);
      }
    }
  }

  /** Rendering and counting the five parts of the notes one after the other. */
  lemma NoteGroupsSplit(q: seq<Group>, l1: seq<Group>, m: seq<Group>, l2: seq<Group>, l3: seq<Group>)
    ensures GroupsText(q + l1 + m + l2 + l3)
              == GroupsText(q) + GroupsText(l1) + GroupsText(m) + GroupsText(l2) + GroupsText(l3)
    ensures ItemCount(q + l1 + m + l2 + l3) == ItemCount(q) + ItemCount(l1) + ItemCount(m) + ItemCount(l2) + ItemCount(l3)
  {
    GroupsTextAppend(q, l1);
    GroupsTextAppend(q + l1, m);
    GroupsTextAppend(q + l1 + m, l2);
    GroupsTextAppend(q + l1 + m + l2, l3);
    ItemCountAppend(q, l1);
    ItemCountAppend(q + l1, m);
    ItemCountAppend(q + l1 + m, l2);
    ItemCountAppend(q + l1 + m + l2, l3);
  }

  const NoInsights := "- No additional insights; try @security or paste a code block for deeper analysis.\n"

  /** `_chat_fallback` */
  function ChatFallback(s: ReviewState, num: Numerals): string {
    Notes(s, num, "- Security: Top findings:\n", NoInsights)
  }

  /** The reply text: the model's when it produced any, else the fallback for the mode. */
  function FinalText(s: ReviewState, modelText: Option<string>, num: Numerals): (t: string)
    ensures modelText.Some? && modelText.value != [] ==> t == modelText.value
    ensures !(modelText.Some? && modelText.value != []) && s.mode == "chat" ==> t == ChatFallback(s, num)
    ensures !(modelText.Some? && modelText.value != []) && s.mode != "chat" ==> t == FallbackMarkdown(s, num)
  {
    if modelText.Some? && modelText.value != [] then modelText.value
    else if s.mode == "chat" then ChatFallback(s, num)
    else FallbackMarkdown(s, num)
  }

  /** The report is never empty: the model's text is used only when it is not. */
  lemma FinalTextNonEmpty(s: ReviewState, modelText: Option<string>, num: Numerals)
    ensures FinalText(s, modelText, num) != []
  {
    if !(modelText.Some? && modelText.value != []) {
      if s.mode == "chat" {
        NotesNonEmpty(s, num, "- Security: Top findings:\n", NoInsights);
      } else {
        assert |FallbackMarkdown(s, num)| >= |ReviewHeading|;
      }
    }
  }

  const CacheHitLog := LogEntry("semantic-cache", "synthesis", "Semantic cache hit for synthesis.", "hit")
  const SynthesisLog := LogEntry("synthesis", "orchestrator", "Synthesis: report generated.", "completed")

  /** A cached text counts as a hit only when it is not blank. */
  predicate CacheHit(cached: Option<string>) {
    cached.Some? && !Text.IsBlank(cached.value)
  }

  /**
   * `synthesis_node`: a non-blank cached text becomes the report at once;
   * otherwise the model's text or the mode's fallback does. Either way one
   * log is appended and progress rises by 30, capped at 100.
   */
  method SynthesisNode(s: ReviewState, cached: Option<string>, modelText: Option<string>, num: Numerals)
    returns (r: ReviewState)
    ensures CacheHit(cached) ==>
              r == s.(finalReport := Some(cached.value), toolLogs := s.toolLogs + [CacheHitLog],
                      progress := Bump(s.progress, 30.0))
    ensures !CacheHit(cached) ==>
              r == s.(finalReport := Some(FinalText(s, modelText, num)), toolLogs := s.toolLogs + [SynthesisLog],
                      progress := Bump(s.progress, 30.0))
  {
    if cached.Some? && !Text.IsBlank(cached.value) {
      r := s.(finalReport := Some(cached.value));
      r := r.(toolLogs := AppendLog(r.toolLogs, CacheHitLog));
      r := r.(progress := Bump(r.progress, 30.0));
      return;
    }
    var finalText: string;
    if modelText.Some? && modelText.value != [] {
      finalText := modelText.value;
    } else if s.mode == "chat" {
      finalText := ChatFallback(s, num);
    } else {
      finalText := FallbackMarkdown(s, num);
    }
    r := s.(finalReport := Some(finalText));
    r := r.(toolLogs := AppendLog(r.toolLogs, SynthesisLog));
    r := r.(progress := Bump(r.progress, 30.0));
  }
}
