/**
 * `chat_reply_node`: a short reply to the chat question, grounded in the
 * stored reports and in the code chunks retrieved for the question. The
 * model is a parameter that sees the question and the retrieved-context
 * section and may answer or not; without an answer the reply falls back to
 * short notes from the stored reports.
 */
module ChatReply {
  import opened Wrappers
  import opened State
  import Text
  import opened Render
  import Synthesis

  const ContextHeading := "## Relevant Code Context\n"
  const MaxDocs := 5
  const MaxChunk := 500

  /** `doc.get("path", "unknown")` as the f-string prints it: a `None` path prints as "None". */
  function PathText(path: Field<string>): string {
    match path
    case Missing => "unknown"
    case Null => "None"
    case Present(p) => p
  }

  /** The header of the `i`-th retrieved chunk: its path and its relevance. */
  function DocHeader(i: nat, d: ContextDoc, num: Numerals): string {
    "### " + Text.NatToString(i) + ". " + PathText(d.path) + " (relevance: " + num.fixed2(d.score) + ")\n```\n"
  }

  /** The `i`-th chunk: its header and its first 500 characters in a code fence. */
  function DocBlock(i: nat, d: ContextDoc, num: Numerals): string {
    DocHeader(i, d, num) + Text.Take(d.text, MaxChunk) + "\n```\n"
  }

  /** The blocks of the documents, numbered from 1. */
  function Blocks(docs: seq<ContextDoc>, num: Numerals): (r: seq<string>)
    ensures |r| == |docs|
    ensures forall i :: 0 <= i < |docs| ==> r[i] == DocBlock(i + 1, docs[i], num)
  {
    if docs == [] then []
    else Blocks(docs[..|docs| - 1], num) + [DocBlock(|docs|, docs[|docs| - 1], num)]
  }

  /** The retrieved-context section: empty without documents, else the heading and the first 5 blocks. */
  function ContextSection(docs: seq<ContextDoc>, num: Numerals): string {
    if docs == [] then [] else Text.Join([ContextHeading] + Blocks(Text.Take(docs, MaxDocs), num), "\n")
  }

  /** One more document adds its block after the heading and the earlier blocks. */
  lemma BlocksStep(docs: seq<ContextDoc>, i: nat, num: Numerals)
    requires i < |docs|
    ensures [ContextHeading] + Blocks(docs[..i + 1], num)
            == [ContextHeading] + Blocks(docs[..i], num) + [DocBlock(i + 1, docs[i], num)]
  {
    assert docs[..i + 1][..i] == docs[..i];
  }

  /** The loop over `enumerate(chat_context_docs[:5], 1)` that builds the section. */
  method BuildContextSection(docs: seq<ContextDoc>, num: Numerals) returns (section: string)
    ensures section == ContextSection(docs, num)
  {
    if docs == [] {
      return [];
    }
    var top := Text.Take(docs, MaxDocs);
    var parts := [ContextHeading];
    var i := 0;
    while i < |top|
      invariant 0 <= i <= |top|
      invariant parts == [ContextHeading] + Blocks(top[..i], num)
    {
      BlocksStep(top, i, num);
      parts := parts + [DocBlock(i + 1, top[i], num)];
      i := i + 1;
    }
    assert top[..i] == top;
    section := Text.Join(parts, "\n");
  }

  /**
   * With documents, the section opens with its heading and holds the first
   * 500 characters of each of the first five documents, in their numbered
   * blocks; without documents it is empty.
   */
  lemma ContextSectionFacts(docs: seq<ContextDoc>, num: Numerals)
    ensures docs == [] <==> ContextSection(docs, num) == []
    ensures docs != [] ==> Text.StartsWith(ContextSection(docs, num), ContextHeading)
    ensures forall i :: 0 <= i < Min(MaxDocs, |docs|) ==>
              Text.Contains(ContextSection(docs, num), DocBlock(i + 1, docs[i], num))
              && Text.Contains(ContextSection(docs, num), Text.Take(docs[i].text, MaxChunk))
  {
    if docs != [] {
      var top := Text.Take(docs, MaxDocs);
      var parts := [ContextHeading] + Blocks(top, num);
      var section := ContextSection(docs, num);
      assert |parts| >= 2 && parts[0] == ContextHeading && parts[1..] == Blocks(top, num);
      var rest := Text.Join(parts[1..], "\n");
      assert section == ContextHeading + "\n" + rest;
      Text.StartsWithConcat(ContextHeading, "\n");
      Text.StartsWithExtend(ContextHeading + "\n", ContextHeading, rest);
      Text.JoinContainsParts(parts, "\n");
      forall i | 0 <= i < Min(MaxDocs, |docs|)
        ensures Text.Contains(section, DocBlock(i + 1, docs[i], num))
        ensures Text.Contains(section, Text.Take(docs[i].text, MaxChunk))
      {
        assert parts[i + 1] == DocBlock(i + 1, docs[i], num);
        var chunk := Text.Take(docs[i].text, MaxChunk);
        Text.ContainsSelf(chunk);
        Text.ContainsInConcat(DocHeader(i + 1, docs[i], num), chunk, "\n```\n", chunk);
        Text.ContainsTrans(section, DocBlock(i + 1, docs[i], num), chunk);
      }
    }
  }

  const NoStoredAnalysis := "No stored analysis yet. Run /explain to populate context.\n"
  const AskForQuestion := "Please include a question."

  /** `_fallback_reply`: the synthesis chat notes under "Security highlights". */
  function FallbackReply(s: ReviewState, num: Numerals): string {
    Synthesis.Notes(s, num, "- Security highlights:\n", NoStoredAnalysis)
  }

  /** The model's reply when it gives a non-empty one, else the fallback notes; never empty. */
  function Reply(s: ReviewState, num: Numerals, model: (string, string) -> Option<string>): (t: string)
    ensures t != []
    ensures var answer := model(Synthesis.Question(s), ContextSection(s.chatContextDocs, num));
            (answer.Some? && answer.value != [] ==> t == answer.value)
            && (!(answer.Some? && answer.value != []) ==> t == FallbackReply(s, num))
  {
    var answer := model(Synthesis.Question(s), ContextSection(s.chatContextDocs, num));
    Synthesis.NotesNonEmpty(s, num, "- Security highlights:\n", NoStoredAnalysis);
    if answer.Some? && answer.value != [] then answer.value else FallbackReply(s, num)
  }

  /**
   * `chat_reply_node`: a blank question only sets the request for a
   * question; otherwise the reply is stored and progress rises by 5, capped
   * at 100.
   */
  method ChatReplyNode(s: ReviewState, num: Numerals, model: (string, string) -> Option<string>)
    returns (r: ReviewState)
    ensures Synthesis.Question(s) == [] ==> r == s.(chatResponse := Some(AskForQuestion))
    ensures Synthesis.Question(s) != [] ==>
              r == s.(chatResponse := Some(Reply(s, num, model)), progress := Bump(s.progress, 5.0))
    ensures r.chatResponse.Some? && r.chatResponse.value != []
  {
    var query := Text.Strip(s.chatQuery.GetOr(""));
    if query == [] {
      return s.(chatResponse := Some(AskForQuestion));
    }
    var section := BuildContextSection(s.chatContextDocs, num);
    var reply := model(query, section);
    var text: string;
    if reply.Some? && reply.value != [] {
      text := reply.value;
    } else {
      text := FallbackReply(s, num);
    }
    r := s.(chatResponse := Some(text));
    r := r.(progress := Bump(r.progress, 5.0));
  }
}
